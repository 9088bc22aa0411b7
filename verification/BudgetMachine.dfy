// The Loss Budget under interleaving (src/epigone/execute/subs.py,
// src/epigone/execute/executor.py): executors read a row, measure, and write back verdicts
// and disables by compare-and-set, while /copy and /uncopy restate the row in between.
module BudgetMachine {
  import opened LossBudget
  import opened Wrappers

  type Instance = nat

  /** One instance's cycle over the mapping: not begun, holding the row as read (with which
      arming and era it was read in), or holding the row as it stands after judgement. */
  datatype Pc = Idle | Seen(row: Row, arming: nat, era: nat) | Judged(row: Row)

  /** A measured loss, the number it was held against and the arming it was measured from. */
  datatype Verdict = Verdict(loss: real, budget: real, arming: nat)

  /** The row; how many times it has been armed; how many times the operator has cleared its
      marks; the instances; every verdict reached; which arming each armed-at clock names. */
  datatype System = System(row: Row, arming: nat, era: nat, pcs: map<Instance, Pc>, verdicts: seq<Verdict>,
                           armedAs: map<int, nat>)

  /** A newly registered mapping. */
  function Start(budget: Option<real>): System {
    System(Row(true, budget, None, None, None, None, None), 0, 0, map[], [], map[])
  }

  function PcOf(s: System, i: Instance): Pc { if i in s.pcs then s.pcs[i] else Idle }

  datatype Step =
    | Copy(budget: Option<real>)
    | Uncopy
    | Read(i: Instance)
    | Arm(i: Instance, equity: real, now: int)
    | Judge(i: Instance, loss: real, now: int)
    | Pass(i: Instance)                         // unreadable, disabled or without a budget
    | Disable(i: Instance)                      // breached, and flat
    | Next(i: Instance)                         // the cycle ends, or the process dies

  predicate Governed(r: Row) { r.budget.Some? && r.enabled }

  /** `distinct` says that no two armings share a clock reading. */
  predicate Enabled(s: System, step: Step, distinct: bool) {
    match step
    case Copy(budget) => budget.Some? ==> budget.value > 0.0
    case Uncopy => true
    case Read(i) => PcOf(s, i).Idle?
    case Arm(i, _, now) =>
      && PcOf(s, i).Seen? && Governed(PcOf(s, i).row) && PcOf(s, i).row.baseline.None?
      && (distinct ==> now !in s.armedAs)
    case Judge(i, _, _) =>
      PcOf(s, i).Seen? && Governed(PcOf(s, i).row) && PcOf(s, i).row.baseline.Some? && PcOf(s, i).row.armedAt.Some?
    case Pass(i) => PcOf(s, i).Seen?
    case Disable(i) => PcOf(s, i).Judged? && PcOf(s, i).row.enabled && PcOf(s, i).row.breachedAt.Some?
    case Next(_) => true
  }

  predicate Clears(r: Row, budget: Option<real>) { budget != r.budget || !r.enabled }

  function WarnedBy(seen: Row, loss: real, now: int): Option<int>
    requires seen.budget.Some?
  {
    if BudgetStage(loss, seen.budget.value) != Within && seen.warnedAt.None? then Some(now) else None
  }

  function BreachedBy(seen: Row, loss: real, now: int): Option<int>
    requires seen.budget.Some?
  {
    if BudgetStage(loss, seen.budget.value) == Breached && seen.breachedAt.None? then Some(now) else None
  }

  /** What a cycle believes of the row after a verdict that landed. */
  function Believed(seen: Row, loss: real, now: int): Row
    requires seen.budget.Some?
  {
    seen.(spent := Some(loss), warnedAt := Coalesce(seen.warnedAt, WarnedBy(seen, loss, now)),
          breachedAt := Coalesce(seen.breachedAt, BreachedBy(seen, loss, now)))
  }

  function Apply(s: System, step: Step, distinct: bool): System
    requires Enabled(s, step, distinct)
  {
    match step
    case Copy(budget) => s.(row := Reenabled(s.row, budget), era := if Clears(s.row, budget) then s.era + 1 else s.era)
    case Uncopy => s.(row := s.row.(enabled := false))
    case Read(i) => s.(pcs := s.pcs[i := Seen(s.row, s.arming, s.era)])
    case Arm(i, equity, now) =>
      var seen := PcOf(s, i).row;
      if Arms(s.row) then
        s.(row := Armed(s.row, equity, now), arming := s.arming + 1, armedAs := s.armedAs[now := s.arming + 1],
           pcs := s.pcs[i := Judged(Armed(seen, equity, now))])
      else s.(pcs := s.pcs[i := Judged(seen)])
    case Judge(i, loss, now) =>
      var seen := PcOf(s, i).row;
      var b, t := seen.budget.value, seen.armedAt.value;
      s.(row := Spent(s.row, loss, WarnedBy(seen, loss, now), BreachedBy(seen, loss, now), b, t),
         verdicts := s.verdicts + [Verdict(loss, b, PcOf(s, i).arming)],
         pcs := s.pcs[i := Judged(if TermsStand(s.row, b, t) then Believed(seen, loss, now) else seen)])
    case Pass(i) => s.(pcs := s.pcs[i := Judged(PcOf(s, i).row)])
    case Disable(i) =>
      var believed := PcOf(s, i).row;
      s.(row := DisabledForSpent(s.row, believed.breachedAt.value),
         pcs := s.pcs[i := Judged(believed.(enabled := false))])
    case Next(i) => s.(pcs := s.pcs[i := Idle])
  }

  function Exec(s: System, steps: seq<Step>, distinct: bool): System {
    if steps == [] then s
    else
      var before, last := Exec(s, steps[..|steps| - 1], distinct), steps[|steps| - 1];
      if Enabled(before, last, distinct) then Apply(before, last, distinct) else before
  }

  /** The step lands a breach on a row that carried none. */
  predicate LandsFirstBreach(s: System, step: Step, distinct: bool) {
    && step.Judge? && Enabled(s, step, distinct)
    && var seen := PcOf(s, step.i).row;
       && s.row.breachedAt.None? && TermsStand(s.row, seen.budget.value, seen.armedAt.value)
       && BreachedBy(seen, step.loss, step.now).Some?
  }

  // ---------------------------------------------------------------------------
  // A breach is of the current number, in the current arming
  // ---------------------------------------------------------------------------

  /** Some verdict of the row's own arming, against the row's own number, met it. */
  predicate Backed(verdicts: seq<Verdict>, budget: real, arming: nat) {
    exists k :: 0 <= k < |verdicts| && Meets(verdicts[k], budget, arming)
  }

  predicate Meets(v: Verdict, budget: real, arming: nat) {
    v.arming == arming && v.budget == budget && v.loss >= budget
  }

  predicate BreachBacked(s: System) {
    s.row.breachedAt.Some? ==> s.row.budget.Some? && Backed(s.verdicts, s.row.budget.value, s.arming)
  }

  lemma BackedGrows(verdicts: seq<Verdict>, v: Verdict, budget: real, arming: nat)
    ensures Backed(verdicts + [v], budget, arming) <==> Backed(verdicts, budget, arming) || Meets(v, budget, arming)
  {
    if Backed(verdicts, budget, arming) {
      var k :| 0 <= k < |verdicts| && Meets(verdicts[k], budget, arming);
      assert (verdicts + [v])[k] == verdicts[k];
    }
    assert (verdicts + [v])[|verdicts|] == v;
    if Backed(verdicts + [v], budget, arming) && !Meets(v, budget, arming) {
      var k :| 0 <= k < |verdicts + [v]| && Meets((verdicts + [v])[k], budget, arming);
      assert k < |verdicts| && verdicts[k] == (verdicts + [v])[k];
    }
  }

  /** A first breach lands from a read made in another arming, with no verdict of this one
      to back it. */
  predicate Mixes(s: System, step: Step, distinct: bool) {
    && LandsFirstBreach(s, step, distinct)
    && PcOf(s, step.i).arming != s.arming && s.row.budget.Some? && !Backed(s.verdicts, s.row.budget.value, s.arming)
  }

  /** One step keeps a breach backed exactly unless it mixes armings. */
  lemma StepBacksIffItDoesNotMix(s: System, step: Step, distinct: bool)
    requires Schema(s.row) && BreachBacked(s) && Enabled(s, step, distinct)
    ensures Schema(Apply(s, step, distinct).row)
    ensures BreachBacked(Apply(s, step, distinct)) <==> !Mixes(s, step, distinct)
  {
    if step.Judge? {
      var pc := PcOf(s, step.i);
      if s.row.budget.Some? {
        BackedGrows(s.verdicts, Verdict(step.loss, pc.row.budget.value, pc.arming), s.row.budget.value, s.arming);
      }
    }
  }

  predicate BackedAt(s: System, steps: seq<Step>, k: nat, distinct: bool)
    requires k <= |steps|
  {
    BreachBacked(Exec(s, steps[..k], distinct))
  }

  predicate MixesAt(s: System, steps: seq<Step>, k: nat, distinct: bool)
    requires k < |steps|
  {
    Mixes(Exec(s, steps[..k], distinct), steps[k], distinct)
  }

  lemma StepKeepsSchema(s: System, step: Step, distinct: bool)
    requires Schema(s.row) && Enabled(s, step, distinct)
    ensures Schema(Apply(s, step, distinct).row)
  {
  }

  lemma {:induction false} SchemaHolds(s: System, steps: seq<Step>, distinct: bool)
    requires Schema(s.row)
    ensures Schema(Exec(s, steps, distinct).row)
  {
    if steps != [] {
      SchemaHolds(s, steps[..|steps| - 1], distinct);
      var before := Exec(s, steps[..|steps| - 1], distinct);
      if Enabled(before, steps[|steps| - 1], distinct) { StepKeepsSchema(before, steps[|steps| - 1], distinct); }
    }
  }

  lemma OneMore(s: System, steps: seq<Step>, k: nat, distinct: bool)
    requires k < |steps|
    ensures var before := Exec(s, steps[..k], distinct);
            Exec(s, steps[..k + 1], distinct) ==
            if Enabled(before, steps[k], distinct) then Apply(before, steps[k], distinct) else before
  {
    assert steps[..k + 1][..k] == steps[..k];
  }

  /** Exactly which runs can be trusted, whatever their clocks: a breach is backed at every
      point of a run if and only if no judgement of it mixes armings. */
  lemma BackedThroughoutIffNothingMixes(budget: Option<real>, steps: seq<Step>, distinct: bool)
    requires budget.Some? ==> budget.value > 0.0
    ensures (forall k :: 0 <= k <= |steps| ==> BackedAt(Start(budget), steps, k, distinct))
            <==> (forall k :: 0 <= k < |steps| ==> !MixesAt(Start(budget), steps, k, distinct))
  {
    var s := Start(budget);
    if forall k :: 0 <= k <= |steps| ==> BackedAt(s, steps, k, distinct) {
      forall k | 0 <= k < |steps| ensures !MixesAt(s, steps, k, distinct) {
        assert BackedAt(s, steps, k, distinct) && BackedAt(s, steps, k + 1, distinct);
        SchemaHolds(s, steps[..k], distinct);
        OneMore(s, steps, k, distinct);
        var before := Exec(s, steps[..k], distinct);
        if Enabled(before, steps[k], distinct) { StepBacksIffItDoesNotMix(before, steps[k], distinct); }
      }
    }
    if forall k :: 0 <= k < |steps| ==> !MixesAt(s, steps, k, distinct) {
      forall k | 0 <= k <= |steps| ensures BackedAt(s, steps, k, distinct) { BackedUpTo(s, steps, k, distinct); }
    }
  }

  lemma {:induction false} BackedUpTo(s: System, steps: seq<Step>, k: nat, distinct: bool)
    requires k <= |steps| && Schema(s.row) && BreachBacked(s)
    requires forall j :: 0 <= j < |steps| ==> !MixesAt(s, steps, j, distinct)
    ensures BackedAt(s, steps, k, distinct)
  {
    if k > 0 {
      BackedUpTo(s, steps, k - 1, distinct);
      SchemaHolds(s, steps[..k - 1], distinct);
      OneMore(s, steps, k - 1, distinct);
      var before := Exec(s, steps[..k - 1], distinct);
      assert !MixesAt(s, steps, k - 1, distinct);
      if Enabled(before, steps[k - 1], distinct) { StepBacksIffItDoesNotMix(before, steps[k - 1], distinct); }
    }
  }

  /** An armed-at clock names one arming. */
  predicate ArmingKnown(s: System, armedAt: Option<int>, arming: nat) {
    armedAt.Some? ==> armedAt.value in s.armedAs && s.armedAs[armedAt.value] == arming
  }

  predicate PcOk(s: System, pc: Pc) {
    pc.Seen? ==> Schema(pc.row) && pc.arming <= s.arming && ArmingKnown(s, pc.row.armedAt, pc.arming)
  }

  /** While armings do not share clocks, a clock names one arming and an arming one clock. */
  ghost predicate Invariant(s: System) {
    && Schema(s.row) && BreachBacked(s)
    && ArmingKnown(s, s.row.armedAt, s.arming)
    && (forall t :: t in s.armedAs ==> s.armedAs[t] <= s.arming)
    && (forall t, u :: t in s.armedAs && u in s.armedAs && s.armedAs[t] == s.armedAs[u] ==> t == u)
    && (forall i :: PcOk(s, PcOf(s, i)))
  }

  lemma StepKeeps(s: System, step: Step)
    requires Invariant(s) && Enabled(s, step, true)
    ensures Invariant(Apply(s, step, true))
  {
    var s' := Apply(s, step, true);
    forall j ensures PcOk(s', PcOf(s', j)) { assert PcOk(s, PcOf(s, j)); }
    if step.Judge? { assert PcOk(s, PcOf(s, step.i)); }
    StepBacksIffItDoesNotMix(s, step, true);
  }

  lemma {:induction false} ExecKeeps(s: System, steps: seq<Step>)
    requires Invariant(s)
    ensures Invariant(Exec(s, steps, true))
  {
    if steps != [] {
      ExecKeeps(s, steps[..|steps| - 1]);
      var before := Exec(s, steps[..|steps| - 1], true);
      if Enabled(before, steps[|steps| - 1], true) { StepKeeps(before, steps[|steps| - 1]); }
    }
  }

  /** A breach is never about another number or another arming: while armings do not share
      a clock, under any interleaving a mark on the row means a loss was measured, in the
      row's current arming, against the row's current budget, and met it. */
  lemma BreachIsBacked(budget: Option<real>, steps: seq<Step>)
    requires budget.Some? ==> budget.value > 0.0
    ensures BreachBacked(Exec(Start(budget), steps, true)) && Schema(Exec(Start(budget), steps, true).row)
  {
    ExecKeeps(Start(budget), steps);
  }

  lemma FirstBreachLands(s: System, i: Instance, loss: real, now: int)
    requires Invariant(s) && Enabled(s, Judge(i, loss, now), true) && s.row.breachedAt.None?
    requires PcOf(s, i).row.breachedAt.None? && loss >= PcOf(s, i).row.budget.value
    ensures LandsFirstBreach(s, Judge(i, loss, now), true) <==>
              s.row.budget == PcOf(s, i).row.budget && s.row.armedAt.Some? && s.arming == PcOf(s, i).arming
  {
    var pc := PcOf(s, i);
    assert PcOk(s, pc);
    if s.row.armedAt.Some? && s.arming == pc.arming {
      var t, u := s.row.armedAt.value, pc.row.armedAt.value;
      assert t in s.armedAs && u in s.armedAs && s.armedAs[t] == s.armedAs[u];
      assert t == u;
    }
  }

  /** Exactly when a first breach lands, however long ago its row was read: the mapping still
      carries the number it was judged by, in the arming it was measured from. */
  lemma BreachLandsIffTermsStand(budget: Option<real>, steps: seq<Step>, i: Instance, loss: real, now: int)
    requires budget.Some? ==> budget.value > 0.0
    requires var s := Exec(Start(budget), steps, true);
             && Enabled(s, Judge(i, loss, now), true) && s.row.breachedAt.None?
             && PcOf(s, i).row.breachedAt.None? && loss >= PcOf(s, i).row.budget.value
    ensures var s := Exec(Start(budget), steps, true);
            Apply(s, Judge(i, loss, now), true).row.breachedAt.Some? <==>
              s.row.budget == PcOf(s, i).row.budget && s.row.armedAt.Some? && s.arming == PcOf(s, i).arming
  {
    ExecKeeps(Start(budget), steps);
    FirstBreachLands(Exec(Start(budget), steps, true), i, loss, now);
  }

  // ---------------------------------------------------------------------------
  // Marks
  // ---------------------------------------------------------------------------

  /** Only the operator clears or moves a mark: no executor's step does, in any state. */
  lemma CyclesNeverMoveMarks(s: System, step: Step, distinct: bool)
    requires Enabled(s, step, distinct) && !step.Copy?
    ensures var row := Apply(s, step, distinct).row;
            && (s.row.warnedAt.Some? ==> row.warnedAt == s.row.warnedAt)
            && (s.row.breachedAt.Some? ==> row.breachedAt == s.row.breachedAt)
            && row.budget == s.row.budget
            && (s.row.baseline.Some? ==> row.baseline == s.row.baseline && row.armedAt == s.row.armedAt)
  {
  }

  /** Nor does any run of them. */
  lemma {:induction false} MarksStandWithoutCopy(s: System, steps: seq<Step>, distinct: bool)
    requires forall k :: 0 <= k < |steps| ==> !steps[k].Copy?
    ensures var row := Exec(s, steps, distinct).row;
            && (s.row.warnedAt.Some? ==> row.warnedAt == s.row.warnedAt)
            && (s.row.breachedAt.Some? ==> row.breachedAt == s.row.breachedAt)
  {
    if steps != [] {
      MarksStandWithoutCopy(s, steps[..|steps| - 1], distinct);
      var before := Exec(s, steps[..|steps| - 1], distinct);
      if Enabled(before, steps[|steps| - 1], distinct) { CyclesNeverMoveMarks(before, steps[|steps| - 1], distinct); }
    }
  }

  /** Step `k` of the run lands a first breach at this very clock. */
  predicate MarksAt(s: System, steps: seq<Step>, k: nat, distinct: bool, mark: int)
    requires k < |steps|
  {
    LandsFirstBreach(Exec(s, steps[..k], distinct), steps[k], distinct) && steps[k].now == mark
  }

  /** Step `k` of the run is a restatement that clears the marks. */
  predicate ClearsAt(s: System, steps: seq<Step>, k: nat, distinct: bool)
    requires k < |steps|
  {
    var before := Exec(s, steps[..k], distinct);
    Enabled(before, steps[k], distinct) && steps[k].Copy? && Clears(before.row, steps[k].budget)
  }

  /** Step `k` sets the mark and nothing clears it after. */
  predicate MarkStandsFrom(s: System, steps: seq<Step>, k: nat, distinct: bool, mark: int)
    requires k < |steps|
  {
    MarksAt(s, steps, k, distinct, mark) && forall j :: k < j < |steps| ==> !ClearsAt(s, steps, j, distinct)
  }

  predicate MarkReturns(s: System, steps: seq<Step>, distinct: bool, mark: int) {
    exists k :: 0 <= k < |steps| && MarkStandsFrom(s, steps, k, distinct, mark)
  }

  lemma StepMarksIff(s: System, step: Step, distinct: bool, mark: int)
    requires Enabled(s, step, distinct)
    ensures Apply(s, step, distinct).row.breachedAt == Some(mark) <==>
              || (LandsFirstBreach(s, step, distinct) && step.now == mark)
              || (s.row.breachedAt == Some(mark) && !(step.Copy? && Clears(s.row, step.budget)))
  {
  }

  lemma SameInPrefix(s: System, steps: seq<Step>, n: nat, k: nat, distinct: bool, mark: int)
    requires k < n <= |steps|
    ensures MarksAt(s, steps[..n], k, distinct, mark) <==> MarksAt(s, steps, k, distinct, mark)
    ensures ClearsAt(s, steps[..n], k, distinct) <==> ClearsAt(s, steps, k, distinct)
  {
    assert steps[..n][..k] == steps[..k];
  }

  lemma StandsOneMore(s: System, steps: seq<Step>, k: nat, distinct: bool, mark: int)
    requires k < |steps| - 1
    ensures MarkStandsFrom(s, steps, k, distinct, mark) <==>
              && MarkStandsFrom(s, steps[..|steps| - 1], k, distinct, mark)
              && !ClearsAt(s, steps, |steps| - 1, distinct)
  {
    var n := |steps| - 1;
    SameInPrefix(s, steps, n, k, distinct, mark);
    forall j | k < j < n ensures ClearsAt(s, steps[..n], j, distinct) <==> ClearsAt(s, steps, j, distinct) {
      SameInPrefix(s, steps, n, j, distinct, mark);
    }
  }

  lemma MarkReturnsByOneMore(s: System, steps: seq<Step>, distinct: bool, mark: int)
    requires steps != []
    ensures var n := |steps| - 1;
            MarkReturns(s, steps, distinct, mark) <==>
              || MarksAt(s, steps, n, distinct, mark)
              || (MarkReturns(s, steps[..n], distinct, mark) && !ClearsAt(s, steps, n, distinct))
  {
    var n := |steps| - 1;
    forall k | 0 <= k < n
      ensures MarkStandsFrom(s, steps, k, distinct, mark) <==>
                MarkStandsFrom(s, steps[..n], k, distinct, mark) && !ClearsAt(s, steps, n, distinct)
    {
      StandsOneMore(s, steps, k, distinct, mark);
    }
    assert MarkStandsFrom(s, steps, n, distinct, mark) <==> MarksAt(s, steps, n, distinct, mark);
  }

  /** Exactly which runs put a mark on a row that does not carry it: those in which a judgement
      at that clock lands a first breach and no restatement clears it after. */
  lemma {:induction false} MarkReturnsIff(s: System, steps: seq<Step>, distinct: bool, mark: int)
    requires s.row.breachedAt != Some(mark)
    ensures Exec(s, steps, distinct).row.breachedAt == Some(mark) <==> MarkReturns(s, steps, distinct, mark)
  {
    if steps != [] {
      var n := |steps| - 1;
      var before := Exec(s, steps[..n], distinct);
      MarkReturnsIff(s, steps[..n], distinct, mark);
      MarkReturnsByOneMore(s, steps, distinct, mark);
      if Enabled(before, steps[n], distinct) { StepMarksIff(before, steps[n], distinct, mark); }
    }
  }

  /** Whether a cancelled wind-down is finished. Once a /copy has cleared a breach mark, a
      cycle that still believes in it changes the row, by disabling it, if and only if the row
      is enabled and a later judgement bearing the very clock of the cleared mark landed a
      first breach that stands. */
  lemma CancelledWindDownFinishesIff(s: System, restated: Option<real>, more: seq<Step>, i: Instance, distinct: bool)
    requires s.row.breachedAt.Some? && Clears(s.row, restated) && Enabled(s, Copy(restated), distinct)
    requires var t := Exec(Apply(s, Copy(restated), distinct), more, distinct);
             Enabled(t, Disable(i), distinct) && PcOf(t, i).row.breachedAt == s.row.breachedAt
    ensures var cleared := Apply(s, Copy(restated), distinct);
            var t := Exec(cleared, more, distinct);
            var disabled := Apply(t, Disable(i), distinct).row;
            && (disabled != t.row <==> t.row.enabled && MarkReturns(cleared, more, distinct, s.row.breachedAt.value))
            && (disabled != t.row ==> disabled == t.row.(enabled := false))
  {
    MarkReturnsIff(Apply(s, Copy(restated), distinct), more, distinct, s.row.breachedAt.value);
  }

  /** So while no later verdict bears its clock, a cancelled wind-down is never finished,
      whatever happens in between and however the budget breaches again. */
  lemma CancelledWindDownNeverDisables(s: System, restated: Option<real>, more: seq<Step>, i: Instance, distinct: bool)
    requires s.row.breachedAt.Some? && Clears(s.row, restated) && Enabled(s, Copy(restated), distinct)
    requires forall k :: 0 <= k < |more| && more[k].Judge? ==> more[k].now != s.row.breachedAt.value
    requires var t := Exec(Apply(s, Copy(restated), distinct), more, distinct);
             Enabled(t, Disable(i), distinct) && PcOf(t, i).row.breachedAt == s.row.breachedAt
    ensures var t := Exec(Apply(s, Copy(restated), distinct), more, distinct);
            Apply(t, Disable(i), distinct).row == t.row
  {
    CancelledWindDownFinishesIff(s, restated, more, i, distinct);
  }

  // ---------------------------------------------------------------------------
  // Warned before breached
  // ---------------------------------------------------------------------------

  predicate Warned(r: Row) { r.breachedAt.Some? ==> r.warnedAt.Some? }

  /** A first breach lands on a row without a warning, from a read that saw one. */
  predicate Unwarns(s: System, step: Step, distinct: bool) {
    LandsFirstBreach(s, step, distinct) && s.row.warnedAt.None? && PcOf(s, step.i).row.warnedAt.Some?
  }

  /** One step leaves a breached row warned exactly unless it is such a judgement. */
  lemma StepWarnsIffNotUnwarning(s: System, step: Step, distinct: bool)
    requires Warned(s.row) && Enabled(s, step, distinct)
    ensures Warned(Apply(s, step, distinct).row) <==> !Unwarns(s, step, distinct)
  {
  }

  predicate WarnedAt(s: System, steps: seq<Step>, k: nat, distinct: bool)
    requires k <= |steps|
  {
    Warned(Exec(s, steps[..k], distinct).row)
  }

  predicate UnwarnsAt(s: System, steps: seq<Step>, k: nat, distinct: bool)
    requires k < |steps|
  {
    Unwarns(Exec(s, steps[..k], distinct), steps[k], distinct)
  }

  /** Exactly which runs warn before they breach: a breached row is warned at every point of
      a run if and only if no judgement of it lands a first breach on a row that carries no
      warning, from a read that saw one. */
  lemma WarnedThroughoutIffNothingUnwarns(budget: Option<real>, steps: seq<Step>, distinct: bool)
    ensures (forall k :: 0 <= k <= |steps| ==> WarnedAt(Start(budget), steps, k, distinct))
            <==> (forall k :: 0 <= k < |steps| ==> !UnwarnsAt(Start(budget), steps, k, distinct))
  {
    var s := Start(budget);
    if forall k :: 0 <= k <= |steps| ==> WarnedAt(s, steps, k, distinct) {
      forall k | 0 <= k < |steps| ensures !UnwarnsAt(s, steps, k, distinct) {
        assert WarnedAt(s, steps, k, distinct) && WarnedAt(s, steps, k + 1, distinct);
        OneMore(s, steps, k, distinct);
        var before := Exec(s, steps[..k], distinct);
        if Enabled(before, steps[k], distinct) { StepWarnsIffNotUnwarning(before, steps[k], distinct); }
      }
    }
    if forall k :: 0 <= k < |steps| ==> !UnwarnsAt(s, steps, k, distinct) {
      forall k | 0 <= k <= |steps| ensures WarnedAt(s, steps, k, distinct) { WarnedUpTo(s, steps, k, distinct); }
    }
  }

  lemma {:induction false} WarnedUpTo(s: System, steps: seq<Step>, k: nat, distinct: bool)
    requires k <= |steps| && Warned(s.row)
    requires forall j :: 0 <= j < |steps| ==> !UnwarnsAt(s, steps, j, distinct)
    ensures WarnedAt(s, steps, k, distinct)
  {
    if k > 0 {
      WarnedUpTo(s, steps, k - 1, distinct);
      OneMore(s, steps, k - 1, distinct);
      var before := Exec(s, steps[..k - 1], distinct);
      assert !UnwarnsAt(s, steps, k - 1, distinct);
      if Enabled(before, steps[k - 1], distinct) { StepWarnsIffNotUnwarning(before, steps[k - 1], distinct); }
    }
  }

  // ---------------------------------------------------------------------------
  // Runs that show the conditions are needed
  // ---------------------------------------------------------------------------

  lemma Goes(start: System, steps: seq<Step>, reached: System, step: Step, distinct: bool)
    requires Exec(start, steps, distinct) == reached && Enabled(reached, step, distinct)
    ensures Exec(start, steps + [step], distinct) == Apply(reached, step, distinct)
  {
    assert (steps + [step])[..|steps|] == steps;
  }

  /** A cycle about to judge: the budget of 100 armed once at clock 1, the row as it read it,
      and marks cleared so many times since. */
  predicate AboutToJudge(s: System, era: nat, seenWarned: Option<int>) {
    && s.row.enabled && s.row.budget == Some(100.0) && s.row.baseline.Some? && s.row.armedAt == Some(1)
    && s.row.warnedAt.None? && s.row.breachedAt.None? && s.era == era && s.arming == 1
    && PcOf(s, 1).Seen? && PcOf(s, 1).era == 0 && PcOf(s, 1).arming == 1
    && PcOf(s, 1).row.enabled && PcOf(s, 1).row.budget == Some(100.0) && PcOf(s, 1).row.baseline.Some?
    && PcOf(s, 1).row.armedAt == Some(1) && PcOf(s, 1).row.breachedAt.None? && PcOf(s, 1).row.warnedAt == seenWarned
  }

  lemma ArmedOnce(distinct: bool) returns (steps: seq<Step>)
    ensures var s := Exec(Start(Some(100.0)), steps, distinct);
            && s.row == Row(true, Some(100.0), Some(1000.0), Some(1), None, None, None) && s.arming == 1 && s.era == 0
            && PcOf(s, 1).Idle? && s.armedAs == map[1 := 1] && PcOf(s, 2).Idle? && s.verdicts == []
  {
    var start := Start(Some(100.0));
    Goes(start, [], start, Read(1), distinct);
    var read := Apply(start, Read(1), distinct);
    Goes(start, [] + [Read(1)], read, Arm(1, 1000.0, 1), distinct);
    var armed := Apply(read, Arm(1, 1000.0, 1), distinct);
    Goes(start, [] + [Read(1)] + [Arm(1, 1000.0, 1)], armed, Next(1), distinct);
    steps := [] + [Read(1)] + [Arm(1, 1000.0, 1)] + [Next(1)];
  }

  /** The number raised to 200 and put back under a cycle's feet. */
  lemma RaisedAndRestored(steps: seq<Step>, distinct: bool) returns (longer: seq<Step>)
    requires var s := Exec(Start(Some(100.0)), steps, distinct);
             && s.row.enabled && s.row.budget == Some(100.0) && s.row.baseline.Some? && s.row.armedAt == Some(1)
             && s.arming == 1 && s.era == 0 && PcOf(s, 1).Idle? && s.row.breachedAt.None?
    ensures var s, t := Exec(Start(Some(100.0)), steps, distinct), Exec(Start(Some(100.0)), longer, distinct);
            AboutToJudge(t, 2, s.row.warnedAt)
  {
    var start := Start(Some(100.0));
    var s := Exec(start, steps, distinct);
    Goes(start, steps, s, Read(1), distinct);
    var read := Apply(s, Read(1), distinct);
    Goes(start, steps + [Read(1)], read, Copy(Some(200.0)), distinct);
    var raised := Apply(read, Copy(Some(200.0)), distinct);
    Goes(start, steps + [Read(1)] + [Copy(Some(200.0))], raised, Copy(Some(100.0)), distinct);
    longer := steps + [Read(1)] + [Copy(Some(200.0))] + [Copy(Some(100.0))];
  }

  /** The compare-and-set is on terms, not on time. A verdict measured before the operator
      raised the budget and put it back still lands, re-imposes the wind-down, and ends in
      a disable in the same cycle. */
  lemma RestoredNumberLetsAnOldVerdictLand(distinct: bool)
    ensures exists steps ::
        var s := Exec(Start(Some(100.0)), steps, distinct); !s.row.enabled && s.row.breachedAt == Some(2) && s.era == 2
  {
    var start := Start(Some(100.0));
    var armed := ArmedOnce(distinct);
    var steps := RaisedAndRestored(armed, distinct);
    var s := Exec(start, steps, distinct);
    Goes(start, steps, s, Judge(1, 150.0, 2), distinct);
    var judged := Apply(s, Judge(1, 150.0, 2), distinct);
    Goes(start, steps + [Judge(1, 150.0, 2)], judged, Disable(1), distinct);
  }

  /** And it can leave a breached row that was never warned in its era: the cycle had seen
      the mark the operator has since cleared. */
  lemma RestoredNumberBreachesUnwarned(distinct: bool)
    ensures exists steps ::
        var s := Exec(Start(Some(100.0)), steps, distinct); s.row.breachedAt.Some? && s.row.warnedAt.None?
  {
    var start := Start(Some(100.0));
    var armed := ArmedOnce(distinct);
    var s := Exec(start, armed, distinct);
    Goes(start, armed, s, Read(1), distinct);
    var read := Apply(s, Read(1), distinct);
    Goes(start, armed + [Read(1)], read, Judge(1, 85.0, 2), distinct);
    var warned := Apply(read, Judge(1, 85.0, 2), distinct);
    Goes(start, armed + [Read(1)] + [Judge(1, 85.0, 2)], warned, Next(1), distinct);
    var steps := RaisedAndRestored(armed + [Read(1)] + [Judge(1, 85.0, 2)] + [Next(1)], distinct);
    var about := Exec(start, steps, distinct);
    Goes(start, steps, about, Judge(1, 150.0, 3), distinct);
  }

  /** A cycle holding the first arming's row while the mapping is stopped and copied anew. */
  lemma StoppedAndCopiedAnew(distinct: bool) returns (steps: seq<Step>)
    ensures var s := Exec(Start(Some(100.0)), steps, distinct);
            && s.row == Row(true, Some(100.0), None, None, None, None, None) && s.arming == 1 && PcOf(s, 2).Idle?
            && PcOf(s, 1) == Seen(Row(true, Some(100.0), Some(1000.0), Some(1), None, None, None), 1, 0)
            && s.verdicts == []
  {
    var start := Start(Some(100.0));
    var armed := ArmedOnce(distinct);
    var s := Exec(start, armed, distinct);
    Goes(start, armed, s, Read(1), distinct);
    var read := Apply(s, Read(1), distinct);
    Goes(start, armed + [Read(1)], read, Uncopy, distinct);
    Goes(start, armed + [Read(1)] + [Uncopy], Apply(read, Uncopy, distinct), Copy(Some(100.0)), distinct);
    steps := armed + [Read(1)] + [Uncopy] + [Copy(Some(100.0))];
  }

  /** Armings are told apart by their clocks alone: when two share one, a verdict of the
      first lands in the second. */
  lemma SharedClockMixesArmings(distinct: bool)
    requires !distinct
    ensures exists steps :: var s := Exec(Start(Some(100.0)), steps, distinct);
              s.row.breachedAt.Some? && !Backed(s.verdicts, 100.0, s.arming)
  {
    var start := Start(Some(100.0));
    var steps := StoppedAndCopiedAnew(distinct);
    var anew := Exec(start, steps, distinct);
    Goes(start, steps, anew, Read(2), distinct);
    var second := Apply(anew, Read(2), distinct);
    Goes(start, steps + [Read(2)], second, Arm(2, 500.0, 1), distinct);
    var rearmed := Apply(second, Arm(2, 500.0, 1), distinct);
    Goes(start, steps + [Read(2)] + [Arm(2, 500.0, 1)], rearmed, Judge(1, 150.0, 2), distinct);
    assert Apply(rearmed, Judge(1, 150.0, 2), distinct).verdicts == [Verdict(150.0, 100.0, 1)];
  }

  lemma BreachedOnce(distinct: bool) returns (steps: seq<Step>)
    ensures var s := Exec(Start(Some(100.0)), steps, distinct);
            && s.row == Row(true, Some(100.0), Some(1000.0), Some(1), Some(150.0), Some(2), Some(2))
            && PcOf(s, 1) == Judged(s.row) && PcOf(s, 2).Idle?
  {
    var start := Start(Some(100.0));
    var armed := ArmedOnce(distinct);
    var s := Exec(start, armed, distinct);
    Goes(start, armed, s, Read(1), distinct);
    Goes(start, armed + [Read(1)], Apply(s, Read(1), distinct), Judge(1, 150.0, 2), distinct);
    steps := armed + [Read(1)] + [Judge(1, 150.0, 2)];
  }

  /** After `steps` breach the row and the operator raises the number, `more` let the cycle
      that believed in the breach disable it. */
  ghost predicate FinishesCancelled(steps: seq<Step>, more: seq<Step>, distinct: bool) {
    var s := Exec(Start(Some(100.0)), steps, distinct);
    && s.row.breachedAt.Some? && PcOf(s, 1) == Judged(s.row) && Clears(s.row, Some(200.0))
    && var t := Exec(Apply(s, Copy(Some(200.0)), distinct), more, distinct);
       PcOf(t, 1) == PcOf(s, 1) && Enabled(t, Disable(1), distinct) && Apply(t, Disable(1), distinct).row != t.row
  }

  /** A breach mark is told apart by its clock alone: when a later verdict bears the same
      one, a cycle finishes the wind-down it had begun before the operator cancelled it. */
  lemma SharedVerdictClockDisables(distinct: bool)
    ensures exists steps, more :: FinishesCancelled(steps, more, distinct)
  {
    var steps := BreachedOnce(distinct);
    var s := Exec(Start(Some(100.0)), steps, distinct);
    var raised := Apply(s, Copy(Some(200.0)), distinct);
    Goes(raised, [], raised, Read(2), distinct);
    Goes(raised, [] + [Read(2)], Apply(raised, Read(2), distinct), Judge(2, 250.0, 2), distinct);
    assert FinishesCancelled(steps, [] + [Read(2)] + [Judge(2, 250.0, 2)], distinct);
  }

  // ---------------------------------------------------------------------------
  // The row as it is written
  // ---------------------------------------------------------------------------

  /** A mark set at `now` if it is due and not set. */
  function Marked(mark: Option<int>, due: bool, now: int): Option<int> {
    if mark.None? && due then Some(now) else mark
  }

  /** One mapping's row, each method one conditional UPDATE. */
  class CopySubRow {
    var enabled: bool
    var budget: Option<real>
    var baseline: Option<real>
    var armedAt: Option<int>
    var spent: Option<real>
    var warnedAt: Option<int>
    var breachedAt: Option<int>

    function View(): Row reads this { Row(enabled, budget, baseline, armedAt, spent, warnedAt, breachedAt) }

    constructor (loss: Option<real>)
      requires loss.Some? ==> loss.value > 0.0
      ensures View() == Start(loss).row && Schema(View())
    {
      enabled, budget, baseline, armedAt, spent, warnedAt, breachedAt := true, loss, None, None, None, None, None;
    }

    /** /copy on an existing mapping. */
    method Reenable(loss: Option<real>)
      requires Schema(View()) && (loss.Some? ==> loss.value > 0.0)
      modifies this
      ensures View() == Reenabled(old(View()), loss) && Schema(View())
    {
      var keepsLedger := loss.Some? && enabled;
      var keepsMarks := loss == budget && enabled;
      if !keepsLedger { baseline, armedAt, spent := None, None, None; }
      if !keepsMarks { warnedAt, breachedAt := None, None; }
      enabled, budget := true, loss;
    }

    method DisableSub() returns (landed: bool)
      modifies this`enabled
      ensures View() == old(View()).(enabled := false) && landed == old(enabled)
    {
      landed := enabled;
      if enabled { enabled := false; }
    }

    method ArmBudget(equity: real, now: int) returns (landed: bool)
      requires Schema(View())
      modifies this`baseline, this`armedAt
      ensures View() == Armed(old(View()), equity, now) && landed == Arms(old(View())) && Schema(View())
    {
      landed := budget.Some? && baseline.None?;
      if landed { baseline, armedAt := Some(equity), Some(now); }
    }

    method RecordBudgetSpend(loss: real, warned: Option<int>, breached: Option<int>, judgedBudget: real,
          judgedArmedAt: int)
      returns (landed: bool)
      requires Schema(View())
      modifies this`spent, this`warnedAt, this`breachedAt
      ensures View() == Spent(old(View()), loss, warned, breached, judgedBudget, judgedArmedAt) && Schema(View())
      ensures landed == TermsStand(old(View()), judgedBudget, judgedArmedAt)
    {
      landed := budget == Some(judgedBudget) && armedAt == Some(judgedArmedAt);
      if landed {
        spent := Some(loss);
        if warnedAt.None? { warnedAt := warned; }
        if breachedAt.None? { breachedAt := breached; }
      }
    }

    method DisableForSpentBudget(breach: int) returns (landed: bool)
      modifies this`enabled
      ensures View() == DisabledForSpent(old(View()), breach) && landed == (old(enabled) && breachedAt == Some(breach))
    {
      landed := enabled && breachedAt == Some(breach);
      if landed { enabled := false; }
    }

    /** One cycle's judgement of a governed, armed row it has just read: measure, judge and
        write back. What comes back is the row as the rest of the cycle believes it. */
    method JudgeLossBudget(seen: Row, deposits: real, equity: real, now: int) returns (believed: Row)
      requires Schema(View()) && Schema(seen) && Governed(seen) && seen.baseline.Some?
      modifies this`spent, this`warnedAt, this`breachedAt
      ensures var loss := BudgetLoss(seen.baseline.value, deposits, equity);
              View() == Spent(old(View()), loss, WarnedBy(seen, loss, now), BreachedBy(seen, loss, now),
                  seen.budget.value, seen.armedAt.value)
      ensures var loss := BudgetLoss(seen.baseline.value, deposits, equity);
              seen == old(View()) ==>
                && believed == View()
                && believed.spent == Some(seen.baseline.value + deposits - equity)
                && believed.breachedAt == Marked(seen.breachedAt, loss >= seen.budget.value, now)
                && believed.warnedAt == Marked(seen.warnedAt, 5.0 * loss >= 4.0 * seen.budget.value, now)
      ensures !TermsStand(old(View()), seen.budget.value, seen.armedAt.value) ==>
          believed == seen && View() == old(View())
    {
      var loss := BudgetLoss(seen.baseline.value, deposits, equity);
      StagesAreExact(loss, seen.budget.value);
      var stage := BudgetStage(loss, seen.budget.value);
      var warned := if stage != Within && seen.warnedAt.None? then Some(now) else None;
      var breached := if stage == Breached && seen.breachedAt.None? then Some(now) else None;
      var landed := RecordBudgetSpend(loss, warned, breached, seen.budget.value, seen.armedAt.value);
      if !landed { return seen; }
      believed := seen.(spent := Some(loss), warnedAt := Coalesce(seen.warnedAt, warned),
                        breachedAt := Coalesce(seen.breachedAt, breached));
    }
  }
}
