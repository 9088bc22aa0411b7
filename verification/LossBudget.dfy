// The Loss Budget (src/epigone/execute/subs.py, src/epigone/execute/policy.py,
// src/epigone/execute/executor.py): a persisted armed, warned, breached, disabled machine
// that executors drive by measure-then-write while the operator restates its terms.
module LossBudget {
  import opened Wrappers

  // ---------------------------------------------------------------------------
  // The row
  // ---------------------------------------------------------------------------

  /** The mapping's budget columns. */
  datatype Row = Row(enabled: bool, budget: Option<real>, baseline: Option<real>, armedAt: Option<int>,
                     spent: Option<real>, warnedAt: Option<int>, breachedAt: Option<int>)

  /** The schema's checks: a positive budget; baseline and its clock one fact; no budget, no
      ledger; no mark without a baseline. */
  predicate Schema(r: Row) {
    && (r.budget.Some? ==> r.budget.value > 0.0)
    && (r.baseline.None? <==> r.armedAt.None?)
    && (r.budget.None? ==> r.baseline.None? && r.spent.None? && r.warnedAt.None? && r.breachedAt.None?)
    && (r.armedAt.None? ==> r.warnedAt.None? && r.breachedAt.None?)
  }

  /** The operator restates the mapping's terms. The SET expressions read the old row. */
  function Reenabled(r: Row, budget: Option<real>): Row {
    var startsOver := budget.None? || !r.enabled;
    var moved := budget != r.budget || !r.enabled;
    Row(true, budget,
        if startsOver then None else r.baseline,
        if startsOver then None else r.armedAt,
        if startsOver then None else r.spent,
        if moved then None else r.warnedAt,
        if moved then None else r.breachedAt)
  }

  /** The once: only a budget without a baseline takes one. */
  predicate Arms(r: Row) { r.budget.Some? && r.baseline.None? }

  function Armed(r: Row, baseline: real, now: int): Row {
    if Arms(r) then r.(baseline := Some(baseline), armedAt := Some(now)) else r
  }

  /** The verdict's terms are still the row's. */
  predicate TermsStand(r: Row, judgedBudget: real, judgedArmedAt: int) {
    r.budget == Some(judgedBudget) && r.armedAt == Some(judgedArmedAt)
  }

  function Coalesce(mark: Option<int>, next: Option<int>): Option<int> { if mark.Some? then mark else next }

  function Spent(r: Row, spent: real, warned: Option<int>, breached: Option<int>, judgedBudget: real,
      judgedArmedAt: int): Row {
    if !TermsStand(r, judgedBudget, judgedArmedAt) then r
    else r.(spent := Some(spent), warnedAt := Coalesce(r.warnedAt, warned),
            breachedAt := Coalesce(r.breachedAt, breached))
  }

  function DisabledForSpent(r: Row, breachedAt: int): Row {
    if r.enabled && r.breachedAt == Some(breachedAt) then r.(enabled := false) else r
  }

  /** The re-arm rules, exactly: no budget clears the ledger; a number restated on an
      enabled sub keeps everything; a new number on an enabled sub keeps the ledger and
      clears both marks; a disabled sub starts over. */
  lemma ReenableRules(r: Row, budget: Option<real>)
    requires Schema(r) && (budget.Some? ==> budget.value > 0.0)
    ensures var after := Reenabled(r, budget);
            && Schema(after) && after.enabled && after.budget == budget
            && (after.baseline == r.baseline && after.armedAt == r.armedAt && after.spent == r.spent
                <==> (r.enabled && budget.Some?) || (r.baseline.None? && r.spent.None?))
            && (after.warnedAt == r.warnedAt && after.breachedAt == r.breachedAt
                <==> (r.enabled && budget == r.budget) || (r.warnedAt.None? && r.breachedAt.None?))
            && (after.warnedAt != r.warnedAt ==> after.warnedAt.None?)
            && (after.breachedAt != r.breachedAt ==> after.breachedAt.None?)
            && (!r.enabled ==> after == Row(true, budget, None, None, None, None, None))
  {
  }

  // ---------------------------------------------------------------------------
  // The measurement
  // ---------------------------------------------------------------------------

  datatype Stage = Within | Warning | Breached

  function WarningLevel(budget: real): real { budget * 0.8 }

  function BudgetStage(loss: real, budget: real): Stage {
    if loss >= budget then Breached else if loss >= WarningLevel(budget) then Warning else Within
  }

  /** Spent at the number, warned of from four fifths of it. */
  lemma StagesAreExact(loss: real, budget: real)
    requires budget > 0.0
    ensures BudgetStage(loss, budget) == Breached <==> loss >= budget
    ensures BudgetStage(loss, budget) != Within <==> 5.0 * loss >= 4.0 * budget
  {
  }

  function BudgetLoss(baseline: real, deposits: real, equity: real): real { baseline + deposits - equity }

  /** What befalls a sub's money: trading results, Epigone's own top-ups (with the clock of
      their audited attempt, whether its outcome was recorded ok, and whether the transfer
      truly landed), and transfers Epigone has no record of. */
  datatype Money =
    | Traded(result: real)
    | ToppedUp(amount: real, recordedAt: int, ok: bool, landed: bool)
    | MovedOutside(amount: real)

  function Effect(m: Money): real {
    match m
    case Traded(result) => result
    case ToppedUp(amount, _, _, landed) => if landed then amount else 0.0
    case MovedOutside(amount) => amount
  }

  function SumOf(history: seq<Money>, f: Money -> real): real {
    if history == [] then 0.0 else SumOf(history[..|history| - 1], f) + f(history[|history| - 1])
  }

  function EffectOf(): Money -> real { (m: Money) => Effect(m) }

  /** The deposits the audit trail shows as successful and strictly after arming. */
  function CountedAfter(armedAt: int): Money -> real {
    (m: Money) => if m.ToppedUp? && m.ok && m.recordedAt > armedAt then m.amount else 0.0
  }

  function ResultOf(): Money -> real { (m: Money) => if m.Traded? then m.result else 0.0 }

  /** The loss measured after `later`, of a budget armed at a clock when the sub was worth
      what `start` and `earlier` had made it. */
  function MeasuredLoss(start: real, earlier: seq<Money>, later: seq<Money>, armedAt: int): real {
    BudgetLoss(start + SumOf(earlier, EffectOf()), SumOf(earlier + later, CountedAfter(armedAt)),
               start + SumOf(earlier + later, EffectOf()))
  }

  /** What of the money before arming is wrongly added back, and after it wrongly not. */
  function MisreadBefore(armedAt: int): Money -> real { CountedAfter(armedAt) }

  function MisreadAfter(armedAt: int): Money -> real {
    (m: Money) => CountedAfter(armedAt)(m) + (if m.Traded? then m.result else 0.0) - Effect(m)
  }

  lemma {:induction false} SumSplits(a: seq<Money>, b: seq<Money>, f: Money -> real)
    ensures SumOf(a + b, f) == SumOf(a, f) + SumOf(b, f)
  {
    if b == [] {
      assert a + b == a;
    } else {
      assert (a + b)[..|a + b| - 1] == a + b[..|b| - 1];
      SumSplits(a, b[..|b| - 1], f);
    }
  }

  lemma {:induction false} MisreadSums(later: seq<Money>, armedAt: int)
    ensures SumOf(later, MisreadAfter(armedAt)) ==
            SumOf(later, CountedAfter(armedAt)) + SumOf(later, ResultOf()) - SumOf(later, EffectOf())
  {
    if later != [] { MisreadSums(later[..|later| - 1], armedAt); }
  }

  /** The ledger identity, for any history: the measured loss is minus the trading result
      since arming, plus exactly what the trail misreads. */
  lemma LossIdentity(start: real, earlier: seq<Money>, later: seq<Money>, armedAt: int)
    ensures MeasuredLoss(start, earlier, later, armedAt) ==
            -SumOf(later, ResultOf()) + SumOf(earlier, MisreadBefore(armedAt)) + SumOf(later, MisreadAfter(armedAt))
  {
    SumSplits(earlier, later, EffectOf());
    SumSplits(earlier, later, CountedAfter(armedAt));
    MisreadSums(later, armedAt);
  }

  /** Recorded as the design has it: no money from outside, every top-up's outcome true, and
      stamped on its own side of the arming. */
  predicate Recorded(m: Money, armedAt: int, after: bool) {
    match m
    case Traded(_) => true
    case ToppedUp(_, at, ok, landed) => ok == landed && (landed ==> (at > armedAt) == after)
    case MovedOutside(_) => !after
  }

  lemma {:induction false} NothingSums(history: seq<Money>, f: Money -> real)
    requires forall i :: 0 <= i < |history| ==> f(history[i]) == 0.0
    ensures SumOf(history, f) == 0.0
  {
    if history != [] { NothingSums(history[..|history| - 1], f); }
  }

  /** Funding is never profit and never loss: with every top-up so recorded the loss is
      exactly minus the trading result, whatever was funded, before or since. */
  lemma LossIsMinusTheResult(start: real, earlier: seq<Money>, later: seq<Money>, armedAt: int)
    requires forall i :: 0 <= i < |earlier| ==> Recorded(earlier[i], armedAt, false)
    requires forall i :: 0 <= i < |later| ==> Recorded(later[i], armedAt, true)
    ensures MeasuredLoss(start, earlier, later, armedAt) == -SumOf(later, ResultOf())
  {
    LossIdentity(start, earlier, later, armedAt);
    NothingSums(earlier, MisreadBefore(armedAt));
    NothingSums(later, MisreadAfter(armedAt));
  }

  /** Misread by one top-up, and by how much: stamped at or before the arming but landed
      after it reads as profit; stamped after it but already inside the baseline, as it can
      be since the arming's clock is the cycle's start and its equity is read later, reads
      as a loss nobody made. */
  lemma MisstampedTopUp(start: real, earlier: seq<Money>, later: seq<Money>, armedAt: int, amount: real, at: int,
      after: bool)
    requires forall i :: 0 <= i < |earlier| ==> Recorded(earlier[i], armedAt, false)
    requires forall i :: 0 <= i < |later| ==> Recorded(later[i], armedAt, true)
    requires (at > armedAt) != after
    ensures var top := ToppedUp(amount, at, true, true);
            (if after then MeasuredLoss(start, earlier, later + [top], armedAt)
             else MeasuredLoss(start, earlier + [top], later, armedAt))
            == -SumOf(later, ResultOf()) + (if after then -amount else amount)
  {
    var top := ToppedUp(amount, at, true, true);
    var before, since := if after then earlier else earlier + [top], if after then later + [top] else later;
    LossIdentity(start, before, since, armedAt);
    NothingSums(earlier, MisreadBefore(armedAt));
    NothingSums(later, MisreadAfter(armedAt));
    SumSplits(earlier, [top], MisreadBefore(armedAt));
    SumSplits(later, [top], MisreadAfter(armedAt));
    SumSplits(later, [top], ResultOf());
    OneSums(top, MisreadBefore(armedAt));
    OneSums(top, MisreadAfter(armedAt));
    OneSums(top, ResultOf());
  }

  lemma OneSums(m: Money, f: Money -> real)
    ensures SumOf([m], f) == f(m)
  {
    assert SumOf([m][..0], f) == 0.0;
  }
}
