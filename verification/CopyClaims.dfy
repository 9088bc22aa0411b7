// The write-ahead claim (src/epigone/execute/executor.py, src/epigone/position_events.py):
// any number of executor instances, events recorded and pruned under them, and a crash
// possible between any two steps. A crash may miss a copy; nothing doubles one.
module CopyClaims {
  import opened Wrappers
  import opened PositionDiff

  type EventId = nat
  type Instance = nat

  /** The orders a position event can cause. A flip is one event with two legs. */
  datatype Leg = OpenLeg | ScaleInLeg | ScaleOutLeg | CloseLeg | FlipClose | FlipOpen

  predicate Opening(leg: Leg) { leg == OpenLeg || leg == ScaleInLeg || leg == FlipOpen }

  /** Every leg claims its event but a flip's open leg, whose close leg already has. */
  predicate Claims(leg: Leg) { leg != FlipOpen }

  function FirstLeg(kind: Kind): Leg {
    match kind
    case Open => OpenLeg
    case ScaleIn => ScaleInLeg
    case ScaleOut => ScaleOutLeg
    case Close => CloseLeg
    case Flip => FlipClose
  }

  const EXIT_RETRY_ATTEMPTS := 3

  /** An entry is one shot; an exit is retried. */
  function MaxOrders(leg: Leg): nat { if Opening(leg) then 1 else EXIT_RETRY_ATTEMPTS }

  datatype Item = Item(id: EventId, kind: Kind)

  /** Where one instance stands. `Deciding` is before a leg's own transaction; `Attempted` is
      after it, with `sent` orders on the wire. */
  datatype Pc =
    | Idle
    | Draining(backlog: seq<Item>)
    | Deciding(id: EventId, leg: Leg, rest: seq<Item>)
    | Attempted(id: EventId, leg: Leg, sent: nat, rest: seq<Item>)

  /** What is durable or on the wire, in order. */
  datatype Entry =
    | Claim(owner: Instance, id: EventId)
    | Attempt(owner: Instance, id: EventId, leg: Leg)
    | Order(owner: Instance, id: EventId, leg: Leg)

  /** The event table with its next identity, the claims table, the instances, and the log. */
  datatype System = System(events: map<EventId, Kind>, next: EventId, claims: set<EventId>,
                           pcs: map<Instance, Pc>, log: seq<Entry>)

  const EMPTY := System(map[], 0, {}, map[], [])

  function PcOf(s: System, i: Instance): Pc { if i in s.pcs then s.pcs[i] else Idle }

  datatype Step =
    | Record(kind: Kind)                             // a producer's insert
    | Prune(gone: set<EventId>)                      // retention, cascading to claims
    | Read(i: Instance, backlog: seq<Item>)          // the outstanding events, filtered
    | Take(i: Instance)
    | PassOver(i: Instance)                          // this sub was unreadable
    | Defer(i: Instance)                             // a transient skip of a claiming leg
    | Decline(i: Instance)                           // claim and skip
    | ClaimAndAttempt(i: Instance)
    | PlaceOrder(i: Instance)
    | Finish(i: Instance, halted: bool)
    | WireFailed(i: Instance)
    | Crash(i: Instance)                             // or any other exception: the cycle dies

  predicate Outstanding(s: System, backlog: seq<Item>) {
    && (forall k :: 0 <= k < |backlog| ==>
          backlog[k].id in s.events && s.events[backlog[k].id] == backlog[k].kind && backlog[k].id !in s.claims)
    && (forall j, k :: 0 <= j < k < |backlog| ==> backlog[j].id < backlog[k].id)
  }

  predicate Enabled(s: System, step: Step) {
    match step
    case Record(_) => true
    case Prune(_) => true
    case Read(i, backlog) => PcOf(s, i).Idle? && Outstanding(s, backlog)
    case Take(i) => PcOf(s, i).Draining? && PcOf(s, i).backlog != []
    case PassOver(i) => PcOf(s, i).Draining? && PcOf(s, i).backlog != []
    case Defer(i) => PcOf(s, i).Deciding? && Claims(PcOf(s, i).leg)
    case Decline(i) => PcOf(s, i).Deciding?
    case ClaimAndAttempt(i) => PcOf(s, i).Deciding?
    case PlaceOrder(i) => PcOf(s, i).Attempted? && PcOf(s, i).sent < MaxOrders(PcOf(s, i).leg)
    case Finish(i, halted) => PcOf(s, i).Attempted? && (halted ==> PcOf(s, i).sent == 0)
    case WireFailed(i) => PcOf(s, i).Attempted?
    case Crash(_) => true
  }

  function Goes(s: System, i: Instance, pc: Pc): System { s.(pcs := s.pcs[i := pc]) }

  /** What follows a leg that reports its event is this instance's own. */
  function NextLeg(id: EventId, leg: Leg, rest: seq<Item>): Pc {
    if leg == FlipClose then Deciding(id, FlipOpen, rest) else Draining(rest)
  }

  /** A claim refused by the foreign key raises, one refused by the primary key was lost. */
  function Refused(s: System, i: Instance, pc: Pc): System
    requires pc.Deciding?
  {
    Goes(s, i, if pc.id !in s.events then Idle else Draining(pc.rest))
  }

  predicate CanClaim(s: System, id: EventId) { id in s.events && id !in s.claims }

  function Claimed(s: System, i: Instance, id: EventId): System {
    s.(claims := s.claims + {id}, log := s.log + [Claim(i, id)])
  }

  function Apply(s: System, step: Step): System
    requires Enabled(s, step)
  {
    match step
    case Record(kind) => s.(events := s.events[s.next := kind], next := s.next + 1)
    case Prune(gone) => s.(events := s.events - gone, claims := s.claims - gone)
    case Read(i, backlog) => Goes(s, i, Draining(backlog))
    case Take(i) =>
      var todo := PcOf(s, i).backlog;
      Goes(s, i, Deciding(todo[0].id, FirstLeg(todo[0].kind), todo[1..]))
    case PassOver(i) => Goes(s, i, Draining(PcOf(s, i).backlog[1..]))
    case Defer(i) => Goes(s, i, Draining(PcOf(s, i).rest))
    case Decline(i) =>
      var pc := PcOf(s, i);
      if !Claims(pc.leg) then Goes(s, i, Draining(pc.rest))
      else if !CanClaim(s, pc.id) then Refused(s, i, pc)
      else Goes(Claimed(s, i, pc.id), i, NextLeg(pc.id, pc.leg, pc.rest))
    case ClaimAndAttempt(i) =>
      var pc := PcOf(s, i);
      if Claims(pc.leg) && !CanClaim(s, pc.id) then Refused(s, i, pc)
      else
        var claimed := if Claims(pc.leg) then Claimed(s, i, pc.id) else s;
        Goes(claimed.(log := claimed.log + [Attempt(i, pc.id, pc.leg)]), i, Attempted(pc.id, pc.leg, 0, pc.rest))
    case PlaceOrder(i) =>
      var pc := PcOf(s, i);
      Goes(s.(log := s.log + [Order(i, pc.id, pc.leg)]), i, pc.(sent := pc.sent + 1))
    case Finish(i, halted) =>
      var pc := PcOf(s, i);
      Goes(s, i, if halted then Draining(pc.rest) else NextLeg(pc.id, pc.leg, pc.rest))
    case WireFailed(i) => Goes(s, i, Draining(PcOf(s, i).rest))
    case Crash(i) => Goes(s, i, Idle)
  }

  function Exec(s: System, steps: seq<Step>): System {
    if steps == [] then s
    else
      var before, last := Exec(s, steps[..|steps| - 1]), steps[|steps| - 1];
      if Enabled(before, last) then Apply(before, last) else before
  }

  // ---------------------------------------------------------------------------
  // What the log says of one event
  // ---------------------------------------------------------------------------

  function ClaimsOf(log: seq<Entry>, id: EventId): nat {
    if log == [] then 0
    else
      var last := log[|log| - 1];
      ClaimsOf(log[..|log| - 1], id) + if last.Claim? && last.id == id then 1 else 0
  }

  /** The orders of one event's opening legs, or of its closing ones. */
  function OrdersOf(log: seq<Entry>, id: EventId, opening: bool): nat {
    if log == [] then 0
    else
      var last := log[|log| - 1];
      var sends := last.Order? && last.id == id && Opening(last.leg) == opening;
      OrdersOf(log[..|log| - 1], id, opening) + if sends then 1 else 0
  }

  /** The instance holds the event: it may yet order on its behalf. */
  predicate Holds(pc: Pc, id: EventId) {
    (pc.Attempted? && pc.id == id) || (pc.Deciding? && pc.id == id && pc.leg == FlipOpen)
  }

  /** What a holder has already sent of its event. */
  predicate Tallies(pc: Pc, log: seq<Entry>, i: Instance) {
    && (pc.Deciding? && pc.leg == FlipOpen ==> Claim(i, pc.id) in log && OrdersOf(log, pc.id, true) == 0)
    && (pc.Attempted? ==>
          && Claim(i, pc.id) in log && Attempt(i, pc.id, pc.leg) in log
          && pc.sent <= MaxOrders(pc.leg)
          && OrdersOf(log, pc.id, Opening(pc.leg)) == pc.sent
          && (pc.leg == FlipClose ==> OrdersOf(log, pc.id, true) == 0))
  }

  /** An order's place is earned: its own instance's claim and attempt come before it. */
  predicate WriteAhead(log: seq<Entry>, k: nat)
    requires k < |log|
  {
    log[k].Order? ==>
      && Claim(log[k].owner, log[k].id) in log[..k]
      && Attempt(log[k].owner, log[k].id, log[k].leg) in log[..k]
  }

  /** One event's standing: claimed at most once, never orderable again once claimed and
      forgotten, at most one opening order and three closing ones, none before a claim. */
  predicate EventOk(s: System, id: EventId) {
    && ClaimsOf(s.log, id) <= 1
    && (ClaimsOf(s.log, id) == 1 ==> !CanClaim(s, id) && id < s.next)
    && OrdersOf(s.log, id, true) <= ClaimsOf(s.log, id)
    && OrdersOf(s.log, id, false) <= 3 * ClaimsOf(s.log, id)
  }

  ghost predicate Invariant(s: System) {
    && (forall id :: id in s.events ==> id < s.next)
    && (forall id :: EventOk(s, id))
    && (forall i :: Tallies(PcOf(s, i), s.log, i))
    && (forall k :: 0 <= k < |s.log| ==> WriteAhead(s.log, k))
  }

  lemma Appended(log: seq<Entry>, e: Entry, id: EventId)
    ensures ClaimsOf(log + [e], id) == ClaimsOf(log, id) + if e.Claim? && e.id == id then 1 else 0
    ensures forall opening :: OrdersOf(log + [e], id, opening) ==
              OrdersOf(log, id, opening) + if e.Order? && e.id == id && Opening(e.leg) == opening then 1 else 0
  {
    assert (log + [e])[..|log|] == log;
  }

  lemma {:induction false} ClaimedIsCounted(log: seq<Entry>, i: Instance, id: EventId)
    requires Claim(i, id) in log
    ensures ClaimsOf(log, id) >= 1
  {
    if log[|log| - 1] != Claim(i, id) { ClaimedIsCounted(log[..|log| - 1], i, id); }
  }

  lemma {:induction false} OnlyOneOwner(log: seq<Entry>, i: Instance, j: Instance, id: EventId)
    requires Claim(i, id) in log && Claim(j, id) in log && ClaimsOf(log, id) <= 1
    ensures i == j
  {
    var last := log[|log| - 1];
    if i != j {
      if last == Claim(i, id) {
        ClaimedIsCounted(log[..|log| - 1], j, id);
      } else if last == Claim(j, id) {
        ClaimedIsCounted(log[..|log| - 1], i, id);
      } else {
        OnlyOneOwner(log[..|log| - 1], i, j, id);
      }
    }
  }

  lemma WriteAheadGrows(log: seq<Entry>, e: Entry)
    requires forall k :: 0 <= k < |log| ==> WriteAhead(log, k)
    requires e.Order? ==> Claim(e.owner, e.id) in log && Attempt(e.owner, e.id, e.leg) in log
    ensures forall k :: 0 <= k < |log + [e]| ==> WriteAhead(log + [e], k)
  {
    forall k | 0 <= k < |log + [e]| ensures WriteAhead(log + [e], k) {
      if k < |log| {
        assert WriteAhead(log, k);
        assert (log + [e])[..k] == log[..k];
      } else {
        assert (log + [e])[..k] == log;
      }
    }
  }

  /** An instance may move wherever its own tallies still hold. */
  lemma MoveKeeps(s: System, i: Instance, pc: Pc)
    requires Invariant(s) && Tallies(pc, s.log, i)
    ensures Invariant(Goes(s, i, pc))
  {
    var s' := Goes(s, i, pc);
    forall id ensures EventOk(s', id) { assert EventOk(s, id); }
    forall j ensures Tallies(PcOf(s', j), s'.log, j) { assert Tallies(PcOf(s, j), s.log, j); }
  }

  lemma TableKeeps(s: System, s': System)
    requires Invariant(s) && s'.log == s.log && s'.pcs == s.pcs && s.next <= s'.next
    requires forall id :: id in s'.events ==> id < s'.next
    requires forall id: EventId :: CanClaim(s', id) ==> CanClaim(s, id) || id >= s.next
    ensures Invariant(s')
  {
    forall id ensures EventOk(s', id) { assert EventOk(s, id); }
    forall j ensures Tallies(PcOf(s', j), s'.log, j) { assert Tallies(PcOf(s, j), s.log, j); }
  }

  /** A claim that lands is the event's first. */
  lemma ClaimKeeps(s: System, i: Instance, id: EventId)
    requires Invariant(s) && CanClaim(s, id)
    ensures var s' := Claimed(s, i, id);
            Invariant(s') && Claim(i, id) in s'.log && OrdersOf(s'.log, id, true) == 0 == OrdersOf(s'.log, id, false)
  {
    var s', e := Claimed(s, i, id), Claim(i, id);
    assert EventOk(s, id);
    WriteAheadGrows(s.log, e);
    forall other ensures EventOk(s', other) {
      assert EventOk(s, other);
      Appended(s.log, e, other);
    }
    forall j ensures Tallies(PcOf(s', j), s'.log, j) {
      assert Tallies(PcOf(s, j), s.log, j);
      var pc := PcOf(s, j);
      if !pc.Idle? && !pc.Draining? { Appended(s.log, e, pc.id); }
    }
    Appended(s.log, e, id);
  }

  lemma AttemptKeeps(s: System, i: Instance, id: EventId, leg: Leg)
    requires Invariant(s)
    ensures var s' := s.(log := s.log + [Attempt(i, id, leg)]);
            && Invariant(s') && Attempt(i, id, leg) in s'.log && (Claim(i, id) in s.log ==> Claim(i, id) in s'.log)
            && forall opening :: OrdersOf(s'.log, id, opening) == OrdersOf(s.log, id, opening)
  {
    var e := Attempt(i, id, leg);
    var s' := s.(log := s.log + [e]);
    WriteAheadGrows(s.log, e);
    forall other ensures EventOk(s', other) {
      assert EventOk(s, other);
      Appended(s.log, e, other);
    }
    forall j ensures Tallies(PcOf(s', j), s'.log, j) {
      assert Tallies(PcOf(s, j), s.log, j);
      var pc := PcOf(s, j);
      if !pc.Idle? && !pc.Draining? { Appended(s.log, e, pc.id); }
    }
    Appended(s.log, e, id);
  }

  /** An order on the wire is its own event's only holder's. */
  lemma OrderKeeps(s: System, i: Instance)
    requires Invariant(s) && Enabled(s, PlaceOrder(i))
    ensures Invariant(Apply(s, PlaceOrder(i)))
  {
    var pc, s' := PcOf(s, i), Apply(s, PlaceOrder(i));
    var e := Order(i, pc.id, pc.leg);
    assert Tallies(pc, s.log, i);
    WriteAheadGrows(s.log, e);
    forall other ensures EventOk(s', other) {
      assert EventOk(s, other);
      Appended(s.log, e, other);
      ClaimedIsCounted(s.log, i, pc.id);
    }
    forall j ensures Tallies(PcOf(s', j), s'.log, j) {
      assert Tallies(PcOf(s, j), s.log, j);
      var other := PcOf(s, j);
      if !other.Idle? && !other.Draining? {
        Appended(s.log, e, other.id);
        if j != i && Holds(other, pc.id) {
          assert EventOk(s, pc.id);
          OnlyOneOwner(s.log, i, j, pc.id);
        }
      }
    }
  }

  lemma DeclineKeeps(s: System, i: Instance)
    requires Invariant(s) && Enabled(s, Decline(i))
    ensures Invariant(Apply(s, Decline(i)))
  {
    var pc := PcOf(s, i);
    if !Claims(pc.leg) || !CanClaim(s, pc.id) {
      MoveKeeps(s, i, if Claims(pc.leg) && pc.id !in s.events then Idle else Draining(pc.rest));
    } else {
      ClaimKeeps(s, i, pc.id);
      MoveKeeps(Claimed(s, i, pc.id), i, NextLeg(pc.id, pc.leg, pc.rest));
    }
  }

  lemma ClaimAndAttemptKeeps(s: System, i: Instance)
    requires Invariant(s) && Enabled(s, ClaimAndAttempt(i))
    ensures Invariant(Apply(s, ClaimAndAttempt(i)))
  {
    var pc := PcOf(s, i);
    assert Tallies(pc, s.log, i);
    if Claims(pc.leg) && !CanClaim(s, pc.id) {
      MoveKeeps(s, i, if pc.id !in s.events then Idle else Draining(pc.rest));
    } else {
      if Claims(pc.leg) { ClaimKeeps(s, i, pc.id); }
      var claimed := if Claims(pc.leg) then Claimed(s, i, pc.id) else s;
      AttemptKeeps(claimed, i, pc.id, pc.leg);
      MoveKeeps(claimed.(log := claimed.log + [Attempt(i, pc.id, pc.leg)]), i, Attempted(pc.id, pc.leg, 0, pc.rest));
    }
  }

  lemma StepKeeps(s: System, step: Step)
    requires Invariant(s) && Enabled(s, step)
    ensures Invariant(Apply(s, step))
  {
    match step {
      case Record(_) => TableKeeps(s, Apply(s, step));
      case Prune(_) => TableKeeps(s, Apply(s, step));
      case Read(i, backlog) => MoveKeeps(s, i, Draining(backlog));
      case Take(i) => MoveKeeps(s, i, PcOf(Apply(s, step), i));
      case PassOver(i) => MoveKeeps(s, i, PcOf(Apply(s, step), i));
      case Defer(i) => MoveKeeps(s, i, PcOf(Apply(s, step), i));
      case Decline(i) => DeclineKeeps(s, i);
      case ClaimAndAttempt(i) => ClaimAndAttemptKeeps(s, i);
      case PlaceOrder(i) => OrderKeeps(s, i);
      case Finish(i, _) =>
        assert Tallies(PcOf(s, i), s.log, i);
        MoveKeeps(s, i, PcOf(Apply(s, step), i));
      case WireFailed(i) => MoveKeeps(s, i, PcOf(Apply(s, step), i));
      case Crash(i) => MoveKeeps(s, i, Idle);
    }
  }

  lemma {:induction false} ExecKeeps(steps: seq<Step>)
    ensures Invariant(Exec(EMPTY, steps))
  {
    if steps == [] {
      forall id ensures EventOk(EMPTY, id) { }
    } else {
      ExecKeeps(steps[..|steps| - 1]);
      var before := Exec(EMPTY, steps[..|steps| - 1]);
      if Enabled(before, steps[|steps| - 1]) { StepKeeps(before, steps[|steps| - 1]); }
    }
  }

  // ---------------------------------------------------------------------------
  // The promises
  // ---------------------------------------------------------------------------

  /** Never doubled. In every interleaving of instances, producers, retention and crashes,
      an event is claimed at most once, and causes at most one opening order and three
      closing ones, over all instances and all time. */
  lemma NeverDoubled(steps: seq<Step>, id: EventId)
    ensures var log := Exec(EMPTY, steps).log;
            && ClaimsOf(log, id) <= 1
            && OrdersOf(log, id, true) <= ClaimsOf(log, id)
            && OrdersOf(log, id, false) <= 3 * ClaimsOf(log, id)
  {
    ExecKeeps(steps);
    assert EventOk(Exec(EMPTY, steps), id);
  }

  /** Write-ahead. Every order comes after a claim of its event and an attempt at its leg,
      both committed by the very instance that sends it: a flip's unclaimed open leg is only
      ever sent by the instance whose close leg won the claim. */
  lemma OrdersFollowTheirClaim(steps: seq<Step>, k: nat)
    requires k < |Exec(EMPTY, steps).log| && Exec(EMPTY, steps).log[k].Order?
    ensures var log := Exec(EMPTY, steps).log;
            && Claim(log[k].owner, log[k].id) in log[..k]
            && Attempt(log[k].owner, log[k].id, log[k].leg) in log[..k]
  {
    ExecKeeps(steps);
    assert WriteAhead(Exec(EMPTY, steps).log, k);
  }

  /** Nobody will order on the event's behalf, and nobody can come to. */
  ghost predicate Settled(s: System, id: EventId) {
    id < s.next && !CanClaim(s, id) && forall i :: !Holds(PcOf(s, i), id)
  }

  lemma SettledStep(s: System, step: Step, id: EventId)
    requires Settled(s, id) && Enabled(s, step)
    ensures Settled(Apply(s, step), id)
    ensures forall opening :: OrdersOf(Apply(s, step).log, id, opening) == OrdersOf(s.log, id, opening)
  {
    var s' := Apply(s, step);
    forall i ensures !Holds(PcOf(s', i), id) { assert !Holds(PcOf(s, i), id); }
    match step {
      case Decline(i) =>
        Appended(s.log, Claim(i, PcOf(s, i).id), id);
      case ClaimAndAttempt(i) =>
        var pc := PcOf(s, i);
        Appended(s.log, Claim(i, pc.id), id);
        Appended(s.log, Attempt(i, pc.id, pc.leg), id);
        Appended(s.log + [Claim(i, pc.id)], Attempt(i, pc.id, pc.leg), id);
      case PlaceOrder(i) =>
        assert !Holds(PcOf(s, i), id);
        Appended(s.log, Order(i, PcOf(s, i).id, PcOf(s, i).leg), id);
      case _ =>
    }
  }

  lemma {:induction false} SettledRun(s: System, steps: seq<Step>, id: EventId)
    requires Settled(s, id)
    ensures Settled(Exec(s, steps), id)
    ensures forall opening :: OrdersOf(Exec(s, steps).log, id, opening) == OrdersOf(s.log, id, opening)
  {
    if steps != [] {
      SettledRun(s, steps[..|steps| - 1], id);
      var before := Exec(s, steps[..|steps| - 1]);
      if Enabled(before, steps[|steps| - 1]) { SettledStep(before, steps[|steps| - 1], id); }
    }
  }

  /** Missed, not retried. Once an event is claimed and whoever claimed it has crashed, been
      refused by the wire or moved on, no run whatever sends another order for it: not after
      a restart, not from another instance's stale backlog, not after retention has dropped
      the claim with the event. */
  lemma MissedStaysMissed(steps: seq<Step>, more: seq<Step>, id: EventId)
    requires var s := Exec(EMPTY, steps); ClaimsOf(s.log, id) == 1 && forall i :: !Holds(PcOf(s, i), id)
    ensures forall opening ::
              OrdersOf(Exec(Exec(EMPTY, steps), more).log, id, opening) == OrdersOf(Exec(EMPTY, steps).log, id, opening)
  {
    ExecKeeps(steps);
    assert EventOk(Exec(EMPTY, steps), id);
    SettledRun(Exec(EMPTY, steps), more, id);
  }

  // ---------------------------------------------------------------------------
  // And it can be copied
  // ---------------------------------------------------------------------------

  lemma Steps(start: System, steps: seq<Step>, reached: System, step: Step)
    requires Exec(start, steps) == reached && Enabled(reached, step)
    ensures Exec(start, steps + [step]) == Apply(reached, step)
  {
    assert (steps + [step])[..|steps|] == steps;
  }

  function Orders(i: Instance, id: EventId, leg: Leg, n: nat): seq<Entry> { seq(n, _ => Order(i, id, leg)) }

  /** The orders an attempted leg may send, one after another. */
  lemma {:induction false} SendsOrders(s: System, steps: seq<Step>, i: Instance, n: nat) returns (longer: seq<Step>)
    requires var pc := PcOf(Exec(s, steps), i); pc.Attempted? && pc.sent == 0 && n <= MaxOrders(pc.leg)
    ensures var t, u := Exec(s, steps), Exec(s, longer);
            var pc := PcOf(t, i);
            && u.log == t.log + Orders(i, pc.id, pc.leg, n) && u.events == t.events && u.claims == t.claims
            && PcOf(u, i) == pc.(sent := n)
    decreases n
  {
    var t := Exec(s, steps);
    var pc := PcOf(t, i);
    if n == 0 {
      longer := steps;
      assert t.log + Orders(i, pc.id, pc.leg, 0) == t.log;
    } else {
      longer := SendsOrders(s, steps, i, n - 1);
      Steps(s, longer, Exec(s, longer), PlaceOrder(i));
      assert Orders(i, pc.id, pc.leg, n) == Orders(i, pc.id, pc.leg, n - 1) + [Order(i, pc.id, pc.leg)];
      longer := longer + [PlaceOrder(i)];
    }
  }

  /** The leg each kind of event is copied by. */
  predicate CopiedBy(kind: Kind, leg: Leg) {
    match kind
    case Open => leg == OpenLeg
    case ScaleIn => leg == ScaleInLeg
    case ScaleOut => leg == ScaleOutLeg
    case Close => leg == CloseLeg
    case Flip => leg == FlipClose
  }

  lemma AttemptsTheEvent(s: System, i: Instance, id: EventId, leg: Leg) returns (steps: seq<Step>)
    requires PcOf(s, i).Idle? && id in s.events && id !in s.claims && CopiedBy(s.events[id], leg)
    ensures var t := Exec(s, steps);
            && t.log == s.log + [Claim(i, id), Attempt(i, id, leg)] && t.events == s.events
            && PcOf(t, i) == Attempted(id, leg, 0, [])
  {
    var item := Item(id, s.events[id]);
    Steps(s, [], s, Read(i, [item]));
    var read := Apply(s, Read(i, [item]));
    Steps(s, [] + [Read(i, [item])], read, Take(i));
    var taken := Apply(read, Take(i));
    Steps(s, [] + [Read(i, [item])] + [Take(i)], taken, ClaimAndAttempt(i));
    steps := [] + [Read(i, [item])] + [Take(i)] + [ClaimAndAttempt(i)];
  }

  /** What is left of an instance's backlog. */
  function Rest(pc: Pc): seq<Item> {
    match pc
    case Idle => []
    case Draining(backlog) => backlog
    case Deciding(_, _, rest) => rest
    case Attempted(_, _, _, rest) => rest
  }

  /** One event's trouble is its own: an order the wire refused, a halt, a deferral, a lost
      claim or a sub passed over costs no later event of the backlog its turn. */
  lemma BacklogGoesOn(s: System, i: Instance, step: Step)
    requires Enabled(s, step) && Rest(PcOf(s, i)) != []
    requires step in {WireFailed(i), Finish(i, true), Defer(i), PassOver(i)}
             || (step in {Decline(i), ClaimAndAttempt(i)} && PcOf(s, i).id in s.events && PcOf(s, i).id in s.claims
                 && Claims(PcOf(s, i).leg))
    ensures var rest := Rest(PcOf(s, i));
            PcOf(Apply(s, step), i) == Draining(if step.PassOver? then rest[1..] else rest)
  {
  }

  /** What an instance has in hand is older than all its backlog, which is oldest first. */
  predicate OldestInHand(pc: Pc) {
    var rest := Rest(pc);
    && (forall j, k :: 0 <= j < k < |rest| ==> rest[j].id < rest[k].id)
    && (pc.Deciding? || pc.Attempted? ==> forall k :: 0 <= k < |rest| ==> pc.id < rest[k].id)
  }

  lemma OldestStep(s: System, step: Step, i: Instance)
    requires OldestInHand(PcOf(s, i)) && Enabled(s, step)
    ensures OldestInHand(PcOf(Apply(s, step), i))
  {
    var was, now := Rest(PcOf(s, i)), Rest(PcOf(Apply(s, step), i));
    if step != Read(i, now) {
      assert now == was || now == [] || (was != [] && now == was[1..]);
      assert now == was || forall k :: 0 <= k < |now| ==> now[k] == was[k + 1];
    }
  }

  /** So every instance handles what it read in the order it happened. */
  lemma {:induction false} OldestFirst(steps: seq<Step>, i: Instance)
    ensures OldestInHand(PcOf(Exec(EMPTY, steps), i))
  {
    if steps != [] {
      OldestFirst(steps[..|steps| - 1], i);
      var before, last := Exec(EMPTY, steps[..|steps| - 1]), steps[|steps| - 1];
      if Enabled(before, last) { OldestStep(before, last, i); }
    }
  }

  /** Nor is an event ever stuck: any idle instance can claim any outstanding one and send its
      order, or for an exit up to three, whatever happened before; and after a flip's close
      it can attempt and send the open, without another claim. */
  lemma OutstandingCanBeCopied(s: System, i: Instance, id: EventId, leg: Leg, n: nat) returns (steps: seq<Step>)
    requires PcOf(s, i).Idle? && id in s.events && id !in s.claims && CopiedBy(s.events[id], leg)
    requires n <= if leg == OpenLeg || leg == ScaleInLeg then 1 else 3
    ensures var sent := s.log + [Claim(i, id), Attempt(i, id, leg)] + Orders(i, id, leg, n);
            Exec(s, steps).log ==
            if leg == FlipClose then sent + [Attempt(i, id, FlipOpen), Order(i, id, FlipOpen)] else sent
  {
    steps := AttemptsTheEvent(s, i, id, leg);
    steps := SendsOrders(s, steps, i, n);
    if leg == FlipClose {
      var closed := Exec(s, steps);
      Steps(s, steps, closed, Finish(i, false));
      var next := Apply(closed, Finish(i, false));
      Steps(s, steps + [Finish(i, false)], next, ClaimAndAttempt(i));
      var again := Apply(next, ClaimAndAttempt(i));
      Steps(s, steps + [Finish(i, false)] + [ClaimAndAttempt(i)], again, PlaceOrder(i));
      steps := steps + [Finish(i, false)] + [ClaimAndAttempt(i)] + [PlaceOrder(i)];
    }
  }

  // ---------------------------------------------------------------------------
  // The tables
  // ---------------------------------------------------------------------------

  function Records(kinds: seq<Kind>): (steps: seq<Step>)
    ensures |steps| == |kinds| && forall k :: 0 <= k < |kinds| ==> steps[k] == Record(kinds[k])
  {
    seq(|kinds|, k requires 0 <= k < |kinds| => Record(kinds[k]))
  }

  /** The event and claim tables. Identities are minted in order and never reused. */
  class EventTables {
    var events: map<EventId, Kind>
    var observedAt: map<EventId, int>
    var next: EventId
    var claims: set<EventId>

    ghost predicate Valid() reads this {
      && events.Keys == observedAt.Keys && claims <= events.Keys
      && (forall id :: id in events ==> id < next)
    }

    /** The tables as the protocol above sees them. */
    ghost function View(): System reads this { System(events, next, claims, map[], []) }

    function Expired(before: int): set<EventId> reads this {
      set id | id in observedAt && observedAt[id] < before
    }

    constructor ()
      ensures Valid() && View() == EMPTY
    {
      events, observedAt, next, claims := map[], map[], 0, {};
    }

    /** A producer's batch, and the retention that rides along: everything older than
        `before` goes, and takes its claims with it. */
    method RecordEvents(kinds: seq<Kind>, now: int, before: int)
      requires Valid() && before <= now
      modifies this
      ensures Valid()
      ensures View() == Apply(Exec(old(View()), Records(kinds)), Prune(old(Expired(before))))
      ensures forall id :: id in old(observedAt) ==> (id in events <==> before <= old(observedAt)[id])
    {
      for n := 0 to |kinds|
        invariant Valid() && before <= now
        invariant View() == Exec(old(View()), Records(kinds[..n]))
        invariant Expired(before) == old(Expired(before)) && claims == old(claims)
        invariant forall id :: id in old(observedAt) ==> id in observedAt && observedAt[id] == old(observedAt)[id]
      {
        assert Records(kinds[..n + 1])[..n] == Records(kinds[..n]);
        events, observedAt, next := events[next := kinds[n]], observedAt[next := now], next + 1;
      }
      assert kinds[..|kinds|] == kinds;
      var expired := Expired(before);
      events, observedAt, claims := events - expired, observedAt - expired, claims - expired;
    }

    /** Insert-or-conflict: only the first claimer wins, and claiming an event retention has
        dropped is a foreign key error (None). */
    method ClaimEvent(id: EventId) returns (won: Option<bool>)
      requires Valid()
      modifies this
      ensures Valid() && events == old(events) && next == old(next)
      ensures won == Some(true) <==> CanClaim(old(View()), id)
      ensures won.None? <==> id !in old(events)
      ensures claims == if won == Some(true) then old(claims) + {id} else old(claims)
    {
      if id !in events { return None; }
      if id in claims { return Some(false); }
      claims := claims + {id};
      return Some(true);
    }

    /** The backlog: every event not claimed, oldest first. */
    method OutstandingEvents() returns (backlog: seq<Item>)
      requires Valid()
      ensures Outstanding(View(), backlog)
      ensures forall id :: id in events && id !in claims ==> exists k :: 0 <= k < |backlog| && backlog[k].id == id
    {
      backlog := [];
      for id := 0 to next
        invariant Outstanding(View(), backlog)
        invariant forall k :: 0 <= k < |backlog| ==> backlog[k].id < id
        invariant forall e :: e in events && e !in claims && e < id ==>
            exists k :: 0 <= k < |backlog| && backlog[k].id == e
      {
        if id in events && id !in claims {
          var longer := backlog + [Item(id, events[id])];
          forall e | e in events && e !in claims && e < id + 1
            ensures exists k :: 0 <= k < |longer| && longer[k].id == e
          {
            if e == id {
              assert longer[|backlog|].id == e;
            } else {
              var k :| 0 <= k < |backlog| && backlog[k].id == e;
              assert longer[k].id == e;
            }
          }
          backlog := longer;
        }
      }
    }
  }
}
