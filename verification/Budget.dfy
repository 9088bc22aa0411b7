// The cross-process token bucket (src/epigone/budget.py): one `rate_budget` row that
// every spender locks, refills and draws, with a reserve floor per spender, a send
// gate, and settlements that bill what only a response revealed.
//
// Units make the arithmetic exact: clocks are integer microseconds and tokens are
// integer micro-weights, so a second's refill (15 weight) is 15 micro-weights per
// microsecond and a weight's gate window (1/20 s) is 50_000 microseconds.
module WeightBudget {
  import opened Wrappers

  const PER_IP_WEIGHT_PER_MINUTE := 1200
  const SHARED_WEIGHT_PER_MINUTE := 900
  const BURST_WEIGHT := 240
  const CAPACITY := 240_000_000
  const PACING_SLEEP_FLOOR := 50_000
  const MINUTE := 60_000_000

  /** Micro-weights in a weight. */
  function Tokens(weight: int): int { weight * 1_000_000 }

  /** Micro-weights refilled in so many microseconds: SHARED_WEIGHT_PER_MINUTE / 60 a second. */
  function Refill(elapsed: int): int { elapsed * 15 }

  /** Microseconds of gate a weight reserves: PER_IP_WEIGHT_PER_MINUTE / 60 weight a second. */
  function GateWindow(weight: int): int { weight * 50_000 }

  /** The row: tokens in hand (negative is debt), the latest clock that refilled it,
      and the instant the send gate reopens. */
  datatype Row = Row(available: int, lastRefill: int, nextSendAt: int)

  /** A settlement of nothing opens no transaction, so a settled weight is positive. */
  type Surcharge = w: nat | w > 0 witness 1

  /** One transaction against the row, with the clock its own process read. */
  datatype Op =
    | Spend(weight: nat, reserve: nat, now: int)
    | Settle(surcharge: Surcharge, now: int)

  // ---------------------------------------------------------------------------
  // One transaction
  // ---------------------------------------------------------------------------

  /** The row a transaction locks: an absent one is seeded full, gate open. */
  function LockedRow(row: Option<Row>, now: int): Row {
    row.GetOr(Row(CAPACITY, now, now))
  }

  /** Tokens in hand at `now`; a clock behind the row's refills nothing. */
  function Refilled(row: Row, now: int): int {
    Min(CAPACITY, row.available + Refill(Max(0, now - row.lastRefill)))
  }

  /** Microseconds until the tokens above the reserve suffice, as the code estimates it. */
  function TokenWait(row: Row, weight: nat, reserve: nat, now: int): real {
    RealMax(0.0, (Tokens(weight + reserve) - Refilled(row, now)) as real / 15.0)
  }

  function GateWait(row: Row, now: int): real { Max(0, row.nextSendAt - now) as real }

  /** Whether a spend is granted: the tokens fit above the reserve and the gate is open. */
  predicate Granted(row: Row, op: Op) {
    op.Spend? && Tokens(op.weight + op.reserve) <= Refilled(row, op.now) && row.nextSendAt <= op.now
  }

  /** The row a transaction commits. */
  function Step(row: Row, op: Op): Row {
    var available, clock := Refilled(row, op.now), Max(op.now, row.lastRefill);
    match op
    case Spend(weight, _, now) =>
      if Granted(row, op) then Row(available - Tokens(weight), clock, now + GateWindow(weight))
      else Row(available, clock, row.nextSendAt)
    case Settle(surcharge, now) =>
      Row(available - Tokens(surcharge), clock, Max(row.nextSendAt, now) + GateWindow(surcharge))
  }

  /** Weight the transaction bills: a grant's, or a settlement's. */
  function BilledBy(row: Row, op: Op): nat {
    match op
    case Spend(weight, _, _) => if Granted(row, op) then weight else 0
    case Settle(surcharge, _) => surcharge
  }

  // ---------------------------------------------------------------------------
  // Runs: any interleaving of any processes' transactions, serialized by the row lock
  // ---------------------------------------------------------------------------

  function Run(row: Row, ops: seq<Op>): Row
    decreases ops
  {
    if ops == [] then row else Run(Step(row, ops[0]), ops[1..])
  }

  function Billed(row: Row, ops: seq<Op>): nat
    decreases ops
  {
    if ops == [] then 0 else BilledBy(row, ops[0]) + Billed(Step(row, ops[0]), ops[1..])
  }

  predicate EndsInGrant(row: Row, ops: seq<Op>) {
    ops != [] && Granted(Run(row, ops[..|ops| - 1]), ops[|ops| - 1])
  }

  lemma {:induction false} RunConcat(row: Row, a: seq<Op>, b: seq<Op>)
    ensures Run(row, a + b) == Run(Run(row, a), b)
    decreases a
  {
    if a == [] {
      assert a + b == b;
    } else {
      assert (a + b)[0] == a[0] && (a + b)[1..] == a[1..] + b;
      RunConcat(Step(row, a[0]), a[1..], b);
    }
  }

  /** Micro-weights a full bucket turns away as a transaction refills it. */
  function SpilledBy(row: Row, op: Op): nat {
    Max(0, row.available + 15 * Max(0, op.now - row.lastRefill) - 240_000_000)
  }

  function Spilled(row: Row, ops: seq<Op>): nat
    decreases ops
  {
    if ops == [] then 0 else SpilledBy(row, ops[0]) + Spilled(Step(row, ops[0]), ops[1..])
  }

  /** One transaction, to the microsecond. Whoever it is by, it refills 15 weight a second
      since the row's clock, up to 240; a spend is granted exactly when its weight and its
      reserve fit and the gate is open, and only then billed; a settlement is billed whatever
      is left; and what is billed closes the gate for a twentieth of a second a weight. */
  lemma TransactionIsExact(row: Row, op: Op)
    ensures var after, refill := Step(row, op), 15 * Max(0, op.now - row.lastRefill);
            var held := row.available + refill - SpilledBy(row, op);
            && after.lastRefill == Max(op.now, row.lastRefill)
            && after.available == held - 1_000_000 * BilledBy(row, op) && held <= 240_000_000
            && (op.Spend? ==>
                  var fits := 1_000_000 * (op.weight + op.reserve) <= held && row.nextSendAt <= op.now;
                  && BilledBy(row, op) == (if fits then op.weight else 0)
                  && after.nextSendAt == if fits then op.now + 50_000 * op.weight else row.nextSendAt)
            && (op.Settle? ==>
                  && BilledBy(row, op) == op.surcharge
                  && after.nextSendAt == Max(row.nextSendAt, op.now) + 50_000 * op.surcharge)
    ensures LockedRow(None, op.now) == Row(240_000_000, op.now, op.now)
  {
  }

  /** Conservation, exactly: what a run bills, what it leaves and what a full bucket turned
      away are together what it started from and the refill earned by the stored clock's
      advance, which never goes backwards; and the bucket never holds more than one burst. */
  lemma {:induction false} TokensAccounted(row: Row, ops: seq<Op>)
    requires row.available <= 240_000_000
    ensures var end := Run(row, ops);
            && end.available <= 240_000_000
            && row.lastRefill <= end.lastRefill
            && end.available + 1_000_000 * Billed(row, ops) + Spilled(row, ops)
               == row.available + 15 * (end.lastRefill - row.lastRefill)
    decreases ops
  {
    if ops != [] {
      TransactionIsExact(row, ops[0]);
      TokensAccounted(Step(row, ops[0]), ops[1..]);
    }
  }

  /** The stored clock ends at the latest clock any transaction of the run read. */
  lemma {:induction false} ClockStaysInside(row: Row, ops: seq<Op>, bound: int)
    requires row.lastRefill <= bound
    requires forall i :: 0 <= i < |ops| ==> ops[i].now <= bound
    ensures Run(row, ops).lastRefill <= bound
    decreases ops
  {
    if ops != [] {
      ClockStaysInside(Step(row, ops[0]), ops[1..], bound);
    }
  }

  /** Any stretch of transactions, by any spenders with any reserves, bills at most one
      burst plus the refill of the stored clock's advance since its first transaction,
      plus the debt it leaves behind. */
  lemma StretchBill(row: Row, ops: seq<Op>)
    requires row.available <= CAPACITY
    requires ops != []
    ensures Step(row, ops[0]).lastRefill <= Run(row, ops).lastRefill
    ensures Run(row, ops).available + Tokens(Billed(row, ops))
            <= CAPACITY + Refill(Run(row, ops).lastRefill - Step(row, ops[0]).lastRefill)
  {
    TokensAccounted(row, ops[..1]);
    TokensAccounted(Step(row, ops[0]), ops[1..]);
  }

  /** Every grant leaves its own spender's reserve in the bucket. */
  lemma GrantLeavesReserve(row: Row, ops: seq<Op>)
    requires EndsInGrant(row, ops)
    ensures Run(row, ops).available >= Tokens(ops[|ops| - 1].reserve)
  {
    var before, last := ops[..|ops| - 1], ops[|ops| - 1];
    assert before + [last] == ops;
    RunConcat(row, before, [last]);
    assert Run(Run(row, before), [last]) == Step(Run(row, before), last);
  }

  /** A stretch whose clock readings span `length` earns no more than that span's refill. */
  lemma StretchWithin(row: Row, ops: seq<Op>, start: int, length: nat)
    requires row.available <= CAPACITY
    requires ops != []
    requires forall i :: 0 <= i < |ops| ==> start <= ops[i].now <= start + length
    ensures Run(row, ops).available + 1_000_000 * Billed(row, ops) <= 240_000_000 + 15 * length
  {
    StretchBill(row, ops);
    var begun, ended := Step(row, ops[0]).lastRefill, Run(row, ops).lastRefill;
    assert start <= ops[0].now <= begun;
    assert ended <= Max(begun, start + length) by {
      ClockStaysInside(Step(row, ops[0]), ops[1..], Max(begun, start + length));
    }
  }

  /** The rolling bound. Take any row any history left, and any stretch of transactions
      whose own clock readings all lie in [start, start + length], however skewed against
      each other. If the stretch ends in a grant it billed at most
      BURST_WEIGHT + 15 per second of `length`, less that grant's reserve. */
  lemma RollingBound(row: Row, ops: seq<Op>, start: int, length: nat)
    requires row.available <= CAPACITY
    requires EndsInGrant(row, ops)
    requires forall i :: 0 <= i < |ops| ==> start <= ops[i].now <= start + length
    ensures 1_000_000 * (Billed(row, ops) + ops[|ops| - 1].reserve) <= 240_000_000 + 15 * length
  {
    StretchWithin(row, ops, start, length);
    GrantLeavesReserve(row, ops);
  }

  /** The figure the module documents: a rolling minute that ends in a grant bills at most
      240 + 900 = 1140, under the 1200 cap. */
  lemma RollingMinute(row: Row, ops: seq<Op>, start: int)
    requires row.available <= CAPACITY
    requires EndsInGrant(row, ops)
    requires forall i :: 0 <= i < |ops| ==> start <= ops[i].now <= start + MINUTE
    ensures Billed(row, ops) + ops[|ops| - 1].reserve <= 1140 < PER_IP_WEIGHT_PER_MINUTE
  {
    RollingBound(row, ops, start, MINUTE);
  }

  /** Only settlements can carry a minute past that figure, and only by the debt they
      leave: the same bound holds for every stretch once its closing debt is added. */
  lemma RollingMinuteWithDebt(row: Row, ops: seq<Op>, start: int)
    requires row.available <= CAPACITY
    requires ops != []
    requires forall i :: 0 <= i < |ops| ==> start <= ops[i].now <= start + MINUTE
    ensures Tokens(Billed(row, ops))
            <= Tokens(1140) + Max(0, -Run(row, ops).available)
  {
    StretchWithin(row, ops, start, MINUTE);
  }

  /** The debt term is real: one settlement alone can bill more than the cap. */
  lemma SettlementsCanExceedTheCap()
    ensures var row := Row(CAPACITY, 0, 0);
            Billed(row, [Settle(2000, 0)]) > PER_IP_WEIGHT_PER_MINUTE
  {
    var row := Row(CAPACITY, 0, 0);
    assert Billed(row, [Settle(2000, 0)]) == 2000 + Billed(Step(row, Settle(2000, 0)), []);
  }

  // ---------------------------------------------------------------------------
  // The send gate
  // ---------------------------------------------------------------------------

  /** The exclusive interval a billing transaction reserves behind the gate. */
  datatype Window = Window(opens: int, closes: int, weight: nat)

  function WindowOf(row: Row, op: Op): seq<Window> {
    match op
    case Spend(weight, _, now) =>
      if Granted(row, op) then [Window(now, now + GateWindow(weight), weight)] else []
    case Settle(surcharge, now) =>
      var opens := Max(row.nextSendAt, now);
      [Window(opens, opens + GateWindow(surcharge), surcharge)]
  }

  function Windows(row: Row, ops: seq<Op>): seq<Window>
    decreases ops
  {
    if ops == [] then [] else WindowOf(row, ops[0]) + Windows(Step(row, ops[0]), ops[1..])
  }

  ghost predicate InOrder(windows: seq<Window>) {
    forall i, j :: 0 <= i < j < |windows| ==> windows[i].closes <= windows[j].opens
  }

  /** In every run the windows are pairwise disjoint, in commit order, each exactly
      weight/20 seconds long; all lie between the gate's first and last positions, so the
      gate never moves back and rises by at least the sum of what was billed. */
  lemma {:induction false} WindowsDisjoint(row: Row, ops: seq<Op>)
    ensures var ws := Windows(row, ops);
            && InOrder(ws)
            && (forall i :: 0 <= i < |ws| ==>
                  && ws[i].closes == ws[i].opens + 50_000 * ws[i].weight
                  && row.nextSendAt <= ws[i].opens
                  && ws[i].closes <= Run(row, ops).nextSendAt)
    ensures row.nextSendAt + 50_000 * Billed(row, ops) <= Run(row, ops).nextSendAt
    decreases ops
  {
    if ops != [] {
      var next := Step(row, ops[0]);
      var rest := Windows(next, ops[1..]);
      WindowsDisjoint(next, ops[1..]);
      assert row.nextSendAt + GateWindow(BilledBy(row, ops[0])) <= next.nextSendAt;
      assert Windows(row, ops) == WindowOf(row, ops[0]) + rest;
    }
  }

  /** Weight granted to spenders whose own clocks read a time in [start, start + length]. */
  function GrantedWithin(row: Row, ops: seq<Op>, start: int, length: nat): nat
    decreases ops
  {
    if ops == [] then 0
    else
      var rest := GrantedWithin(Step(row, ops[0]), ops[1..], start, length);
      if Granted(row, ops[0]) && start <= ops[0].now <= start + length then ops[0].weight + rest else rest
  }

  /** The weight of the last such grant; None when there is none. */
  function LastGrantWithin(row: Row, ops: seq<Op>, start: int, length: nat): Option<nat>
    decreases ops
  {
    if ops == [] then None
    else
      var rest := LastGrantWithin(Step(row, ops[0]), ops[1..], start, length);
      if rest.Some? then rest
      else if Granted(row, ops[0]) && start <= ops[0].now <= start + length then Some(ops[0].weight)
      else None
  }

  lemma {:induction false} GatePacesFrom(row: Row, ops: seq<Op>, start: int, length: nat)
    ensures var last := LastGrantWithin(row, ops, start, length);
            if last.None? then GrantedWithin(row, ops, start, length) == 0
            else GateWindow(GrantedWithin(row, ops, start, length))
                 <= start + length - Max(start, row.nextSendAt) + GateWindow(last.value)
    decreases ops
  {
    if ops != [] {
      GatePacesFrom(Step(row, ops[0]), ops[1..], start, length);
    }
  }

  /** The instantaneous rate: over any run, grants whose clocks read a time in an interval
      of `length` microseconds total at most 20 per second of it plus the last grant's
      own weight, whatever the clocks of different processes do to each other. */
  lemma GatePaces(row: Row, ops: seq<Op>, start: int, length: nat)
    ensures 50_000 * GrantedWithin(row, ops, start, length)
            <= length + 50_000 * LastGrantWithin(row, ops, start, length).GetOr(0)
  {
    GatePacesFrom(row, ops, start, length);
  }

  /** The last grant's weight is needed: a grant lands whole at its window's first
      instant, so a single one is not spread over the second it paces. */
  lemma OneGrantIsNotSpread()
    ensures var row, ops := Row(CAPACITY, 0, 0), [Spend(40, 0, 0)];
            GrantedWithin(row, ops, 0, 0) == 40
  {
    var row, op := Row(CAPACITY, 0, 0), Spend(40, 0, 0);
    assert Granted(row, op);
    assert GrantedWithin(Step(row, op), [], 0, 0) == 0;
  }

  // ---------------------------------------------------------------------------
  // Blocked attempts
  // ---------------------------------------------------------------------------

  /** The row lazily refilled to a clock, as if nothing had touched it meanwhile. */
  function Refreshed(row: Row, clock: int): Row {
    Row(Refilled(row, clock), Max(clock, row.lastRefill), row.nextSendAt)
  }

  predicate AllBlocked(row: Row, ops: seq<Op>)
    decreases ops
  {
    ops != [] ==> ops[0].Spend? && !Granted(row, ops[0]) && AllBlocked(Step(row, ops[0]), ops[1..])
  }

  function LatestClock(clock: int, ops: seq<Op>): int
    decreases ops
  {
    if ops == [] then clock else LatestClock(Max(clock, ops[0].now), ops[1..])
  }

  /** Any number of blocked attempts, by any spenders at any clocks, leave exactly the row
      one lazy refill to the latest of those clocks would. */
  lemma {:induction false} BlockedAttemptsAreOneRefill(row: Row, ops: seq<Op>)
    requires row.available <= CAPACITY
    requires AllBlocked(row, ops)
    ensures Run(row, ops) == Refreshed(row, LatestClock(row.lastRefill, ops))
    decreases ops
  {
    if ops != [] {
      assert Step(row, ops[0]) == Refreshed(row, ops[0].now);
      BlockedAttemptsAreOneRefill(Step(row, ops[0]), ops[1..]);
      LatestClockGrows(Max(row.lastRefill, ops[0].now), ops[1..]);
    }
  }

  lemma {:induction false} LatestClockGrows(clock: int, ops: seq<Op>)
    ensures clock <= LatestClock(clock, ops)
    decreases ops
  {
    if ops != [] { LatestClockGrows(Max(clock, ops[0].now), ops[1..]); }
  }

  /** So they are invisible: the next transaction no earlier than all of them is granted
      exactly when it would have been, bills the same and commits the same row. */
  lemma BlockedAttemptsInvisible(row: Row, ops: seq<Op>, next: Op)
    requires row.available <= CAPACITY
    requires AllBlocked(row, ops)
    requires LatestClock(row.lastRefill, ops) <= next.now
    ensures Granted(Run(row, ops), next) == Granted(row, next)
    ensures Step(Run(row, ops), next) == Step(row, next)
    ensures BilledBy(Run(row, ops), next) == BilledBy(row, next)
  {
    BlockedAttemptsAreOneRefill(row, ops);
    LatestClockGrows(row.lastRefill, ops);
  }

  /** Attempts an uncontended spend can need when the row's clock is `skew` ahead of its own. */
  function AttemptBound(skew: int): nat {
    3 + if skew <= 0 then 0 else 1 + skew / 49_999
  }

  /** All but the last microsecond's worth of waiting is behind us. */
  predicate AlmostFits(row: Row, weight: nat, now: int) {
    Tokens(weight) <= Refilled(row, now + 1) && row.nextSendAt <= now + 1
  }

  /** A blocked attempt that saw a current clock computes a wait long enough that, even
      landing a microsecond short, only that microsecond is still missing. */
  lemma WaitCoversShortfall(row: Row, weight: nat, reserve: nat, now: int, later: int)
    requires row.lastRefill <= now
    requires weight + reserve <= BURST_WEIGHT
    requires later as real >= now as real
                              + RealMax(RealMax(TokenWait(row, weight, reserve, now), GateWait(row, now)), 50_000.0)
                              - 1.0
    ensures AlmostFits(Refreshed(row, now), weight + reserve, later)
  {
    var shortfall := Tokens(weight + reserve) - Refilled(row, now);
    assert (later + 1 - now) as real >= shortfall as real / 15.0;
    assert Refill(later + 1 - now) >= shortfall;
  }

  /** And no longer than it must: at no clock before that wait is over would it be granted. */
  lemma NeverWaitsTooLong(row: Row, weight: nat, reserve: nat, now: int, later: int)
    requires row.available <= CAPACITY && now <= later
    requires later as real < now as real + RealMax(TokenWait(row, weight, reserve, now), GateWait(row, now))
    ensures !Granted(Refreshed(row, now), Op.Spend(weight, reserve, later))
  {
    var shortfall := Tokens(weight + reserve) - Refilled(row, now);
    assert (later - now) as real < shortfall as real / 15.0 || later < row.nextSendAt;
    assert Refill(later - now) < shortfall || later < row.nextSendAt;
  }

  /** Once only a microsecond is missing, the pacing floor covers it. */
  lemma FitsAfterTheFloor(row: Row, weight: nat, reserve: nat, now: int, later: int)
    requires row.available <= CAPACITY && row.lastRefill <= now && now + 49_999 <= later
    requires AlmostFits(row, weight + reserve, now)
    ensures Granted(Refreshed(row, now), Op.Spend(weight, reserve, later))
  {
    assert Refilled(row, now + 1) <= Refilled(Refreshed(row, now), later);
  }

  /** Two lazy refills are one, to the later clock. */
  lemma RefreshedTwice(row: Row, a: int, b: int)
    requires row.available <= CAPACITY && a <= b
    ensures Refreshed(Refreshed(row, a), b) == Refreshed(row, b)
    ensures forall w: nat, r: nat :: Granted(Refreshed(row, a), Op.Spend(w, r, b)) == Granted(row, Op.Spend(w, r, b))
    ensures forall w: nat, r: nat :: Step(Refreshed(row, a), Op.Spend(w, r, b)) == Step(row, Op.Spend(w, r, b))
  {
  }

  lemma EarlyAttempts(early: nat, skew: int)
    requires early > 0 ==> (early - 1) * 49_999 < skew
    ensures early + 3 <= AttemptBound(skew)
  {
    assert early > 0 ==> early - 1 <= skew / 49_999;
  }

  // ---------------------------------------------------------------------------
  // The shared row and its spenders
  // ---------------------------------------------------------------------------

  /** The injected clock. A sleep may land up to one microsecond short, because clock
      arithmetic quantizes, or arbitrarily late. */
  class Clock {
    var now: int
    const drift: nat -> int
    var naps: nat

    constructor (now: int, drift: nat -> int)
      requires forall n :: drift(n) >= -1
      ensures this.now == now && this.drift == drift
    {
      this.now, this.drift, naps := now, drift, 0;
    }

    ghost predicate Valid() reads this { forall n :: drift(n) >= -1 }

    method Sleep(wait: real)
      requires Valid()
      modifies this
      ensures Valid() && now as real >= old(now) as real + wait - 1.0
    {
      now := now - (-wait).Floor + drift(naps);
      naps := naps + 1;
    }
  }

  datatype SpendResult = Taken(attempts: nat) | OverCapacity

  class SharedWeightBudget {
    var row: Option<Row>

    constructor ()
      ensures row == None
    {
      row := None;
    }

    ghost predicate Valid() reads this { row.Some? ==> row.value.available <= CAPACITY }

    /** One attempt: refill, take the weight if it fits above the reserve with the gate
        open, and report how long to wait (nothing when granted). */
    method TrySpend(weight: nat, reserve: nat, now: int) returns (wait: real)
      modifies this
      ensures row == Some(Step(LockedRow(old(row), now), Op.Spend(weight, reserve, now)))
      ensures wait <= 0.0 <==> Granted(LockedRow(old(row), now), Op.Spend(weight, reserve, now))
      ensures wait == RealMax(TokenWait(LockedRow(old(row), now), weight, reserve, now),
                              GateWait(LockedRow(old(row), now), now))
    {
      var locked := LockedRow(row, now);
      var available := Refilled(locked, now);
      var tokenWait := TokenWait(locked, weight, reserve, now);
      var gateWait := GateWait(locked, now);
      var gate := locked.nextSendAt;
      var granted := tokenWait <= 0.0 && gateWait <= 0.0;
      if granted {
        available := available - Tokens(weight);
        gate := now + GateWindow(weight);
      }
      row := Some(Row(available, Max(now, locked.lastRefill), gate));
      wait := if granted then 0.0 else RealMax(tokenWait, gateWait);
    }

    /** Block until the weight fits, then take it. With no other spender at the row the
        wait ends: at most three attempts, plus those spent while the caller's clock is
        still behind the row's, and the row it leaves is the one a single attempt at the
        final clock would have committed. A spend that can never fit is refused at once. */
    method Spend(weight: nat, reserve: nat, clock: Clock) returns (r: SpendResult)
      requires Valid() && clock.Valid()
      modifies this, clock
      ensures clock.Valid() && Valid()
      ensures r.OverCapacity? <==> weight + reserve > 240
      ensures r.OverCapacity? ==> row == old(row) && clock.now == old(clock.now)
      ensures r.Taken? ==>
                var locked := LockedRow(old(row), old(clock.now));
                && Granted(locked, Op.Spend(weight, reserve, clock.now))
                && row == Some(Step(locked, Op.Spend(weight, reserve, clock.now)))
                && r.attempts <= AttemptBound(locked.lastRefill - old(clock.now))
    {
      if weight + reserve > BURST_WEIGHT { return OverCapacity; }
      ghost var start := clock.now;
      ghost var first := LockedRow(row, start);
      ghost var last, early, caughtUp := start, 0, 0;
      var attempts := 0;
      while true
        invariant clock.Valid() && attempts == early + caughtUp && caughtUp <= 2
        invariant attempts == 0 ==> clock.now == start && row == old(row)
        invariant attempts > 0 ==>
                    && row == Some(Refreshed(first, last))
                    && start + (attempts - 1) * 49_999 <= last <= clock.now - 49_999
        invariant early > 0 ==> (early - 1) * 49_999 < first.lastRefill - start
        invariant caughtUp == 0 && attempts > 0 ==> last < first.lastRefill
        invariant caughtUp > 0 ==>
            first.lastRefill <= last && AlmostFits(Refreshed(first, last), weight + reserve, clock.now)
        invariant caughtUp > 1 ==> Granted(Refreshed(first, last), Op.Spend(weight, reserve, clock.now))
        decreases Max(0, first.lastRefill - clock.now), 3 - caughtUp
      {
        ghost var now := clock.now;
        var wait := TrySpend(weight, reserve, clock.now);
        attempts := attempts + 1;
        if attempts > 1 { RefreshedTwice(first, last, now); }
        if wait <= 0.0 {
          EarlyAttempts(early, first.lastRefill - start);
          return Taken(attempts);
        }
        clock.Sleep(RealMax(wait, PACING_SLEEP_FLOOR as real));
        if now < first.lastRefill {
          early := early + 1;
        } else {
          if caughtUp > 0 { FitsAfterTheFloor(Refreshed(first, last), weight, reserve, now, clock.now); }
          RefreshedTwice(first, now, now);
          WaitCoversShortfall(first, weight, reserve, now, clock.now);
          caughtUp := caughtUp + 1;
        }
        last := now;
      }
    }

    /** Bill what a response revealed, into debt if need be; never blocks. */
    method Settle(weight: int, now: int)
      modifies this
      ensures row == if weight <= 0 then old(row)
                     else Some(Step(LockedRow(old(row), now), Op.Settle(weight, now)))
    {
      if weight <= 0 { return; }
      var locked := LockedRow(row, now);
      row := Some(Row(Refilled(locked, now) - Tokens(weight), Max(now, locked.lastRefill),
                      Max(locked.nextSendAt, now) + GateWindow(weight)));
    }
  }
}
