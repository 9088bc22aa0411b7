// Who produces position events (src/epigone/lane_authority.py): the decision a position
// cycle takes about the single owner row, and the anti-thrash promises over whole runs.
module LaneAuthority {
  import opened Wrappers

  type Address = string

  const WS_HEARTBEAT_STALE := 45_000_000
  const WS_RECOVERY := 300_000_000

  datatype Owner = Poll | Ws

  datatype Reason = Disabled | Unrecorded | Stale | Outgrown | Recovered | Drift

  /** The row as a value. `healthySince` is probation bookkeeping. */
  datatype Authority = Authority(owner: Owner, since: int, reason: Reason, healthySince: Option<int>)

  const UNRECORDED := Authority(Poll, 0, Unrecorded, None)

  /** Everything one evaluation reads: its clock, the kill switch, the websocket's last
      heartbeat, the poll set and the lane's own resync stamps. */
  datatype Look = Look(now: int, enabled: bool, beatenAt: Option<int>,
                       tracked: seq<Address>, resyncedAt: map<Address, int>)

  predicate Fresh(look: Look) {
    look.beatenAt.Some? && look.now - look.beatenAt.value <= WS_HEARTBEAT_STALE
  }

  predicate Fits(look: Look, maxTracked: nat) { |look.tracked| <= maxTracked }

  predicate ResyncedSince(look: Look, since: int) {
    forall i :: 0 <= i < |look.tracked| ==>
      look.tracked[i] in look.resyncedAt && since <= look.resyncedAt[look.tracked[i]]
  }

  /** What may happen to the row in one transaction: an evaluation, or the poller taking
      production back from inside its own pass because the websocket drifted. */
  datatype Event = Evaluate(look: Look) | Takeover(at: int)

  function Time(e: Event): int { if e.Evaluate? then e.look.now else e.at }

  function Transferred(owner: Owner, reason: Reason, now: int): Authority {
    Authority(owner, now, reason, None)
  }

  function OnProbation(a: Authority, healthySince: Option<int>): Authority {
    a.(healthySince := healthySince)
  }

  /** The decision. */
  function Decide(a: Authority, look: Look, maxTracked: nat): Authority {
    if !look.enabled then
      if a.owner == Ws || a.reason != Disabled then Transferred(Poll, Disabled, look.now)
      else OnProbation(a, None)
    else if a.owner == Ws then
      if !Fresh(look) then Transferred(Poll, Stale, look.now)
      else if !Fits(look, maxTracked) then Transferred(Poll, Outgrown, look.now)
      else a
    else if !Fresh(look) then OnProbation(a, None)
    else
      var healthy := a.healthySince.GetOr(look.now);
      if look.now - healthy < WS_RECOVERY || !Fits(look, maxTracked) || !ResyncedSince(look, a.since)
      then OnProbation(a, Some(healthy))
      else Transferred(Ws, Recovered, look.now)
  }

  function Next(a: Authority, e: Event, maxTracked: nat): Authority {
    match e
    case Evaluate(look) => Decide(a, look, maxTracked)
    case Takeover(at) => Transferred(Poll, Drift, at)
  }

  function After(a: Authority, run: seq<Event>, maxTracked: nat): Authority {
    if run == [] then a
    else Next(After(a, run[..|run| - 1], maxTracked), run[|run| - 1], maxTracked)
  }

  ghost predicate Chronological(run: seq<Event>) {
    forall i, j :: 0 <= i < j < |run| ==> Time(run[i]) <= Time(run[j])
  }

  predicate Promotes(before: Authority, after: Authority) { before.owner == Poll && after.owner == Ws }

  // ---------------------------------------------------------------------------
  // What ownership means
  // ---------------------------------------------------------------------------

  /** A heartbeat no older than 45 seconds. */
  predicate Alive(look: Look) { look.beatenAt.Some? && look.now - look.beatenAt.value <= 45_000_000 }

  /** Every wallet polled has been re-read since. */
  ghost predicate AllResynced(look: Look, since: int) {
    forall trader :: trader in look.tracked ==> trader in look.resyncedAt && since <= look.resyncedAt[trader]
  }

  /** Where one evaluation leaves the row, whatever its reason said before. Switched off, the
      poller has production at once and keeps the clock of the choice. The websocket keeps
      production exactly while it is alive and covers the poll set. The poller hands it back
      exactly when a probation of 300 seconds ends alive, covered and resynced; until then the
      probation runs from its first healthy look, and a dead one ends it. */
  lemma EvaluationMoves(a: Authority, look: Look, maxTracked: nat)
    ensures var b, healthy := Decide(a, look, maxTracked), a.healthySince.GetOr(look.now);
            && (!look.enabled ==>
                  if a.owner == Poll && a.reason == Disabled then b == Authority(Poll, a.since, Disabled, None)
                  else b == Authority(Poll, look.now, Disabled, None))
            && (look.enabled && a.owner == Ws ==>
                  if Alive(look) && |look.tracked| <= maxTracked then b == a
                  else b == Authority(Poll, look.now, if Alive(look) then Outgrown else Stale, None))
            && (look.enabled && a.owner == Poll ==>
                  if !Alive(look) then b == Authority(Poll, a.since, a.reason, None)
                  else if look.now - healthy >= 300_000_000 && |look.tracked| <= maxTracked
                          && AllResynced(look, a.since)
                  then b == Authority(Ws, look.now, Recovered, None)
                  else b == Authority(Poll, a.since, a.reason, Some(healthy)))
  {
    assert AllResynced(look, a.since) <==> ResyncedSince(look, a.since);
  }

  /** After any run from a row the migration seeds, websocket ownership is only ever held
      off probation, and only if the latest transaction was an evaluation that saw it
      enabled, fresh and covering the whole poll set: a single bad look ends it. */
  lemma {:induction false} WsOwnershipIsJustified(a: Authority, run: seq<Event>, maxTracked: nat)
    requires a.owner == Poll
    ensures var end := After(a, run, maxTracked);
            end.owner == Ws ==>
              && end.healthySince == None
              && run != []
              && var last := run[|run| - 1];
              && last.Evaluate? && last.look.enabled && Alive(last.look) && |last.look.tracked| <= maxTracked
  {
    if run != [] {
      WsOwnershipIsJustified(a, run[..|run| - 1], maxTracked);
    }
  }

  /** Transaction `i` was an evaluation that looked healthy, and it found production where
      the transfer at `since` had put it: with the poller. */
  predicate HealthyAt(a: Authority, run: seq<Event>, i: nat, since: int, maxTracked: nat)
    requires i < |run|
  {
    && run[i].Evaluate? && run[i].look.enabled && Alive(run[i].look)
    && After(a, run[..i], maxTracked).owner == Poll
    && After(a, run[..i], maxTracked).since == since
  }

  /** From transaction `from` and before `upto` every look was healthy, and production did
      not change hands. */
  ghost predicate HealthyThroughout(a: Authority, run: seq<Event>, from: nat, upto: nat, since: int, maxTracked: nat)
    requires from <= upto <= |run|
  {
    forall i :: from <= i < upto ==> HealthyAt(a, run, i, since, maxTracked)
  }

  /** The probation standing after `run` began at transaction `from`. */
  ghost predicate BeganAt(a: Authority, run: seq<Event>, from: nat, maxTracked: nat) {
    && from < |run| && run[from].Evaluate?
    && After(a, run, maxTracked).healthySince == Some(run[from].look.now)
    && After(a, run, maxTracked).since <= run[from].look.now
    && HealthyThroughout(a, run, from, |run|, After(a, run, maxTracked).since, maxTracked)
  }

  /** Whenever the poller owns production with a probation running, that probation names
      the clock of an evaluation since which every look was healthy. */
  lemma {:induction false} ProbationHasHistory(a: Authority, run: seq<Event>, maxTracked: nat)
    requires a.owner == Poll && a.healthySince == None
    requires Chronological(run) && (run != [] ==> a.since <= Time(run[0]))
    requires After(a, run, maxTracked).owner == Poll && After(a, run, maxTracked).healthySince.Some?
    ensures exists from: nat :: BeganAt(a, run, from, maxTracked)
  {
    var n := |run| - 1;
    var before, last := After(a, run[..n], maxTracked), run[n];
    WsOwnershipIsJustified(a, run[..n], maxTracked);
    assert run[..|run|] == run;
    assert last.Evaluate? && last.look.enabled && Fresh(last.look) && before.owner == Poll;
    if before.healthySince.Some? {
      ProbationHasHistory(a, run[..n], maxTracked);
      var from: nat :| BeganAt(a, run[..n], from, maxTracked);
      ProbationExtends(a, run, from, maxTracked);
    } else {
      SinceIsPast(a, run[..n], Time(last), maxTracked);
      assert BeganAt(a, run, n, maxTracked);
    }
  }

  lemma ProbationExtends(a: Authority, run: seq<Event>, from: nat, maxTracked: nat)
    requires run != [] && BeganAt(a, run[..|run| - 1], from, maxTracked)
    requires var last := run[|run| - 1]; last.Evaluate? && last.look.enabled && Fresh(last.look)
    requires After(a, run[..|run| - 1], maxTracked).owner == Poll == After(a, run, maxTracked).owner
    ensures BeganAt(a, run, from, maxTracked)
  {
    var n, end := |run| - 1, After(a, run, maxTracked);
    var before := run[..n];
    var standing := After(a, before, maxTracked);
    assert end == Decide(standing, run[n].look, maxTracked);
    ProbationGoesOn(standing, run[n].look, maxTracked);
    PrefixHealth(a, run, n, from, standing.since, maxTracked);
    assert HealthyAt(a, run, n, standing.since, maxTracked);
    assert HealthyThroughout(a, run, from, |run|, end.since, maxTracked);
    assert before[from] == run[from];
  }

  /** A healthy look that does not promote leaves a running probation as it was. */
  lemma ProbationGoesOn(a: Authority, look: Look, maxTracked: nat)
    requires a.owner == Poll == Decide(a, look, maxTracked).owner && look.enabled && Fresh(look)
    ensures Decide(a, look, maxTracked).since == a.since
    ensures a.healthySince.Some? ==> Decide(a, look, maxTracked).healthySince == a.healthySince
  {
  }

  lemma PrefixHealth(a: Authority, run: seq<Event>, cut: nat, from: nat, since: int, maxTracked: nat)
    requires from <= cut <= |run| && HealthyThroughout(a, run[..cut], from, cut, since, maxTracked)
    ensures HealthyThroughout(a, run, from, cut, since, maxTracked)
  {
    forall i | from <= i < cut
      ensures HealthyAt(a, run, i, since, maxTracked)
    {
      assert HealthyAt(a, run[..cut], i, since, maxTracked);
      assert run[..cut][..i] == run[..i];
    }
  }

  lemma {:induction false} SinceIsPast(a: Authority, run: seq<Event>, now: int, maxTracked: nat)
    requires Chronological(run)
    requires a.since <= now && forall i :: 0 <= i < |run| ==> Time(run[i]) <= now
    ensures After(a, run, maxTracked).since <= now
  {
    if run != [] {
      SinceIsPast(a, run[..|run| - 1], now, maxTracked);
    }
  }

  lemma PromotionConditions(before: Authority, e: Event, maxTracked: nat)
    requires Promotes(before, Next(before, e, maxTracked))
    ensures e.Evaluate? && e.look.enabled && Fresh(e.look) && before.healthySince.Some?
    ensures before.healthySince.value <= e.look.now - WS_RECOVERY
    ensures |e.look.tracked| <= maxTracked && AllResynced(e.look, before.since)
  {
  }

  /** The promotion that ends `run` was earned by a probation begun at `from`. */
  ghost predicate EarnedFrom(a: Authority, run: seq<Event>, from: nat, maxTracked: nat)
    requires run != []
  {
    var n := |run| - 1;
    var since, last := After(a, run[..n], maxTracked).since, run[n];
    && from < n && run[from].Evaluate? && last.Evaluate?
    && HealthyThroughout(a, run, from, n, since, maxTracked)
    && since <= run[from].look.now <= last.look.now - 300_000_000
    && last.look.enabled && Alive(last.look)
    && |last.look.tracked| <= maxTracked && AllResynced(last.look, since)
  }

  /** The handback is earned. The websocket gains production only at an evaluation that
      follows at least 300 seconds of evaluations, none of them disabled or stale, begun
      after the last transfer; and only when the whole poll set fits one address and has
      resynced since that transfer. */
  lemma PromotionIsEarned(a: Authority, run: seq<Event>, maxTracked: nat)
    requires a.owner == Poll && a.healthySince == None
    requires Chronological(run) && run != [] && a.since <= Time(run[0])
    requires Promotes(After(a, run[..|run| - 1], maxTracked), After(a, run, maxTracked))
    ensures exists from: nat :: EarnedFrom(a, run, from, maxTracked)
  {
    var before := run[..|run| - 1];
    PromotionConditions(After(a, before, maxTracked), run[|run| - 1], maxTracked);
    forall i, j | 0 <= i < j < |before| ensures Time(before[i]) <= Time(before[j]) {
      assert before[i] == run[i] && before[j] == run[j];
    }
    assert before != [] ==> before[0] == run[0];
    ProbationHasHistory(a, before, maxTracked);
    var from: nat :| BeganAt(a, before, from, maxTracked);
    PrefixHealth(a, run, |before|, from, After(a, before, maxTracked).since, maxTracked);
    assert before[from] == run[from];
    assert EarnedFrom(a, run, from, maxTracked);
  }

  /** A probation that has been healthy since `from` is at least that old. */
  lemma {:induction false} HealthyRunAges(a: Authority, run: seq<Event>, from: nat, n: nat, since: int, maxTracked: nat)
    requires from < n <= |run| && Chronological(run) && HealthyThroughout(a, run, from, n, since, maxTracked)
    requires After(a, run[..n], maxTracked).owner == Poll && run[from].Evaluate?
    requires a.owner == Poll && (a.healthySince.Some? ==> a.healthySince.value <= Time(run[0]))
    ensures var standing := After(a, run[..n], maxTracked);
            standing.healthySince.Some? && standing.healthySince.value <= run[from].look.now
    decreases n
  {
    var last := run[n - 1];
    var before := After(a, run[..n - 1], maxTracked);
    assert HealthyAt(a, run, n - 1, since, maxTracked);
    assert run[..n][..n - 1] == run[..n - 1];
    assert After(a, run[..n], maxTracked) == Decide(before, last.look, maxTracked);
    if n - 1 > from {
      HealthyRunAges(a, run, from, n - 1, since, maxTracked);
    } else {
      ProbationIsPast(a, run, n - 1, maxTracked);
    }
  }

  lemma {:induction false} ProbationIsPast(a: Authority, run: seq<Event>, n: nat, maxTracked: nat)
    requires n < |run| && Chronological(run)
    requires a.healthySince.Some? ==> a.healthySince.value <= Time(run[0])
    ensures var standing := After(a, run[..n], maxTracked);
            standing.healthySince.Some? ==> standing.healthySince.value <= Time(run[n])
  {
    if n > 0 {
      ProbationIsPast(a, run, n - 1, maxTracked);
      assert run[..n][..n - 1] == run[..n - 1];
    }
  }

  /** And an earned handback happens, whatever took production away: with the poller owning
      before the last transaction, the websocket gains production if and only if that
      transaction ends such a probation. */
  lemma PromotionIffEarned(a: Authority, run: seq<Event>, maxTracked: nat)
    requires a.owner == Poll && a.healthySince == None
    requires Chronological(run) && run != [] && a.since <= Time(run[0])
    requires After(a, run[..|run| - 1], maxTracked).owner == Poll
    ensures After(a, run, maxTracked).owner == Ws <==> exists from: nat :: EarnedFrom(a, run, from, maxTracked)
  {
    var n := |run| - 1;
    var standing, last := After(a, run[..n], maxTracked), run[n];
    if After(a, run, maxTracked).owner == Ws { PromotionIsEarned(a, run, maxTracked); }
    if exists from: nat :: EarnedFrom(a, run, from, maxTracked) {
      var from: nat :| EarnedFrom(a, run, from, maxTracked);
      HealthyRunAges(a, run, from, n, standing.since, maxTracked);
      EvaluationMoves(standing, last.look, maxTracked);
    }
  }

  // ---------------------------------------------------------------------------
  // Anti-thrash
  // ---------------------------------------------------------------------------

  /** The clocks at which a run promotes the websocket. */
  function Promotions(a: Authority, run: seq<Event>, maxTracked: nat): seq<int>
    decreases run
  {
    if run == [] then []
    else
      var next := Next(a, run[0], maxTracked);
      (if Promotes(a, next) then [Time(run[0])] else []) + Promotions(next, run[1..], maxTracked)
  }

  /** So many recovery windows, in microseconds. */
  function Recoveries(n: int): int { n * 300_000_000 }

  /** No promotion comes within 300 seconds of `floor`, a clock no later than the run and
      any probation already standing; and the k-th comes no sooner than k times that. */
  lemma {:induction false} PromotionsSpaced(a: Authority, run: seq<Event>, maxTracked: nat, floor: int, end: int)
    requires Chronological(run)
    requires forall i :: 0 <= i < |run| ==> floor <= Time(run[i]) <= end
    requires a.healthySince.Some? ==> a.owner == Poll && floor <= a.healthySince.value
    ensures floor <= end ==> floor + Recoveries(|Promotions(a, run, maxTracked)|) <= end
    decreases run
  {
    if run != [] {
      var next := Next(a, run[0], maxTracked);
      PromotionsSpaced(next, run[1..], maxTracked, if Promotes(a, next) then Time(run[0]) else floor, end);
    }
  }

  /** In any stretch of any run whose clocks span `length` microseconds, the websocket is
      promoted at most 1 + length/300 s times, whatever else happens in between. */
  lemma {:induction false} PromotionsAreRare(a: Authority, run: seq<Event>, maxTracked: nat, start: int, length: nat)
    requires Chronological(run)
    requires forall i :: 0 <= i < |run| ==> start <= Time(run[i]) <= start + length
    requires a.owner == Ws ==> a.healthySince == None
    ensures Recoveries(|Promotions(a, run, maxTracked)| - 1) <= length
    decreases run
  {
    if run != [] {
      var next := Next(a, run[0], maxTracked);
      if Promotes(a, next) {
        PromotionsSpaced(next, run[1..], maxTracked, Time(run[0]), start + length);
      } else {
        PromotionsAreRare(next, run[1..], maxTracked, start, length);
      }
    }
  }

  // ---------------------------------------------------------------------------
  // The row and its transactions
  // ---------------------------------------------------------------------------

  /** The `lane_authority` table: one row at most. An absent row means the poll pass. */
  class LaneAuthorityRow {
    var row: Option<Authority>

    constructor (row: Option<Authority>)
      ensures this.row == row
    {
      this.row := row;
    }

    function Standing(): (a: Authority)
      reads this
    {
      row.GetOr(UNRECORDED)
    }

    method TakeOwnership(owner: Owner, reason: Reason, now: int) returns (a: Authority)
      modifies this
      ensures row == Some(a) && a == Transferred(owner, reason, now)
    {
      row := Some(Authority(owner, now, reason, None));
      a := row.value;
    }

    method RecordProbation(standing: Authority, healthySince: Option<int>) returns (a: Authority)
      requires standing == Standing()
      modifies this
      ensures a == OnProbation(standing, healthySince) == Standing()
      ensures healthySince == standing.healthySince ==> row == old(row)
    {
      if standing.healthySince == healthySince { return standing; }
      row := Some(standing.(healthySince := healthySince));
      a := row.value;
    }

    /** One position cycle's decision, transferred in the same transaction. */
    method EvaluateAuthority(look: Look, maxTracked: nat) returns (a: Authority)
      modifies this
      ensures a == Standing() == Next(old(Standing()), Evaluate(look), maxTracked)
    {
      var authority := Standing();
      if !look.enabled {
        if authority.owner == Ws || authority.reason != Disabled {
          a := TakeOwnership(Poll, Disabled, look.now);
        } else {
          a := RecordProbation(authority, None);
        }
        return;
      }
      if authority.owner == Ws {
        if !Fresh(look) {
          a := TakeOwnership(Poll, Stale, look.now);
        } else if !Fits(look, maxTracked) {
          a := TakeOwnership(Poll, Outgrown, look.now);
        } else {
          a := authority;
        }
        return;
      }
      if !Fresh(look) {
        a := RecordProbation(authority, None);
        return;
      }
      authority := RecordProbation(authority, Some(authority.healthySince.GetOr(look.now)));
      if look.now - authority.healthySince.value < WS_RECOVERY { return authority; }
      var blocked := HandbackBlocked(look, authority.since, maxTracked);
      if blocked { return authority; }
      a := TakeOwnership(Ws, Recovered, look.now);
    }

    /** Why production may not go back yet: the poll set does not fit, or some wallet has
        not resynced since production moved. */
    static method HandbackBlocked(look: Look, since: int, maxTracked: nat) returns (blocked: bool)
      ensures blocked <==> |look.tracked| > maxTracked || !AllResynced(look, since)
    {
      if |look.tracked| > maxTracked { return true; }
      var unresynced := 0;
      for i := 0 to |look.tracked|
        invariant unresynced <= i
        invariant unresynced == 0 <==>
                  forall j :: 0 <= j < i ==>
                      look.tracked[j] in look.resyncedAt && since <= look.resyncedAt[look.tracked[j]]
      {
        var trader := look.tracked[i];
        if trader !in look.resyncedAt || look.resyncedAt[trader] < since { unresynced := unresynced + 1; }
      }
      blocked := unresynced > 0;
    }
  }
}
