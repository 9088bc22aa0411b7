// What the recorded position events say about a whole run of observations
// (src/epigone/position_diff.py, src/epigone/position_snapshots.py): the log replays to
// the memory, and what silence can hide.
module PositionHistory {
  import opened Wrappers
  import opened KeyedDiff
  import opened PositionDiff

  /** One complete look at a Trader. */
  datatype Observation = Observation(current: map<Coin, Position>, now: int)

  /** A recorded event and when it was observed. */
  datatype Stamped = Stamped(event: PositionEvent, at: int)

  // ---------------------------------------------------------------------------
  // The recorded log
  // ---------------------------------------------------------------------------

  /** Memory as the lane writes it: each pass's decisions applied to what the last one left. */
  function MemoryRun(memory: map<Coin, Snapshot>, diffs: seq<seq<CoinChange>>): map<Coin, Snapshot>
    decreases diffs
  {
    if diffs == [] then memory
    else MemoryRun(AllApplied(memory, diffs[0], Replace()), diffs[1..])
  }

  /** `diffs` are the decisions a lane took over `obs`, from `memory`. */
  ghost predicate Diffed(memory: map<Coin, Snapshot>, obs: seq<Observation>, diffs: seq<seq<CoinChange>>)
    decreases obs
  {
    && |diffs| == |obs|
    && (obs != [] ==>
          && IsDiff(memory, obs[0].current, Decider(obs[0].now), diffs[0])
          && Diffed(AllApplied(memory, diffs[0], Replace()), obs[1..], diffs[1..]))
  }

  function StampAll(events: seq<PositionEvent>, at: int): seq<Stamped> {
    if events == [] then [] else [Stamped(events[0], at)] + StampAll(events[1..], at)
  }

  /** The events recorded over a run about one coin, in the order they were written. */
  function LogAbout(obs: seq<Observation>, diffs: seq<seq<CoinChange>>, c: Coin): seq<Stamped>
    requires |diffs| == |obs|
  {
    if obs == [] then []
    else StampAll(About(NewsOf(diffs[0]), c), obs[0].now) + LogAbout(obs[1..], diffs[1..], c)
  }

  /** One coin's events over a run, decided from its own past alone. */
  function CoinLog(was: Option<Snapshot>, obs: seq<Observation>, c: Coin): seq<Stamped>
    decreases obs
  {
    if obs == [] then []
    else
      var observed, now := Look(obs[0].current, c), obs[0].now;
      Decided(c, was, observed, now) + CoinLog(Advance(was, observed, now), obs[1..], c)
  }

  function Decided(c: Coin, was: Option<Snapshot>, observed: Option<Position>, now: int): seq<Stamped> {
    StampAll(AsSeq(Decide(c, was, observed, now).event), now)
  }

  /** What memory holds of one coin after a run. */
  function LastSeen(was: Option<Snapshot>, obs: seq<Observation>, c: Coin): Option<Snapshot>
    decreases obs
  {
    if obs == [] then was else LastSeen(Advance(was, Look(obs[0].current, c), obs[0].now), obs[1..], c)
  }

  lemma CoinNews(previous: map<Coin, Snapshot>, o: Observation, changes: seq<CoinChange>, c: Coin)
    requires IsDiff(previous, o.current, Decider(o.now), changes)
    ensures About(NewsOf(changes), c) == AsSeq(Decide(c, Look(previous, c), Look(o.current, c), o.now).event)
  {
    NewsAbout(previous, o.current, Decider(o.now), changes, c);
    if c !in previous && c !in o.current {
      assert forall i :: 0 <= i < |changes| ==> Owed(previous, o.current, Decider(o.now), changes[i]);
      assert !Mentions(changes, c);
    }
  }

  lemma DiffNewsAbout(previous: map<Coin, Snapshot>, o: Observation, changes: seq<CoinChange>, c: Coin)
    requires IsDiff(previous, o.current, Decider(o.now), changes)
    ensures StampAll(About(NewsOf(changes), c), o.now) == Decided(c, Look(previous, c), Look(o.current, c), o.now)
  {
    CoinNews(previous, o, changes, c);
  }

  /** Whatever order the lane wrote its decisions in, what its log says of a coin is that
      coin's own history: no other coin interferes. */
  lemma {:induction false} LogIsPerCoin(memory: map<Coin, Snapshot>, obs: seq<Observation>,
      diffs: seq<seq<CoinChange>>, c: Coin)
    requires Diffed(memory, obs, diffs)
    ensures LogAbout(obs, diffs, c) == CoinLog(Look(memory, c), obs, c)
    ensures Look(MemoryRun(memory, diffs), c) == LastSeen(Look(memory, c), obs, c)
    decreases obs
  {
    if obs != [] {
      var next := AllApplied(memory, diffs[0], Replace());
      AppliedDiffIsObservation(memory, obs[0].current, obs[0].now, diffs[0]);
      assert Look(next, c) == Advance(Look(memory, c), Look(obs[0].current, c), obs[0].now);
      LogIsPerCoin(next, obs[1..], diffs[1..], c);
      DiffNewsAbout(memory, obs[0], diffs[0], c);
    }
  }

  // ---------------------------------------------------------------------------
  // What each event says
  // ---------------------------------------------------------------------------

  /** A return on margin: what was made on what the position's notional takes at its
      leverage; none on nothing. */
  predicate IsReturn(r: Option<real>, pnl: real, sizeUsd: real, leverage: real) {
    (r.None? <==> sizeUsd == 0.0) && (r.Some? ==> r.value * sizeUsd == pnl * leverage)
  }

  /** The leg an event opens, or resizes: the observation's own. */
  predicate TellsLeg(e: PositionEvent, p: Position) {
    && e.coin == p.coin && e.side == Some(p.side) && e.sizeUsd == Some(p.sizeUsd) && e.sizeCoin == p.sizeCoin
    && e.leverage == Some(p.leverage) && e.entryPrice == Some(p.entryPrice)
  }

  /** The leg an event closes: memory's own. */
  predicate TellsClosed(e: PositionEvent, s: Snapshot) {
    && e.prevSide == Some(s.side) && e.realizedPnl == Some(s.unrealizedPnl) && e.openedAt == Some(s.openedAt)
    && IsReturn(e.pctReturn, s.unrealizedPnl, s.sizeUsd, s.leverage)
  }

  /** Nothing is closed or resized. */
  predicate ClosesNothing(e: PositionEvent) {
    e.prevSide == None && e.realizedPnl == None && e.pctReturn == None && e.openedAt == None && e.prevSizeUsd == None
  }

  predicate TellsScale(e: PositionEvent, s: Snapshot, p: Position) {
    && TellsLeg(e, p) && e.openedAt == Some(s.openedAt)
    && e.prevSizeUsd == Some(s.sizeUsd) && e.prevSizeCoin == s.sizeCoin && e.prevSide == None
    && e.realizedPnl == None
    && (if p.returnOnEquity.Some? then e.pctReturn == p.returnOnEquity
        else if p.marginUsed.Some? then IsReturn(e.pctReturn, p.unrealizedPnl, p.marginUsed.value, 1.0)
        else IsReturn(e.pctReturn, p.unrealizedPnl, p.sizeUsd, p.leverage))
  }

  /** What one look at a coin makes news of, from the position remembered and the position
      found: an open, a close or a flip when the side changed, and otherwise a scale exactly
      when the dollar size moved by a quarter of what it was, in when it grew and out when it
      shrank. */
  predicate TellsTruly(was: Option<Snapshot>, observed: Option<Position>, news: seq<PositionEvent>) {
    if was.None? && observed.None? then news == []
    else if was.None? then
      |news| == 1 && news[0].kind == Open && TellsLeg(news[0], observed.value) && ClosesNothing(news[0])
    else if observed.None? then
      && |news| == 1 && news[0].kind == Close && TellsClosed(news[0], was.value)
      && news[0].coin == was.value.coin && news[0].side == None
      && news[0].sizeUsd == Some(was.value.sizeUsd) && news[0].sizeCoin == was.value.sizeCoin
    else if was.value.side != observed.value.side then
      && |news| == 1 && news[0].kind == Flip
      && TellsLeg(news[0], observed.value) && TellsClosed(news[0], was.value)
    else
      var before, after := was.value.sizeUsd, observed.value.sizeUsd;
      if before > 0.0 && after >= 1.25 * before then
        |news| == 1 && news[0].kind == ScaleIn && TellsScale(news[0], was.value, observed.value)
      else if before > 0.0 && after <= 0.75 * before then
        |news| == 1 && news[0].kind == ScaleOut && TellsScale(news[0], was.value, observed.value)
      else news == []
  }

  lemma ReturnOver(pnl: real, sizeUsd: real, leverage: real)
    requires leverage > 0.0
    ensures sizeUsd / leverage == 0.0 <==> sizeUsd == 0.0
    ensures sizeUsd != 0.0 ==> pnl / (sizeUsd / leverage) * sizeUsd == pnl * leverage
  {
    var margin := sizeUsd / leverage;
    assert margin * leverage == sizeUsd;
    if sizeUsd != 0.0 {
      var r := pnl / margin;
      assert r * margin == pnl;
      assert r * sizeUsd == r * margin * leverage;
    }
  }

  lemma SignificantIsAQuarter(before: real, after: real)
    ensures Significant(before, after) <==> before > 0.0 && (after >= 1.25 * before || after <= 0.75 * before)
  {
    if before > 0.0 { ThresholdCleared(Abs(after - before), before); }
  }

  lemma DecisionTells(c: Coin, was: Option<Snapshot>, observed: Option<Position>, now: int)
    ensures TellsTruly(was, observed, AsSeq(Decide(c, was, observed, now).event))
  {
    if was.Some? {
      var s := was.value;
      ReturnOver(s.unrealizedPnl, s.sizeUsd, s.leverage);
      if observed.Some? {
        var p := observed.value;
        SignificantIsAQuarter(s.sizeUsd, p.sizeUsd);
        ReturnOver(p.unrealizedPnl, p.sizeUsd, p.leverage);
        ReturnOver(p.unrealizedPnl, p.marginUsed.GetOr(0.0), 1.0);
      }
    }
  }

  /** Every look of every run tells truly of each coin: its events, their kinds and every size
      in them, against what memory held as the look was taken. */
  lemma {:induction false} EveryLookTellsTruly(memory: map<Coin, Snapshot>, obs: seq<Observation>,
      diffs: seq<seq<CoinChange>>, c: Coin, i: nat)
    requires Diffed(memory, obs, diffs) && i < |obs|
    ensures TellsTruly(Look(MemoryRun(memory, diffs[..i]), c), Look(obs[i].current, c), About(NewsOf(diffs[i]), c))
    decreases i
  {
    if i == 0 {
      LookTells(memory, obs[0], diffs[0], c);
    } else {
      EveryLookTellsTruly(AllApplied(memory, diffs[0], Replace()), obs[1..], diffs[1..], c, i - 1);
      assert diffs[..i][1..] == diffs[1..][..i - 1];
    }
  }

  lemma LookTells(memory: map<Coin, Snapshot>, o: Observation, changes: seq<CoinChange>, c: Coin)
    requires IsDiff(memory, o.current, Decider(o.now), changes)
    ensures TellsTruly(Look(memory, c), Look(o.current, c), About(NewsOf(changes), c))
  {
    DecisionTells(c, Look(memory, c), Look(o.current, c), o.now);
    CoinNews(memory, o, changes, c);
  }

  /** Memory has the position as it was seen. */
  predicate Remembers(s: Snapshot, p: Position) {
    && s.coin == p.coin && s.side == p.side && s.sizeUsd == p.sizeUsd && s.sizeCoin == p.sizeCoin
    && s.leverage == p.leverage && s.entryPrice == p.entryPrice && s.unrealizedPnl == p.unrealizedPnl
  }

  /** Memory is what the look before saw, so an event's previous sizes are that look's. */
  lemma {:induction false} MemoryIsTheLookBefore(memory: map<Coin, Snapshot>, obs: seq<Observation>,
      diffs: seq<seq<CoinChange>>, c: Coin, i: nat)
    requires Diffed(memory, obs, diffs) && 0 < i <= |obs|
    ensures var held, seen := Look(MemoryRun(memory, diffs[..i]), c), Look(obs[i - 1].current, c);
            && (held.Some? <==> seen.Some?)
            && (held.Some? ==> Remembers(held.value, seen.value))
    decreases i
  {
    var next := AllApplied(memory, diffs[0], Replace());
    assert diffs[..i][1..] == diffs[1..][..i - 1];
    if i == 1 {
      AppliedDiffIsObservation(memory, obs[0].current, obs[0].now, diffs[0]);
      assert diffs[..1][1..] == [] && MemoryRun(memory, diffs[..1]) == next;
    } else {
      MemoryIsTheLookBefore(next, obs[1..], diffs[1..], c, i - 1);
    }
  }

  // ---------------------------------------------------------------------------
  // Replaying a coin's log
  // ---------------------------------------------------------------------------

  /** What a reader of the log believes of one coin: nothing held, or a side held since
      the clock of its open, its last flip, or the baseline. */
  datatype Track = Flat | Holding(side: Side, since: int)

  /** The only moves a log may make: a word open (scale | flip)* close, each close, flip
      and scale naming the side it acts on and the clock that position opened at. */
  function Follow(track: Track, e: Stamped): Option<Track> {
    match e.event.kind
    case Open => if track.Flat? && e.event.side.Some? then Some(Holding(e.event.side.value, e.at)) else None
    case Close =>
      if track.Holding? && e.event.prevSide == Some(track.side) && e.event.openedAt == Some(track.since)
      then Some(Flat) else None
    case Flip =>
      if track.Holding? && e.event.prevSide == Some(track.side) && e.event.openedAt == Some(track.since)
         && e.event.side.Some? && e.event.side.value != track.side
      then Some(Holding(e.event.side.value, e.at)) else None
    case _ =>
      if track.Holding? && e.event.side == Some(track.side) && e.event.openedAt == Some(track.since)
      then Some(track) else None
  }

  function Replay(track: Track, log: seq<Stamped>): Option<Track>
    decreases log
  {
    if log == [] then Some(track)
    else
      var next := Follow(track, log[0]);
      if next.None? then None else Replay(next.value, log[1..])
  }

  function TrackOf(was: Option<Snapshot>): Track {
    if was.None? then Flat else Holding(was.value.side, was.value.openedAt)
  }

  /** One observation moves the reader of the log exactly as it moves memory. */
  lemma StepReplays(c: Coin, was: Option<Snapshot>, observed: Option<Position>, now: int)
    ensures Replay(TrackOf(was), Decided(c, was, observed, now)) == Some(TrackOf(Advance(was, observed, now)))
  {
    var event := Decide(c, was, observed, now).event;
    if event.Some? {
      assert AsSeq(event)[1..] == [] && StampAll([], now) == [];
      assert Decided(c, was, observed, now) == [Stamped(event.value, now)];
      assert Follow(TrackOf(was), Stamped(event.value, now)) == Some(TrackOf(Advance(was, observed, now)));
    }
  }

  lemma {:induction false} ReplayConcat(track: Track, a: seq<Stamped>, b: seq<Stamped>)
    requires Replay(track, a).Some?
    ensures Replay(track, a + b) == Replay(Replay(track, a).value, b)
    decreases a
  {
    if a == [] {
      assert a + b == b;
    } else {
      assert (a + b)[0] == a[0] && (a + b)[1..] == a[1..] + b;
      ReplayConcat(Follow(track, a[0]).value, a[1..], b);
    }
  }

  lemma {:induction false} CoinLogReplays(was: Option<Snapshot>, obs: seq<Observation>, c: Coin)
    ensures Replay(TrackOf(was), CoinLog(was, obs, c)) == Some(TrackOf(LastSeen(was, obs, c)))
    decreases obs
  {
    if obs != [] {
      var observed, now := Look(obs[0].current, c), obs[0].now;
      var next := Advance(was, observed, now);
      StepReplays(c, was, observed, now);
      CoinLogReplays(next, obs[1..], c);
      ReplayConcat(TrackOf(was), Decided(c, was, observed, now), CoinLog(next, obs[1..], c));
    }
  }

  /** Memory, event log and observed world agree. After any sequence of complete
      observations from any baseline, every coin's events are a legal word whose replay is
      exactly what memory holds, side and opening clock included; and memory's coins are
      the last observation's. */
  lemma LogReplaysToMemory(memory: map<Coin, Snapshot>, obs: seq<Observation>, diffs: seq<seq<CoinChange>>, c: Coin)
    requires Diffed(memory, obs, diffs)
    ensures Replay(TrackOf(Look(memory, c)), LogAbout(obs, diffs, c))
            == Some(TrackOf(Look(MemoryRun(memory, diffs), c)))
  {
    LogIsPerCoin(memory, obs, diffs, c);
    CoinLogReplays(Look(memory, c), obs, c);
  }

  /** Whatever was decided and written on the way, memory after a run holds exactly the last
      observation, position for position. */
  lemma MemoryIsLastObservation(memory: map<Coin, Snapshot>, obs: seq<Observation>, diffs: seq<seq<CoinChange>>,
      c: Coin)
    requires obs != [] && Diffed(memory, obs, diffs)
    ensures var last, end := obs[|obs| - 1].current, MemoryRun(memory, diffs);
            && (c in end <==> c in last)
            && (c in end ==> Remembers(end[c], last[c]))
  {
    MemoryIsTheLookBefore(memory, obs, diffs, c, |obs|);
    assert diffs[..|obs|] == diffs;
  }

  // ---------------------------------------------------------------------------
  // What silence can hide
  // ---------------------------------------------------------------------------

  function Power(base: real, n: nat): (p: real)
    requires base > 0.0
    ensures p > 0.0
  {
    if n == 0 then 1.0 else base * Power(base, n - 1)
  }

  /** Within (3/4)^n to (5/4)^n of `before`. */
  ghost predicate WithinDrift(before: real, n: nat, after: real) {
    before * Power(0.75, n) <= after <= before * Power(1.25, n)
  }

  /** Silence is per step: while a coin with a positive size produces no event over n
      observations it is still held, on the same side since the same clock, and its size
      stayed within (3/4)^n to (5/4)^n of where it was. */
  lemma {:induction false} SilentDrift(was: Snapshot, obs: seq<Observation>, c: Coin)
    requires was.sizeUsd > 0.0
    requires CoinLog(Some(was), obs, c) == []
    ensures var end := LastSeen(Some(was), obs, c);
            && end.Some? && TrackOf(end) == TrackOf(Some(was))
            && WithinDrift(was.sizeUsd, |obs|, end.value.sizeUsd)
    decreases obs
  {
    if obs != [] {
      var next := SilentStep(was, obs, c);
      InsignificantStep(was.sizeUsd, next.sizeUsd);
      SilentDrift(next, obs[1..], c);
      Compounds(was.sizeUsd, next.sizeUsd, |obs| - 1, LastSeen(Some(was), obs, c).value.sizeUsd);
    }
  }

  lemma SilentStep(was: Snapshot, obs: seq<Observation>, c: Coin) returns (next: Snapshot)
    requires obs != [] && CoinLog(Some(was), obs, c) == []
    ensures Some(next) == Advance(Some(was), Look(obs[0].current, c), obs[0].now)
    ensures CoinLog(Some(next), obs[1..], c) == []
    ensures LastSeen(Some(was), obs, c) == LastSeen(Some(next), obs[1..], c)
    ensures TrackOf(Some(next)) == TrackOf(Some(was)) && !Significant(was.sizeUsd, next.sizeUsd)
  {
    var observed, now := Look(obs[0].current, c), obs[0].now;
    assert Decided(c, Some(was), observed, now) == [];
    assert Decide(c, Some(was), observed, now).event == None;
    next := Advance(Some(was), observed, now).value;
  }

  lemma InsignificantStep(before: real, after: real)
    requires before > 0.0 && !Significant(before, after)
    ensures 0.75 * before < after < 1.25 * before
  {
    ThresholdCleared(Abs(after - before), before);
  }

  lemma ThresholdCleared(change: real, before: real)
    requires before > 0.0
    ensures change / before >= SCALE_SIGNIFICANCE_THRESHOLD <==> change >= 0.25 * before
  {
    var ratio := change / before;
    assert ratio * before == change;
    if ratio >= 0.25 { assert (ratio - 0.25) * before >= 0.0; }
    if ratio < 0.25 { assert (0.25 - ratio) * before > 0.0; }
  }

  lemma Compounds(before: real, next: real, n: nat, after: real)
    requires 0.75 * before < next < 1.25 * before
    requires WithinDrift(next, n, after)
    ensures WithinDrift(before, n + 1, after)
  {
    var down, up := Power(0.75, n), Power(1.25, n);
    assert (next - 0.75 * before) * down >= 0.0;
    assert (1.25 * before - next) * up >= 0.0;
  }

  function OneLook(p: Position, size: real): (o: Observation)
  {
    Observation(map[p.coin := p.(sizeUsd := size)], 0)
  }

  /** The bound is what the rule permits, not slack: a position can grow by 90% in three
      looks, each under the threshold, and no event says so. */
  lemma SilentGrowth(p: Position)
    requires p.sizeUsd == 100.0
    ensures var obs, was := [OneLook(p, 124.0), OneLook(p, 153.0), OneLook(p, 190.0)], Some(Remembered(p, 0));
            && CoinLog(was, obs, p.coin) == []
            && LastSeen(was, obs, p.coin) == Some(Remembered(p.(sizeUsd := 190.0), 0))
  {
    var o1, o2, o3 := OneLook(p, 124.0), OneLook(p, 153.0), OneLook(p, 190.0);
    QuietLook(p, 100.0, 124.0, [o2, o3]);
    QuietLook(p, 124.0, 153.0, [o3]);
    QuietLook(p, 153.0, 190.0, []);
    assert [o1, o2, o3] == [o1] + [o2, o3] && [o2, o3] == [o2] + [o3] && [o3] == [o3] + [];
  }

  lemma QuietLook(p: Position, before: real, after: real, rest: seq<Observation>)
    requires 0.0 < before && !Significant(before, after)
    ensures var was := Some(Remembered(p.(sizeUsd := before), 0));
            var next := Some(Remembered(p.(sizeUsd := after), 0));
            && CoinLog(was, [OneLook(p, after)] + rest, p.coin) == CoinLog(next, rest, p.coin)
            && LastSeen(was, [OneLook(p, after)] + rest, p.coin) == LastSeen(next, rest, p.coin)
  {
    var was, o := Some(Remembered(p.(sizeUsd := before), 0)), OneLook(p, after);
    assert ([o] + rest)[1..] == rest;
    assert Look(o.current, p.coin) == Some(p.(sizeUsd := after));
    assert Decided(p.coin, was, Look(o.current, p.coin), o.now) == [];
    var tail := CoinLog(Advance(was, Look(o.current, p.coin), o.now), rest, p.coin);
    assert [] + tail == tail;
  }
}
