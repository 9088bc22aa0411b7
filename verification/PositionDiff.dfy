// What a Trader did, from two observations of their positions
// (src/epigone/position_diff.py), and the memory a lane keeps to diff against
// (src/epigone/position_snapshots.py).
module PositionDiff {
  import opened Wrappers
  import opened KeyedDiff

  type Coin = string
  type Address = string

  /** Leverage is always positive for an open position. */
  type Leverage = x: real | x > 0.0 witness 1.0

  const SCALE_SIGNIFICANCE_THRESHOLD := 0.25

  datatype Side = Long | Short

  /** One coin as the exchange reports it. */
  datatype Position = Position(coin: Coin, side: Side, sizeUsd: real, leverage: Leverage,
                               entryPrice: real, unrealizedPnl: real, sizeCoin: Option<real>,
                               marginUsed: Option<real>, returnOnEquity: Option<real>)
  {
    function Margin(): real { marginUsed.GetOr(sizeUsd / leverage) }

    function ReturnOnMargin(): Option<real> {
      if returnOnEquity.Some? then returnOnEquity
      else if Margin() == 0.0 then None else Some(unrealizedPnl / Margin())
    }
  }

  /** One coin's last observed position: a lane's memory of it. */
  datatype Snapshot = Snapshot(coin: Coin, side: Side, sizeUsd: real, leverage: Leverage,
                               entryPrice: real, unrealizedPnl: real, openedAt: int, sizeCoin: Option<real>)

  datatype Kind = Open | Close | Flip | ScaleIn | ScaleOut

  /** The new leg in `side`..`entryPrice`, the closed leg in `prevSide`..`openedAt`. */
  datatype PositionEvent = PositionEvent(
    kind: Kind, coin: Coin, side: Option<Side>, sizeUsd: Option<real>, sizeCoin: Option<real>,
    prevSizeUsd: Option<real>, prevSizeCoin: Option<real>, leverage: Option<real>,
    entryPrice: Option<real>, prevSide: Option<Side>, realizedPnl: Option<real>,
    pctReturn: Option<real>, openedAt: Option<int>)

  /** The decision about one coin. No event is a silent update. What to keep is the
      position with the clock it opened at; nothing for a close. */
  type CoinChange = Change<Coin, PositionEvent, Snapshot>

  // ---------------------------------------------------------------------------
  // Event builders
  // ---------------------------------------------------------------------------

  function SnapshotReturn(s: Snapshot): Option<real> {
    var margin := s.sizeUsd / s.leverage;
    if margin == 0.0 then None else Some(s.unrealizedPnl / margin)
  }

  function OpenEvent(p: Position): PositionEvent {
    PositionEvent(Open, p.coin, Some(p.side), Some(p.sizeUsd), p.sizeCoin, None, None,
                  Some(p.leverage), Some(p.entryPrice), None, None, None, None)
  }

  function CloseEvent(s: Snapshot): PositionEvent {
    PositionEvent(Close, s.coin, None, Some(s.sizeUsd), s.sizeCoin, None, None, None, None,
                  Some(s.side), Some(s.unrealizedPnl), SnapshotReturn(s), Some(s.openedAt))
  }

  function FlipEvent(s: Snapshot, p: Position): PositionEvent {
    var closed := CloseEvent(s);
    OpenEvent(p).(kind := Flip, prevSide := closed.prevSide, realizedPnl := closed.realizedPnl,
            pctReturn := closed.pctReturn, openedAt := closed.openedAt)
  }

  predicate Significant(before: real, after: real) {
    before > 0.0 && Abs(after - before) / before >= SCALE_SIGNIFICANCE_THRESHOLD
  }

  function ScaleEvent(s: Snapshot, p: Position): Option<PositionEvent> {
    if !Significant(s.sizeUsd, p.sizeUsd) then None
    else Some(PositionEvent(if p.sizeUsd > s.sizeUsd then ScaleIn else ScaleOut, p.coin, Some(p.side),
                            Some(p.sizeUsd), p.sizeCoin, Some(s.sizeUsd), s.sizeCoin,
                            Some(p.leverage), Some(p.entryPrice), None, None,
                            p.ReturnOnMargin(), Some(s.openedAt)))
  }

  function Remembered(p: Position, openedAt: int): Snapshot {
    Snapshot(p.coin, p.side, p.sizeUsd, p.leverage, p.entryPrice, p.unrealizedPnl, openedAt, p.sizeCoin)
  }

  // ---------------------------------------------------------------------------
  // The diff
  // ---------------------------------------------------------------------------

  /** The decision for a coin remembered, present, or both. */
  function Decide(coin: Coin, was: Option<Snapshot>, observed: Option<Position>, now: int): CoinChange {
    if was.None? && observed.None? then Change(coin, None, None)
    else if observed.None? then Change(coin, Some(CloseEvent(was.value)), None)
    else if was.None? then Change(coin, Some(OpenEvent(observed.value)), Some(Remembered(observed.value, now)))
    else if was.value.side != observed.value.side then
      Change(coin, Some(FlipEvent(was.value, observed.value)), Some(Remembered(observed.value, now)))
    else Change(coin, ScaleEvent(was.value, observed.value), Some(Remembered(observed.value, was.value.openedAt)))
  }

  function Decider(now: int): (Coin, Option<Snapshot>, Option<Position>) -> CoinChange {
    (coin, was, observed) => Decide(coin, was, observed, now)
  }

  /** The observation as a dictionary by coin. */
  function Current(positions: seq<Position>): map<Coin, Position> {
    DictOf(positions, (p: Position) => p.coin)
  }

  function Order(positions: seq<Position>): (keys: seq<Coin>)
    ensures forall c :: c in keys <==> c in Current(positions)
    ensures forall i, j :: 0 <= i < j < |keys| ==> keys[i] != keys[j]
  {
    KeyOrder(positions, (p: Position) => p.coin)
  }

  lemma CloseIsOwed(previous: map<Coin, Snapshot>, current: map<Coin, Position>, now: int, coin: Coin)
    requires coin in previous && coin !in current
    ensures Owed(previous, current, Decider(now), Change(coin, Some(CloseEvent(previous[coin])), None))
  {
  }

  /** The three ways a present coin is decided are what the diff owes it. */
  lemma PresentIsOwed(previous: map<Coin, Snapshot>, current: map<Coin, Position>, now: int, coin: Coin,
      change: CoinChange)
    requires coin in current
    requires var p := current[coin];
             change == if coin !in previous then Change(coin, Some(OpenEvent(p)), Some(Remembered(p, now)))
                       else if previous[coin].side != p.side
                       then Change(coin, Some(FlipEvent(previous[coin], p)), Some(Remembered(p, now)))
                       else Change(coin, ScaleEvent(previous[coin], p), Some(Remembered(p, previous[coin].openedAt)))
    ensures Owed(previous, current, Decider(now), change)
  {
  }

  /** A close for every remembered coin no longer held, walked in any order. */
  method Closes(previous: map<Coin, Snapshot>, current: map<Coin, Position>, now: int)
      returns (changes: seq<CoinChange>)
    ensures DeparturesOf(previous, current, previous.Keys, Decider(now), changes)
  {
    changes := [];
    var todo := previous.Keys;
    while todo != {}
      invariant todo <= previous.Keys
      invariant DeparturesOf(previous, current, previous.Keys - todo, Decider(now), changes)
      decreases todo
    {
      var coin := AnyOf(todo);
      assert previous.Keys - (todo - {coin}) == previous.Keys - todo + {coin};
      if coin !in current {
        var change := Change(coin, Some(CloseEvent(previous[coin])), None);
        CloseIsOwed(previous, current, now, coin);
        DepartureAdded(previous, current, previous.Keys - todo, Decider(now), changes, change);
        changes := changes + [change];
      }
      todo := todo - {coin};
    }
    assert previous.Keys - todo == previous.Keys;
  }

  /** An open, a flip, a scale or a silent update for each coin held now, in order. */
  method Present(previous: map<Coin, Snapshot>, current: map<Coin, Position>, keys: seq<Coin>, now: int)
      returns (changes: seq<CoinChange>)
    requires forall c :: c in keys ==> c in current
    ensures PresentOf(previous, current, keys, Decider(now), changes)
  {
    changes := [];
    for k := 0 to |keys|
      invariant PresentOf(previous, current, keys[..k], Decider(now), changes)
    {
      var coin := keys[k];
      var position := current[coin];
      var change :=
        if coin !in previous then Change(coin, Some(OpenEvent(position)), Some(Remembered(position, now)))
        else if previous[coin].side != position.side then
          Change(coin, Some(FlipEvent(previous[coin], position)), Some(Remembered(position, now)))
        else Change(coin, ScaleEvent(previous[coin], position), Some(Remembered(position, previous[coin].openedAt)));
      PresentIsOwed(previous, current, now, coin, change);
      PresentAdded(previous, current, keys[..k], Decider(now), changes, change);
      assert keys[..k + 1] == keys[..k] + [coin];
      changes := changes + [change];
    }
    assert keys[..|keys|] == keys;
  }

  /** The diff of an observation against memory: the closes, then the coins held now in
      the observation's own order. */
  method DiffPositions(previous: map<Coin, Snapshot>, positions: seq<Position>, now: int)
      returns (changes: seq<CoinChange>)
    ensures IsDiff(previous, Current(positions), Decider(now), changes)
    ensures |changes| >= |Order(positions)|
    ensures PresentOf(previous, Current(positions), Order(positions), Decider(now),
        changes[|changes| - |Order(positions)|..])
  {
    var current, keys := Current(positions), Order(positions);
    var closes := Closes(previous, current, now);
    var present := Present(previous, current, keys, now);
    changes := closes + present;
    DiffAssembled(previous, current, keys, Decider(now), closes, present);
  }

  // ---------------------------------------------------------------------------
  // Memory
  // ---------------------------------------------------------------------------

  /** What memory should hold of one coin after an observation at `now`: the observed
      position, with its opening clock kept through resizes and restarted by an open or a
      flip. */
  function Advance(was: Option<Snapshot>, observed: Option<Position>, now: int): Option<Snapshot> {
    if observed.None? then None
    else if was.Some? && was.value.side == observed.value.side then Some(Remembered(observed.value, was.value.openedAt))
    else Some(Remembered(observed.value, now))
  }

  /** Memory after a complete observation. */
  function MemoryAfter(previous: map<Coin, Snapshot>, current: map<Coin, Position>, now: int): map<Coin, Snapshot> {
    map c | c in current :: Advance(Look(previous, c), Some(current[c]), now).value
  }

  /** Diff then apply makes memory the observation: the same coins, sides and sizes, each
      carrying the clock its position opened at. */
  lemma AppliedDiffIsObservation(previous: map<Coin, Snapshot>, current: map<Coin, Position>, now: int,
      changes: seq<CoinChange>)
    requires IsDiff(previous, current, Decider(now), changes)
    ensures AllApplied(previous, changes, Replace()) == MemoryAfter(previous, current, now)
  {
    forall c
      ensures Look(AllApplied(previous, changes, Replace()), c) == Look(MemoryAfter(previous, current, now), c)
    {
      DiffAppliedAt(previous, current, Decider(now), changes, Replace(), c);
    }
    EqualByLookup(AllApplied(previous, changes, Replace()), MemoryAfter(previous, current, now));
  }

  /** One Trader's remembered positions, by coin. */
  function MemoryOf(rows: map<(Address, Coin), Snapshot>, address: Address): (memory: map<Coin, Snapshot>)
    ensures forall c :: c in memory <==> (address, c) in rows
    ensures forall c :: c in memory ==> memory[c] == rows[(address, c)]
  {
    map k | k in rows && k.0 == address :: k.1 := rows[k]
  }

  predicate OthersKept(before: map<(Address, Coin), Snapshot>, after: map<(Address, Coin), Snapshot>,
      address: Address) {
    && (forall k :: k in before && k.0 != address ==> k in after && after[k] == before[k])
    && (forall k :: k in after && k.0 != address ==> k in before)
  }

  /** One decision written to the table: a closed coin's row is deleted, any other's is
      replaced whole. */
  function Written(rows: map<(Address, Coin), Snapshot>, address: Address, change: CoinChange)
      : map<(Address, Coin), Snapshot> {
    if change.keep.None? then rows - {(address, change.key)} else rows[(address, change.key) := change.keep.value]
  }

  lemma WrittenToMemory(rows: map<(Address, Coin), Snapshot>, address: Address, change: CoinChange)
    ensures MemoryOf(Written(rows, address, change), address) == Applied(MemoryOf(rows, address), change, Replace())
  {
    var memory, after := MemoryOf(rows, address), MemoryOf(Written(rows, address, change), address);
    if change.keep.None? {
      assert after == memory - {change.key};
    } else {
      assert after == memory[change.key := change.keep.value];
    }
  }

  lemma WriteKeepsOthers(start: map<(Address, Coin), Snapshot>, rows: map<(Address, Coin), Snapshot>,
      address: Address, change: CoinChange)
    requires OthersKept(start, rows, address)
    ensures OthersKept(start, Written(rows, address, change), address)
  {
  }

  /** A lane's table, keyed by trader and coin. */
  class SnapshotTable {
    var rows: map<(Address, Coin), Snapshot>

    constructor ()
      ensures rows == map[]
    {
      rows := map[];
    }

    method Remember(address: Address, coin: Coin, s: Snapshot)
      modifies this
      ensures rows == old(rows)[(address, coin) := s]
    {
      rows := rows[(address, coin) := s];
    }

    /** Advance one Trader's memory to what the diff decided; nobody else's moves. */
    method ApplyChanges(address: Address, changes: seq<CoinChange>)
      modifies this
      ensures MemoryOf(rows, address) == AllApplied(MemoryOf(old(rows), address), changes, Replace())
      ensures OthersKept(old(rows), rows, address)
    {
      for n := 0 to |changes|
        invariant MemoryOf(rows, address) == AllApplied(MemoryOf(old(rows), address), changes[..n], Replace())
        invariant OthersKept(old(rows), rows, address)
      {
        var change := changes[n];
        WrittenToMemory(rows, address, change);
        WriteKeepsOthers(old(rows), rows, address, change);
        if change.keep.None? {
          rows := rows - {(address, change.key)};
        } else {
          Remember(address, change.key, change.keep.value);
        }
        assert changes[..n + 1][..n] == changes[..n];
      }
      assert changes[..|changes|] == changes;
    }

    /** One pass over a Trader: diff the observation and advance memory with the
        decisions, in one transaction. */
    method Observe(address: Address, positions: seq<Position>, now: int) returns (changes: seq<CoinChange>)
      modifies this
      ensures IsDiff(MemoryOf(old(rows), address), Current(positions), Decider(now), changes)
      ensures MemoryOf(rows, address) == MemoryAfter(MemoryOf(old(rows), address), Current(positions), now)
      ensures OthersKept(old(rows), rows, address)
    {
      changes := DiffPositions(MemoryOf(rows, address), positions, now);
      AppliedDiffIsObservation(MemoryOf(rows, address), Current(positions), now, changes);
      ApplyChanges(address, changes);
    }
  }
}
