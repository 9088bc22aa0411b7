// Money leaving a Trader's account, inferred from two observations of it
// (src/epigone/withdrawals.py): the inference, and what it is worth against the account's
// own bookkeeping.
module Withdrawals {
  import opened Wrappers
  import opened KeyedDiff
  import opened PositionDiff

  const WITHDRAWAL_FLOOR_USD := 1000.0
  const WITHDRAWAL_FRACTION_THRESHOLD := 0.25

  /** What an ordinary one-interval move on `notional` could have realized unseen. */
  function UnseenMove(notional: real): real { notional * 0.05 }

  /** What an account was worth, and when that was seen. */
  datatype EquityObservation = EquityObservation(accountValue: real, observedAt: int)

  datatype Withdrawal = Withdrawal(amountUsd: real, priorEquity: real, equityUsd: real, observedAt: int)

  // ---------------------------------------------------------------------------
  // The inference
  // ---------------------------------------------------------------------------

  /** How much of one coin's previously observed position is still open. */
  function FractionStillHeld(s: Snapshot, position: Option<Position>): (held: real)
    ensures held <= 1.0
  {
    if position.None? || s.side != position.value.side then 0.0
    else
      var inUnits := s.sizeCoin.Some? && position.value.sizeCoin.Some?;
      var before := if inUnits then s.sizeCoin.value else s.sizeUsd;
      var after := if inUnits then position.value.sizeCoin.value else position.value.sizeUsd;
      if before <= 0.0 then 1.0 else RealMin(1.0, after / before)
  }

  /** How much is still open, of a position of so much before and so much after: none when
      gone or on the other side, all when it did not shrink, and otherwise its share. */
  predicate IsShare(held: real, before: real, after: real) {
    if before <= 0.0 || after >= before then held == 1.0 else held * before == after
  }

  lemma FractionIsTheShare(s: Snapshot, position: Option<Position>)
    ensures var held := FractionStillHeld(s, position);
            if position.None? || s.side != position.value.side then held == 0.0
            else if s.sizeCoin.Some? && position.value.sizeCoin.Some?
            then IsShare(held, s.sizeCoin.value, position.value.sizeCoin.value)
            else IsShare(held, s.sizeUsd, position.value.sizeUsd)
  {
    if position.Some? {
      if s.sizeCoin.Some? && position.value.sizeCoin.Some? {
        ShareOf(s.sizeCoin.value, position.value.sizeCoin.value);
      }
      ShareOf(s.sizeUsd, position.value.sizeUsd);
    }
  }

  lemma ShareOf(before: real, after: real)
    ensures IsShare(if before <= 0.0 then 1.0 else RealMin(1.0, after / before), before, after)
  {
    if before > 0.0 {
      var share := after / before;
      assert share * before == after;
      if share >= 1.0 { assert (share - 1.0) * before >= 0.0; } else { assert (1.0 - share) * before > 0.0; }
    }
  }

  function HeldIn(s: Snapshot, current: map<Coin, Position>): real {
    FractionStillHeld(s, Look(current, s.coin))
  }

  function SumOver<T>(items: seq<T>, f: T -> real): real {
    if items == [] then 0.0 else SumOver(items[..|items| - 1], f) + f(items[|items| - 1])
  }

  /** What of one remembered position's unrealized PnL still stands in `current`. */
  function RetainedOf(current: map<Coin, Position>): Snapshot -> real {
    (s: Snapshot) => s.unrealizedPnl * HeldIn(s, current)
  }

  /** What of its notional has gone from `current`. */
  function DepartedOf(current: map<Coin, Position>): Snapshot -> real {
    (s: Snapshot) => s.sizeUsd * (1.0 - HeldIn(s, current))
  }

  function RetainedPnl(snapshots: seq<Snapshot>, current: map<Coin, Position>): real {
    SumOver(snapshots, RetainedOf(current))
  }

  function DepartedNotional(snapshots: seq<Snapshot>, current: map<Coin, Position>): real {
    SumOver(snapshots, DepartedOf(current))
  }

  function PnlOf(): Position -> real { (p: Position) => p.unrealizedPnl }

  function NowPnl(positions: seq<Position>): real { SumOver(positions, PnlOf()) }

  /** One walk of the previous observation's book against this one. */
  method ReadPriorBook(snapshots: seq<Snapshot>, positions: seq<Position>) returns (retained: real, departed: real)
    ensures retained == RetainedPnl(snapshots, Current(positions))
    ensures departed == DepartedNotional(snapshots, Current(positions))
  {
    var current := Current(positions);
    retained, departed := 0.0, 0.0;
    for n := 0 to |snapshots|
      invariant retained == RetainedPnl(snapshots[..n], current)
      invariant departed == DepartedNotional(snapshots[..n], current)
    {
      assert snapshots[..n + 1][..n] == snapshots[..n];
      var held := HeldIn(snapshots[n], current);
      retained := retained + snapshots[n].unrealizedPnl * held;
      departed := departed + snapshots[n].sizeUsd * (1.0 - held);
    }
    assert snapshots[..|snapshots|] == snapshots;
  }

  /** The drop in worth that neither standing nor realized PnL explains. */
  function Outflow(prior: real, equityNow: real, snapshots: seq<Snapshot>, positions: seq<Position>): real {
    NowPnl(positions) - RetainedPnl(snapshots, Current(positions)) - (equityNow - prior)
  }

  /** The gates an outflow has to pass: a baseline young enough with something to take a
      share of, a real amount, a big share, and more than departed size could have realized
      unseen. */
  predicate Alarming(prior: real, outflow: real, departed: real) {
    && prior > 0.0
    && outflow >= WITHDRAWAL_FLOOR_USD
    && outflow / prior >= WITHDRAWAL_FRACTION_THRESHOLD
    && outflow > UnseenMove(departed)
  }

  lemma QuarterOf(outflow: real, prior: real)
    requires prior > 0.0
    ensures outflow / prior >= 0.25 <==> 4.0 * outflow >= prior
  {
    var share := outflow / prior;
    assert share * prior == outflow;
    if share >= 0.25 { assert (share - 0.25) * prior >= 0.0; } else { assert (0.25 - share) * prior > 0.0; }
  }

  method DetectWithdrawal(previous: Option<EquityObservation>, equityNow: real, snapshots: seq<Snapshot>,
                          positions: seq<Position>, now: int, maxGap: int) returns (found: Option<Withdrawal>)
    ensures found.Some? <==>
              && previous.Some? && now - previous.value.observedAt <= maxGap
              && var prior := previous.value.accountValue;
                 var outflow := Outflow(prior, equityNow, snapshots, positions);
                 && prior > 0.0 && outflow >= 1000.0 && 4.0 * outflow >= prior
                 && outflow > 0.05 * DepartedNotional(snapshots, Current(positions))
    ensures found.Some? ==>
              var prior := previous.value.accountValue;
              found.value == Withdrawal(Outflow(prior, equityNow, snapshots, positions), prior, equityNow,
                                        previous.value.observedAt)
  {
    if previous.None? || now - previous.value.observedAt > maxGap { return None; }
    var prior := previous.value.accountValue;
    if prior <= 0.0 { return None; }
    var retained, departed := ReadPriorBook(snapshots, positions);
    var nowPnl := 0.0;
    for n := 0 to |positions|
      invariant nowPnl == NowPnl(positions[..n])
    {
      assert positions[..n + 1][..n] == positions[..n];
      nowPnl := nowPnl + positions[n].unrealizedPnl;
    }
    assert positions[..|positions|] == positions;
    var outflow := nowPnl - retained - (equityNow - prior);
    QuarterOf(outflow, prior);
    if outflow < WITHDRAWAL_FLOOR_USD { return None; }
    if outflow / prior < WITHDRAWAL_FRACTION_THRESHOLD { return None; }
    if outflow <= UnseenMove(departed) { return None; }
    return Some(Withdrawal(outflow, prior, equityNow, previous.value.observedAt));
  }

  // ---------------------------------------------------------------------------
  // The account
  // ---------------------------------------------------------------------------

  /** One coin's open position: a size and its average entry price. */
  datatype Leg = Leg(side: Side, size: real, entry: real)

  /** Collateral and legs. */
  datatype Account = Account(cash: real, legs: map<Coin, Leg>)

  /** What happens to an account between two looks: fills and transfers out (in, when
      negative). Fees and funding are not modelled. */
  datatype Deed =
    | Traded(coin: Coin, isBuy: bool, size: real, price: real)
    | Transferred(amount: real)

  predicate Sound(d: Deed) { d.Traded? ==> d.size > 0.0 && d.price > 0.0 }

  function SideOf(isBuy: bool): Side { if isBuy then Long else Short }

  /** What one unit entered at `entry` has made at `price`. */
  function Rate(side: Side, entry: real, price: real): real {
    if side == Long then price - entry else entry - price
  }

  function Pnl(side: Side, size: real, entry: real, price: real): real { Rate(side, entry, price) * size }

  /** What a fill leaves of a leg: it adds at an average entry, reduces, closes, or closes
      and opens the excess the other way. */
  function Filled(leg: Option<Leg>, isBuy: bool, size: real, price: real): Option<Leg>
    requires size > 0.0 && (leg.Some? ==> leg.value.size > 0.0)
  {
    if leg.None? then Some(Leg(SideOf(isBuy), size, price))
    else
      var l := leg.value;
      if l.side == SideOf(isBuy)
      then Some(Leg(l.side, l.size + size, (l.size * l.entry + size * price) / (l.size + size)))
      else if size < l.size then Some(l.(size := l.size - size))
      else if size == l.size then None
      else Some(Leg(SideOf(isBuy), size - l.size, price))
  }

  /** The size a fill closes, and the PnL that realizes. */
  function Closed(leg: Option<Leg>, isBuy: bool, size: real): real {
    if leg.None? || leg.value.side == SideOf(isBuy) then 0.0 else RealMin(size, leg.value.size)
  }

  function Realizes(leg: Option<Leg>, isBuy: bool, size: real, price: real): real {
    if leg.None? then 0.0 else Pnl(leg.value.side, Closed(leg, isBuy, size), leg.value.entry, price)
  }

  predicate Positive(a: Account) { forall c :: c in a.legs ==> a.legs[c].size > 0.0 }

  function Put(legs: map<Coin, Leg>, c: Coin, leg: Option<Leg>): map<Coin, Leg> {
    if leg.None? then legs - {c} else legs[c := leg.value]
  }

  function Did(a: Account, d: Deed): (next: Account)
    requires Positive(a) && Sound(d)
    ensures Positive(next)
  {
    match d
    case Transferred(amount) => a.(cash := a.cash - amount)
    case Traded(c, isBuy, size, price) =>
      var leg := Look(a.legs, c);
      Account(a.cash + Realizes(leg, isBuy, size, price), Put(a.legs, c, Filled(leg, isBuy, size, price)))
  }

  ghost predicate AllSound(run: seq<Deed>) { forall i :: 0 <= i < |run| ==> Sound(run[i]) }

  function After(a: Account, run: seq<Deed>): (end: Account)
    requires Positive(a) && AllSound(run)
    ensures Positive(end)
  {
    if run == [] then a else Did(After(a, run[..|run| - 1]), run[|run| - 1])
  }

  /** Net money out. */
  function Left(run: seq<Deed>): real {
    if run == [] then 0.0
    else
      var last := run[|run| - 1];
      Left(run[..|run| - 1]) + if last.Transferred? then last.amount else 0.0
  }

  /** What a run realizes in one coin. */
  function Gains(a: Account, d: Deed, c: Coin): real {
    if d.Traded? && d.coin == c then Realizes(Look(a.legs, c), d.isBuy, d.size, d.price) else 0.0
  }

  function Realized(a: Account, run: seq<Deed>, c: Coin): real
    requires Positive(a) && AllSound(run)
  {
    if run == [] then 0.0
    else
      var before, last := run[..|run| - 1], run[|run| - 1];
      Realized(a, before, c) + Gains(After(a, before), last, c)
  }

  // ---------------------------------------------------------------------------
  // One coin between two looks
  // ---------------------------------------------------------------------------

  /** Each coin was traded one way only. */
  ghost predicate OneWay(run: seq<Deed>) {
    forall i, j :: 0 <= i < |run| && 0 <= j < |run| && run[i].Traded? && run[j].Traded? ==>
      run[i].coin == run[j].coin ==> run[i].isBuy == run[j].isBuy
  }

  predicate Near(price: real, mark: real) { mark * 0.95 <= price <= mark * 1.05 }

  /** Every fill that closed size was priced within 5% of the last mark seen. */
  ghost predicate OrdinaryFills(a: Account, run: seq<Deed>, marks: Coin -> real)
    requires Positive(a) && AllSound(run)
  {
    forall i :: 0 <= i < |run| ==> OrdinaryAt(a, run, i, marks)
  }

  predicate OrdinaryAt(a: Account, run: seq<Deed>, i: nat, marks: Coin -> real)
    requires Positive(a) && AllSound(run) && i < |run|
  {
    OrdinaryFill(After(a, run[..i]), run[i], marks)
  }

  predicate OrdinaryFill(a: Account, d: Deed, marks: Coin -> real) {
    d.Traded? && Closed(Look(a.legs, d.coin), d.isBuy, d.size) > 0.0 ==> Near(d.price, marks(d.coin))
  }

  /** The part of a leg that is no longer there. */
  function Gone(was: Leg, leg: Option<Leg>): real {
    if leg.None? || leg.value.side != was.side then was.size
    else was.size - RealMin(leg.value.size, was.size)
  }

  /** The leg one-way trading can have made of another: untouched or grown on its own side,
      or, traded against, shrunk at its own entry, gone or flipped. */
  predicate Shaped(was: Option<Leg>, isBuy: bool, leg: Option<Leg>) {
    if was.None? then leg.Some? ==> leg.value.side == SideOf(isBuy)
    else if was.value.side == SideOf(isBuy) then
      leg.Some? && leg.value.side == was.value.side && leg.value.size >= was.value.size
    else
      leg.Some? && leg.value.side == was.value.side ==>
        leg.value.entry == was.value.entry && leg.value.size <= was.value.size
  }

  predicate Between(gone: real, realized: real, low: real, high: real) { low * gone <= realized <= high * gone }

  /** The worst and the best a unit of a leg can realize within 5% of the mark. */
  function Worst(was: Leg, mark: real): real {
    if was.side == Long then mark * 0.95 - was.entry else was.entry - mark * 1.05
  }

  function Best(was: Leg, mark: real): real {
    if was.side == Long then mark * 1.05 - was.entry else was.entry - mark * 0.95
  }

  /** The realized PnL is what the gone size could make near the mark; without a leg to
      close nothing was realized. */
  predicate Accounted(was: Option<Leg>, leg: Option<Leg>, realized: real, mark: real) {
    if was.None? then realized == 0.0
    else Between(Gone(was.value, leg), realized, Worst(was.value, mark), Best(was.value, mark))
  }

  lemma BetweenAdds(gone: real, closed: real, realized: real, rate: real, low: real, high: real)
    requires Between(gone, realized, low, high) && low <= rate <= high && closed >= 0.0
    ensures Between(gone + closed, realized + rate * closed, low, high)
  {
    assert low * closed <= rate * closed <= high * closed;
  }

  predicate Bounded(x: real, limit: real) { -limit <= x <= limit }

  /** A fill against a leg: what it closes is what goes, and what stays keeps its entry. */
  lemma FillAgainst(was: Leg, leg: Leg, isBuy: bool, size: real, price: real)
    requires was.side == leg.side != SideOf(isBuy) && 0.0 < leg.size <= was.size && size > 0.0
    ensures Gone(was, Filled(Some(leg), isBuy, size, price)) == Gone(was, Some(leg)) + Closed(Some(leg), isBuy, size)
  {
  }

  /** A fill along a leg, or into none, realizes nothing and closes nothing more. */
  lemma FillAlong(was: Option<Leg>, leg: Option<Leg>, isBuy: bool, size: real, price: real)
    requires size > 0.0 && (leg.Some? ==> leg.value.size > 0.0 && leg.value.side == SideOf(isBuy))
    requires Shaped(was, isBuy, leg)
    ensures Realizes(leg, isBuy, size, price) == 0.0
    ensures was.Some? ==> Gone(was.value, Filled(leg, isBuy, size, price)) == Gone(was.value, leg)
  {
    if leg.Some? { assert Pnl(leg.value.side, 0.0, leg.value.entry, price) == 0.0; }
  }

  lemma FillKeepsShape(was: Option<Leg>, isBuy: bool, leg: Option<Leg>, size: real, price: real)
    requires (leg.Some? ==> leg.value.size > 0.0) && size > 0.0
    requires Shaped(was, isBuy, leg)
    ensures Shaped(was, isBuy, Filled(leg, isBuy, size, price))
  {
  }

  lemma FillAgainstKeepsBooks(was: Leg, isBuy: bool, leg: Leg, realized: real, mark: real, size: real, price: real)
    requires was.side == leg.side != SideOf(isBuy) && 0.0 < leg.size <= was.size && leg.entry == was.entry && size > 0.0
    requires Accounted(Some(was), Some(leg), realized, mark) && Near(price, mark)
    ensures Accounted(Some(was), Filled(Some(leg), isBuy, size, price),
        realized + Realizes(Some(leg), isBuy, size, price), mark)
  {
    FillAgainst(was, leg, isBuy, size, price);
    BetweenAdds(Gone(was, Some(leg)), Closed(Some(leg), isBuy, size), realized, Rate(was.side, was.entry, price),
                Worst(was, mark), Best(was, mark));
  }

  lemma FillKeepsBooks(was: Option<Leg>, isBuy: bool, leg: Option<Leg>, realized: real, mark: real, size: real,
      price: real)
    requires (leg.Some? ==> leg.value.size > 0.0) && size > 0.0
    requires Shaped(was, isBuy, leg) && Accounted(was, leg, realized, mark)
    requires Closed(leg, isBuy, size) > 0.0 ==> Near(price, mark)
    ensures Accounted(was, Filled(leg, isBuy, size, price), realized + Realizes(leg, isBuy, size, price), mark)
  {
    if leg.Some? && leg.value.side != SideOf(isBuy) {
      FillAgainstKeepsBooks(was.value, isBuy, leg.value, realized, mark, size, price);
    } else {
      FillAlong(was, leg, isBuy, size, price);
    }
  }

  /** One deed keeps the books of every coin traded only toward `isBuy`. */
  lemma DeedKeepsBooks(was: Option<Leg>, isBuy: bool, a: Account, d: Deed, realized: real, marks: Coin -> real, c: Coin)
    requires Positive(a) && Sound(d) && OrdinaryFill(a, d, marks)
    requires d.Traded? && d.coin == c ==> d.isBuy == isBuy
    requires Shaped(was, isBuy, Look(a.legs, c)) && Accounted(was, Look(a.legs, c), realized, marks(c))
    ensures Shaped(was, isBuy, Look(Did(a, d).legs, c))
    ensures Accounted(was, Look(Did(a, d).legs, c), realized + Gains(a, d, c), marks(c))
  {
    var leg := Look(a.legs, c);
    if d.Traded? && d.coin == c {
      assert Look(Did(a, d).legs, c) == Filled(leg, isBuy, d.size, d.price);
      FillKeepsShape(was, isBuy, leg, d.size, d.price);
      FillKeepsBooks(was, isBuy, leg, realized, marks(c), d.size, d.price);
    } else {
      assert Look(Did(a, d).legs, c) == leg;
    }
  }

  lemma EarlierFillsOrdinary(a: Account, run: seq<Deed>, marks: Coin -> real)
    requires Positive(a) && AllSound(run) && run != [] && OrdinaryFills(a, run, marks)
    ensures OrdinaryFills(a, run[..|run| - 1], marks)
    ensures OrdinaryFill(After(a, run[..|run| - 1]), run[|run| - 1], marks)
  {
    var before := run[..|run| - 1];
    assert OrdinaryAt(a, run, |run| - 1, marks);
    forall i | 0 <= i < |before| ensures OrdinaryAt(a, before, i, marks) {
      assert OrdinaryAt(a, run, i, marks) && before[..i] == run[..i];
    }
  }

  /** The direction a coin was traded in; any, if it was not. */
  ghost predicate Toward(run: seq<Deed>, c: Coin, isBuy: bool) {
    forall i :: 0 <= i < |run| && run[i].Traded? && run[i].coin == c ==> run[i].isBuy == isBuy
  }

  /** Through any run of fills, transfers and other coins' trades, one coin's realized PnL
      stays within 5% of notional of what its gone size held at the last mark. */
  lemma {:induction false} BooksAfter(a: Account, run: seq<Deed>, marks: Coin -> real, c: Coin, isBuy: bool)
    requires Positive(a) && AllSound(run) && OrdinaryFills(a, run, marks) && Toward(run, c, isBuy)
    ensures Shaped(Look(a.legs, c), isBuy, Look(After(a, run).legs, c))
    ensures Accounted(Look(a.legs, c), Look(After(a, run).legs, c), Realized(a, run, c), marks(c))
  {
    if run == [] {
      if c in a.legs { assert Gone(a.legs[c], Some(a.legs[c])) == 0.0; }
    } else {
      var before := run[..|run| - 1];
      EarlierFillsOrdinary(a, run, marks);
      BooksAfter(a, before, marks, c, isBuy);
      DeedKeepsBooks(Look(a.legs, c), isBuy, After(a, before), run[|run| - 1], Realized(a, before, c), marks, c);
    }
  }

  // ---------------------------------------------------------------------------
  // Sums over coins
  // ---------------------------------------------------------------------------

  ghost predicate Distinct(coins: seq<Coin>) { forall i, j :: 0 <= i < j < |coins| ==> coins[i] != coins[j] }

  function Total(coins: seq<Coin>, f: Coin -> real): real { SumOver(coins, f) }

  lemma {:induction false} TotalZero(coins: seq<Coin>, f: Coin -> real)
    requires forall c :: c in coins ==> f(c) == 0.0
    ensures Total(coins, f) == 0.0
  {
    if coins != [] { TotalZero(coins[..|coins| - 1], f); }
  }

  lemma {:induction false} TotalBounded(coins: seq<Coin>, f: Coin -> real, g: Coin -> real)
    requires forall c :: c in coins ==> Bounded(f(c), g(c))
    ensures Bounded(Total(coins, f), Total(coins, g))
  {
    if coins != [] { TotalBounded(coins[..|coins| - 1], f, g); }
  }

  lemma {:induction false} TotalScaled(coins: seq<Coin>, f: Coin -> real, g: Coin -> real)
    requires forall c :: c in coins ==> f(c) == UnseenMove(g(c))
    ensures Total(coins, f) == UnseenMove(Total(coins, g))
  {
    if coins != [] { TotalScaled(coins[..|coins| - 1], f, g); }
  }

  /** Two functions that differ at one coin differ by that much in total. */
  lemma {:induction false} TotalDiffersAt(coins: seq<Coin>, f: Coin -> real, g: Coin -> real, k: Coin)
    requires Distinct(coins) && forall c :: c in coins && c != k ==> f(c) == g(c)
    ensures Total(coins, g) - Total(coins, f) == if k in coins then g(k) - f(k) else 0.0
  {
    if coins != [] {
      TotalDiffersAt(coins[..|coins| - 1], f, g, k);
      assert k in coins <==> k in coins[..|coins| - 1] || k == coins[|coins| - 1];
    }
  }

  function Only(keys: seq<Coin>, f: Coin -> real): Coin -> real {
    c => if c in keys then f(c) else 0.0
  }

  /** A total over some of the coins is a total over all of them with the others at zero,
      whatever order each is taken in. */
  lemma {:induction false} TotalOverAll(keys: seq<Coin>, all: seq<Coin>, f: Coin -> real)
    requires Distinct(keys) && Distinct(all) && forall c :: c in keys ==> c in all
    ensures Total(keys, f) == Total(all, Only(keys, f))
  {
    if keys == [] {
      TotalZero(all, Only(keys, f));
    } else {
      var some, last := keys[..|keys| - 1], keys[|keys| - 1];
      assert forall c :: c in keys <==> c in some || c == last;
      TotalOverAll(some, all, f);
      TotalDiffersAt(all, Only(some, f), Only(keys, f), last);
    }
  }

  // ---------------------------------------------------------------------------
  // Two looks at the account
  // ---------------------------------------------------------------------------

  function CoinsOf(snapshots: seq<Snapshot>): (coins: seq<Coin>)
    ensures |coins| == |snapshots|
    ensures forall i :: 0 <= i < |coins| ==> coins[i] == snapshots[i].coin
  {
    if snapshots == [] then [] else CoinsOf(snapshots[..|snapshots| - 1]) + [snapshots[|snapshots| - 1].coin]
  }

  function HeldCoins(positions: seq<Position>): (coins: seq<Coin>)
    ensures |coins| == |positions|
    ensures forall i :: 0 <= i < |coins| ==> coins[i] == positions[i].coin
  {
    if positions == [] then [] else HeldCoins(positions[..|positions| - 1]) + [positions[|positions| - 1].coin]
  }

  predicate SnapshotShows(s: Snapshot, leg: Leg, mark: real) {
    && s.side == leg.side && s.sizeUsd == leg.size * mark && s.sizeCoin == Some(leg.size)
    && s.unrealizedPnl == Pnl(leg.side, leg.size, leg.entry, mark)
  }

  predicate PositionShows(p: Position, leg: Leg, mark: real) {
    && p.side == leg.side && p.sizeUsd == leg.size * mark && p.sizeCoin == Some(leg.size)
    && p.unrealizedPnl == Pnl(leg.side, leg.size, leg.entry, mark)
  }

  /** The remembered look: each leg once, at its mark, in any order. */
  ghost predicate Remembers(snapshots: seq<Snapshot>, a: Account, marks: Coin -> real) {
    && Distinct(CoinsOf(snapshots))
    && (forall c :: c in a.legs <==> c in CoinsOf(snapshots))
    && (forall i :: 0 <= i < |snapshots| ==>
          snapshots[i].coin in a.legs
              && SnapshotShows(snapshots[i], a.legs[snapshots[i].coin], marks(snapshots[i].coin)))
  }

  /** The fresh look. */
  ghost predicate Sees(positions: seq<Position>, a: Account, marks: Coin -> real) {
    && Distinct(HeldCoins(positions))
    && (forall c :: c in a.legs <==> c in HeldCoins(positions))
    && (forall i :: 0 <= i < |positions| ==>
          positions[i].coin in a.legs
              && PositionShows(positions[i], a.legs[positions[i].coin], marks(positions[i].coin)))
  }

  /** What an account shows unrealized in one coin; nothing, without a leg. */
  function Standing(a: Account, marks: Coin -> real): Coin -> real {
    c => if c in a.legs then Pnl(a.legs[c].side, a.legs[c].size, a.legs[c].entry, marks(c)) else 0.0
  }

  /** What an account is worth: its collateral and what its legs show. */
  function Worth(a: Account, marks: Coin -> real, all: seq<Coin>): real {
    a.cash + Total(all, Standing(a, marks))
  }

  /** The fresh look as a dictionary shows every leg, and nothing else. */
  lemma CurrentShows(positions: seq<Position>, a: Account, marks: Coin -> real, c: Coin)
    requires Sees(positions, a, marks)
    ensures c in Current(positions) <==> c in a.legs
    ensures c in a.legs ==> PositionShows(Current(positions)[c], a.legs[c], marks(c))
  {
    if c in a.legs {
      var i :| 0 <= i < |positions| && HeldCoins(positions)[i] == c;
      EveryKeyIsThere(positions, (p: Position) => p.coin, i);
    }
  }

  /** How much of a leg is left, from the legs themselves. */
  function Kept(was: Leg, leg: Option<Leg>): real
    requires was.size > 0.0
  {
    if leg.None? || leg.value.side != was.side then 0.0 else RealMin(1.0, leg.value.size / was.size)
  }

  lemma HeldIsKept(s: Snapshot, was: Leg, mark: real, positions: seq<Position>, end: Account, marksNow: Coin -> real)
    requires was.size > 0.0 && SnapshotShows(s, was, mark) && Sees(positions, end, marksNow)
    ensures HeldIn(s, Current(positions)) == Kept(was, Look(end.legs, s.coin))
  {
    CurrentShows(positions, end, marksNow, s.coin);
  }

  /** What each coin showed in dollars at the first look; nothing, without a leg. */
  function Notional(a: Account, marks: Coin -> real): Coin -> real {
    c => if c in a.legs then a.legs[c].size * marks(c) else 0.0
  }

  /** The kept fraction of each coin; all of nothing, without a leg. */
  function KeptBy(a: Account, end: Account): Coin -> real
    requires Positive(a)
  {
    c => if c in a.legs then Kept(a.legs[c], Look(end.legs, c)) else 1.0
  }

  function Part(f: Coin -> real, kept: Coin -> real): Coin -> real { c => f(c) * kept(c) }

  function Rest(f: Coin -> real, kept: Coin -> real): Coin -> real { c => f(c) * (1.0 - kept(c)) }

  predicate Matches(s: Snapshot, current: map<Coin, Position>, pnl: Coin -> real, notional: Coin -> real,
      kept: Coin -> real) {
    s.unrealizedPnl == pnl(s.coin) && s.sizeUsd == notional(s.coin) && HeldIn(s, current) == kept(s.coin)
  }

  lemma SnapshotShares(s: Snapshot, current: map<Coin, Position>, pnl: Coin -> real, notional: Coin -> real,
      kept: Coin -> real)
    requires Matches(s, current, pnl, notional, kept)
    ensures RetainedOf(current)(s) == Part(pnl, kept)(s.coin)
    ensures DepartedOf(current)(s) == Rest(notional, kept)(s.coin)
  {
  }

  lemma {:induction false} SameSums(snapshots: seq<Snapshot>, f: Snapshot -> real, g: Coin -> real)
    requires forall i :: 0 <= i < |snapshots| ==> f(snapshots[i]) == g(snapshots[i].coin)
    ensures SumOver(snapshots, f) == Total(CoinsOf(snapshots), g)
  {
    if snapshots != [] {
      var n := |snapshots| - 1;
      SameSums(snapshots[..n], f, g);
      assert CoinsOf(snapshots)[..n] == CoinsOf(snapshots[..n]);
    }
  }

  lemma PriorBookTotals(snapshots: seq<Snapshot>, a: Account, marks: Coin -> real,
                        positions: seq<Position>, end: Account, marksNow: Coin -> real)
    requires Positive(a) && Remembers(snapshots, a, marks) && Sees(positions, end, marksNow)
    ensures RetainedPnl(snapshots, Current(positions))
        == Total(CoinsOf(snapshots), Part(Standing(a, marks), KeptBy(a, end)))
    ensures DepartedNotional(snapshots, Current(positions))
        == Total(CoinsOf(snapshots), Rest(Notional(a, marks), KeptBy(a, end)))
  {
    var current, pnl, notional, kept := Current(positions), Standing(a, marks), Notional(a, marks), KeptBy(a, end);
    forall i | 0 <= i < |snapshots|
      ensures RetainedOf(current)(snapshots[i]) == Part(pnl, kept)(snapshots[i].coin)
      ensures DepartedOf(current)(snapshots[i]) == Rest(notional, kept)(snapshots[i].coin)
    {
      SnapshotMatches(snapshots[i], a, marks, positions, end, marksNow);
      SnapshotShares(snapshots[i], current, pnl, notional, kept);
    }
    SameSums(snapshots, RetainedOf(current), Part(pnl, kept));
    SameSums(snapshots, DepartedOf(current), Rest(notional, kept));
  }

  lemma SnapshotMatches(s: Snapshot, a: Account, marks: Coin -> real, positions: seq<Position>, end: Account,
      marksNow: Coin -> real)
    requires Positive(a) && Sees(positions, end, marksNow)
    requires s.coin in a.legs && SnapshotShows(s, a.legs[s.coin], marks(s.coin))
    ensures Matches(s, Current(positions), Standing(a, marks), Notional(a, marks), KeptBy(a, end))
  {
    HeldIsKept(s, a.legs[s.coin], marks(s.coin), positions, end, marksNow);
  }

  lemma {:induction false} NowTotals(positions: seq<Position>, end: Account, marksNow: Coin -> real)
    requires forall i :: 0 <= i < |positions| ==>
               positions[i].coin in end.legs
                   && PositionShows(positions[i], end.legs[positions[i].coin], marksNow(positions[i].coin))
    ensures NowPnl(positions) == Total(HeldCoins(positions), Standing(end, marksNow))
  {
    if positions != [] {
      NowTotals(positions[..|positions| - 1], end, marksNow);
      assert HeldCoins(positions)[..|positions| - 1] == HeldCoins(positions[..|positions| - 1]);
    }
  }

  /** A function already at zero off `keys` totals the same over them as over all. */
  lemma TotalOverHeld(keys: seq<Coin>, all: seq<Coin>, f: Coin -> real)
    requires Distinct(keys) && Distinct(all) && forall c :: c in keys ==> c in all
    requires forall c :: c in all && c !in keys ==> f(c) == 0.0
    ensures Total(keys, f) == Total(all, f)
  {
    TotalOverAll(keys, all, f);
    TotalAgrees(all, Only(keys, f), f);
  }

  lemma {:induction false} TotalAgrees(coins: seq<Coin>, f: Coin -> real, g: Coin -> real)
    requires forall c :: c in coins ==> f(c) == g(c)
    ensures Total(coins, f) == Total(coins, g)
  {
    if coins != [] { TotalAgrees(coins[..|coins| - 1], f, g); }
  }

  // ---------------------------------------------------------------------------
  // The accounting identity
  // ---------------------------------------------------------------------------

  function RealizedBy(a: Account, run: seq<Deed>): Coin -> real
    requires Positive(a) && AllSound(run)
  {
    c => Realized(a, run, c)
  }

  ghost predicate Covers(all: seq<Coin>, a: Account, run: seq<Deed>) {
    && Distinct(all)
    && (forall c :: c in a.legs ==> c in all)
    && (forall i :: 0 <= i < |run| && run[i].Traded? ==> run[i].coin in all)
  }

  /** Collateral moves by what was realized and what was transferred, and nothing else. */
  lemma {:induction false} CashFlow(a: Account, run: seq<Deed>, all: seq<Coin>)
    requires Positive(a) && AllSound(run) && Covers(all, a, run)
    ensures After(a, run).cash == a.cash + Total(all, RealizedBy(a, run)) - Left(run)
    ensures forall c :: c in After(a, run).legs ==> c in all
  {
    if run == [] {
      TotalZero(all, RealizedBy(a, run));
    } else {
      var before, last := run[..|run| - 1], run[|run| - 1];
      CashFlow(a, before, all);
      if last.Traded? {
        TotalDiffersAt(all, RealizedBy(a, before), RealizedBy(a, run), last.coin);
      } else {
        TotalAgrees(all, RealizedBy(a, before), RealizedBy(a, run));
      }
    }
  }

  /** What each coin's gone size held at the last mark over what it realized. */
  function Unseen(a: Account, run: seq<Deed>, marks: Coin -> real): Coin -> real
    requires Positive(a) && AllSound(run)
  {
    c => Rest(Standing(a, marks), KeptBy(a, After(a, run)))(c) - Realized(a, run, c)
  }

  function Minus(f: Coin -> real, g: Coin -> real): Coin -> real { c => f(c) - g(c) }

  lemma {:induction false} TotalMinus(coins: seq<Coin>, f: Coin -> real, g: Coin -> real)
    ensures Total(coins, Minus(f, g)) == Total(coins, f) - Total(coins, g)
  {
    if coins != [] { TotalMinus(coins[..|coins| - 1], f, g); }
  }

  lemma {:induction false} TotalRest(coins: seq<Coin>, f: Coin -> real, kept: Coin -> real)
    ensures Total(coins, Rest(f, kept)) == Total(coins, f) - Total(coins, Part(f, kept))
  {
    if coins != [] {
      var last := coins[|coins| - 1];
      TotalRest(coins[..|coins| - 1], f, kept);
      assert Rest(f, kept)(last) == f(last) - Part(f, kept)(last);
    }
  }

  lemma UnseenTotals(a: Account, run: seq<Deed>, marks: Coin -> real, coins: seq<Coin>)
    requires Positive(a) && AllSound(run)
    ensures Total(coins, Unseen(a, run, marks)) ==
            Total(coins, Standing(a, marks)) - Total(coins, Part(Standing(a, marks), KeptBy(a, After(a, run))))
            - Total(coins, RealizedBy(a, run))
  {
    var rest := Rest(Standing(a, marks), KeptBy(a, After(a, run)));
    TotalAgrees(coins, Unseen(a, run, marks), Minus(rest, RealizedBy(a, run)));
    TotalMinus(coins, rest, RealizedBy(a, run));
    TotalRest(coins, Standing(a, marks), KeptBy(a, After(a, run)));
  }

  /** Two complete looks at an account, with `run` between them. */
  ghost predicate Brackets(a: Account, run: seq<Deed>, all: seq<Coin>, snapshots: seq<Snapshot>, marks: Coin -> real,
                           positions: seq<Position>, marksNow: Coin -> real)
  {
    && Positive(a) && AllSound(run) && Covers(all, a, run)
    && Remembers(snapshots, a, marks) && Sees(positions, After(a, run), marksNow)
  }

  /** The identity, for any run at all: what the inference calls outflow is the money that
      left, plus what the departed size held at the last mark beyond what it realized. */
  lemma OutflowIdentity(a: Account, run: seq<Deed>, all: seq<Coin>, snapshots: seq<Snapshot>, marks: Coin -> real,
                        positions: seq<Position>, marksNow: Coin -> real)
    requires Brackets(a, run, all, snapshots, marks, positions, marksNow)
    ensures Outflow(Worth(a, marks, all), Worth(After(a, run), marksNow, all), snapshots, positions)
            == Left(run) + Total(all, Unseen(a, run, marks))
    ensures DepartedNotional(snapshots, Current(positions))
        == Total(all, Rest(Notional(a, marks), KeptBy(a, After(a, run))))
  {
    var end := After(a, run);
    CashFlow(a, run, all);
    PriorBookTotals(snapshots, a, marks, positions, end, marksNow);
    TotalOverHeld(CoinsOf(snapshots), all, Part(Standing(a, marks), KeptBy(a, end)));
    TotalOverHeld(CoinsOf(snapshots), all, Rest(Notional(a, marks), KeptBy(a, end)));
    NowTotals(positions, end, marksNow);
    TotalOverHeld(HeldCoins(positions), all, Standing(end, marksNow));
    UnseenTotals(a, run, marks, all);
  }

  // ---------------------------------------------------------------------------
  // What a report is worth
  // ---------------------------------------------------------------------------

  /** What the module assumes of an interval: each coin traded one way only, and no closing
      fill further than 5% from the last mark. */
  ghost predicate Ordinary(a: Account, run: seq<Deed>, marks: Coin -> real)
    requires Positive(a) && AllSound(run)
  {
    OneWay(run) && OrdinaryFills(a, run, marks)
  }

  /** The kept fraction and the gone size are the same fact. */
  lemma KeptAndGone(was: Leg, leg: Option<Leg>, mark: real)
    requires was.size > 0.0 && (leg.Some? ==> leg.value.size > 0.0)
    ensures (was.size * mark) * (1.0 - Kept(was, leg)) == Gone(was, leg) * mark
    ensures Pnl(was.side, was.size, was.entry, mark) * (1.0 - Kept(was, leg))
        == Pnl(was.side, Gone(was, leg), was.entry, mark)
  {
    GoneFraction(was, leg);
    Regroup(was.size, mark, 1.0 - Kept(was, leg), Gone(was, leg));
    Regroup(was.size, Rate(was.side, was.entry, mark), 1.0 - Kept(was, leg), Gone(was, leg));
  }

  lemma GoneFraction(was: Leg, leg: Option<Leg>)
    requires was.size > 0.0 && (leg.Some? ==> leg.value.size > 0.0)
    ensures was.size * (1.0 - Kept(was, leg)) == Gone(was, leg)
  {
  }

  lemma Regroup(size: real, x: real, fraction: real, gone: real)
    requires size * fraction == gone
    ensures (size * x) * fraction == gone * x == x * gone == (x * size) * fraction
  {
    assert (size * x) * fraction == (size * fraction) * x;
  }

  lemma RestIs(f: Coin -> real, kept: Coin -> real, c: Coin, shown: real, fraction: real, rest: real)
    requires f(c) == shown && kept(c) == fraction && shown * (1.0 - fraction) == rest
    ensures Rest(f, kept)(c) == rest
  {
  }

  lemma GonePnl(a: Account, end: Account, marks: Coin -> real, c: Coin)
    requires Positive(a) && Positive(end) && c in a.legs
    ensures var was, gone := a.legs[c], Gone(a.legs[c], Look(end.legs, c));
            Rest(Standing(a, marks), KeptBy(a, end))(c) == Pnl(was.side, gone, was.entry, marks(c))
  {
    var was, leg := a.legs[c], Look(end.legs, c);
    KeptAndGone(was, leg, marks(c));
    RestIs(Standing(a, marks), KeptBy(a, end), c, Pnl(was.side, was.size, was.entry, marks(c)), Kept(was, leg),
           Pnl(was.side, Gone(was, leg), was.entry, marks(c)));
  }

  lemma GoneNotional(a: Account, end: Account, marks: Coin -> real, c: Coin)
    requires Positive(a) && Positive(end) && c in a.legs
    ensures Rest(Notional(a, marks), KeptBy(a, end))(c) == Gone(a.legs[c], Look(end.legs, c)) * marks(c)
  {
    var was, leg := a.legs[c], Look(end.legs, c);
    KeptAndGone(was, leg, marks(c));
    RestIs(Notional(a, marks), KeptBy(a, end), c, was.size * marks(c), Kept(was, leg), Gone(was, leg) * marks(c));
  }

  /** A coin's booked bound, read off as the distance from what the mark said. */
  lemma BoundReadsOff(was: Leg, leg: Option<Leg>, realized: real, mark: real, rest: real, departed: real)
    requires Accounted(Some(was), leg, realized, mark)
    requires rest == Pnl(was.side, Gone(was, leg), was.entry, mark) && departed == Gone(was, leg) * mark
    ensures Bounded(rest - realized, UnseenMove(departed))
  {
    var gone, rate := Gone(was, leg), Rate(was.side, was.entry, mark);
    assert Worst(was, mark) == rate - mark * 0.05 && Best(was, mark) == rate + mark * 0.05;
    assert (rate - mark * 0.05) * gone == rest - UnseenMove(departed);
    assert (rate + mark * 0.05) * gone == rest + UnseenMove(departed);
  }

  lemma ColumnsBounded(a: Account, end: Account, marks: Coin -> real, c: Coin, realized: real)
    requires Positive(a) && Positive(end)
    requires Accounted(Look(a.legs, c), Look(end.legs, c), realized, marks(c))
    ensures Bounded(Rest(Standing(a, marks), KeptBy(a, end))(c) - realized,
                    UnseenMove(Rest(Notional(a, marks), KeptBy(a, end))(c)))
  {
    if c in a.legs {
      GonePnl(a, end, marks, c);
      GoneNotional(a, end, marks, c);
      BoundReadsOff(a.legs[c], Look(end.legs, c), realized, marks(c),
                    Rest(Standing(a, marks), KeptBy(a, end))(c), Rest(Notional(a, marks), KeptBy(a, end))(c));
    } else {
      RestIs(Standing(a, marks), KeptBy(a, end), c, 0.0, 1.0, 0.0);
      RestIs(Notional(a, marks), KeptBy(a, end), c, 0.0, 1.0, 0.0);
    }
  }

  lemma UnseenIsBounded(a: Account, run: seq<Deed>, marks: Coin -> real, c: Coin)
    requires Positive(a) && AllSound(run) && Ordinary(a, run, marks)
    ensures Bounded(Unseen(a, run, marks)(c), UnseenMove(Rest(Notional(a, marks), KeptBy(a, After(a, run)))(c)))
  {
    DirectionExists(run, c);
    var isBuy :| Toward(run, c, isBuy);
    BooksAfter(a, run, marks, c, isBuy);
    ColumnsBounded(a, After(a, run), marks, c, Realized(a, run, c));
  }

  lemma DirectionExists(run: seq<Deed>, c: Coin)
    requires OneWay(run)
    ensures exists isBuy :: Toward(run, c, isBuy)
  {
    if i :| 0 <= i < |run| && run[i].Traded? && run[i].coin == c {
      assert Toward(run, c, run[i].isBuy);
    } else {
      assert Toward(run, c, true);
    }
  }

  /** The error bound. In an ordinary interval the inferred outflow is within 5% of the
      departed notional of the money that truly left; it is that money when nothing departed. */
  lemma OutflowIsClose(a: Account, run: seq<Deed>, all: seq<Coin>, snapshots: seq<Snapshot>, marks: Coin -> real,
                       positions: seq<Position>, marksNow: Coin -> real)
    requires Brackets(a, run, all, snapshots, marks, positions, marksNow) && Ordinary(a, run, marks)
    ensures var outflow := Outflow(Worth(a, marks, all), Worth(After(a, run), marksNow, all), snapshots, positions);
            Bounded(outflow - Left(run), UnseenMove(DepartedNotional(snapshots, Current(positions))))
  {
    OutflowIdentity(a, run, all, snapshots, marks, positions, marksNow);
    var departed := Rest(Notional(a, marks), KeptBy(a, After(a, run)));
    var allowance := c => UnseenMove(departed(c));
    forall c | c in all ensures Bounded(Unseen(a, run, marks)(c), allowance(c)) {
      UnseenIsBounded(a, run, marks, c);
    }
    TotalBounded(all, Unseen(a, run, marks), allowance);
    TotalScaled(all, allowance, departed);
  }

  /** The gates, judged on two looks at a real account. */
  ghost predicate Alarms(a: Account, run: seq<Deed>, all: seq<Coin>, snapshots: seq<Snapshot>, marks: Coin -> real,
                         positions: seq<Position>, marksNow: Coin -> real)
    requires Positive(a) && AllSound(run)
  {
    var prior, now := Worth(a, marks, all), Worth(After(a, run), marksNow, all);
    Alarming(prior, Outflow(prior, now, snapshots, positions), DepartedNotional(snapshots, Current(positions)))
  }

  /** A losing trader is not a leaving trader. Whatever a book of longs and shorts did in an
      ordinary interval - opens, scale-ins, partial closes, closes and flips, at whatever
      profit or loss - no alarm is raised unless more money left than came in. */
  lemma NoFalseAlarm(a: Account, run: seq<Deed>, all: seq<Coin>, snapshots: seq<Snapshot>, marks: Coin -> real,
                     positions: seq<Position>, marksNow: Coin -> real)
    requires Brackets(a, run, all, snapshots, marks, positions, marksNow) && Ordinary(a, run, marks)
    ensures Alarms(a, run, all, snapshots, marks, positions, marksNow) ==> Left(run) > 0.0
  {
    OutflowIsClose(a, run, all, snapshots, marks, positions, marksNow);
  }

  /** And a withdrawal clear of the gates by what the departed size could hide is always
      reported. */
  lemma LargeWithdrawalsAreReported(a: Account, run: seq<Deed>, all: seq<Coin>, snapshots: seq<Snapshot>,
      marks: Coin -> real, positions: seq<Position>, marksNow: Coin -> real)
    requires Brackets(a, run, all, snapshots, marks, positions, marksNow) && Ordinary(a, run, marks)
    requires var prior, hidden := Worth(a, marks, all), UnseenMove(DepartedNotional(snapshots, Current(positions)));
             && prior > 0.0
             && Left(run) - hidden >= RealMax(WITHDRAWAL_FLOOR_USD, prior * WITHDRAWAL_FRACTION_THRESHOLD)
             && Left(run) > hidden + hidden
    ensures Alarms(a, run, all, snapshots, marks, positions, marksNow)
  {
    OutflowIsClose(a, run, all, snapshots, marks, positions, marksNow);
    var prior, now := Worth(a, marks, all), Worth(After(a, run), marksNow, all);
    ShareIsEnough(prior, Outflow(prior, now, snapshots, positions));
  }

  lemma ShareIsEnough(prior: real, outflow: real)
    requires prior > 0.0
    ensures outflow / prior >= WITHDRAWAL_FRACTION_THRESHOLD <==> outflow >= prior * WITHDRAWAL_FRACTION_THRESHOLD
  {
    var share := outflow / prior;
    assert share * prior == outflow;
    if share >= 0.25 { assert share * prior >= 0.25 * prior; } else { assert share * prior < 0.25 * prior; }
  }

  /** When nothing departed the judgement is exact: reported, and as the true amount, just
      when at least $1,000 and a quarter of the account left. */
  lemma QuietBookIsExact(a: Account, run: seq<Deed>, all: seq<Coin>, snapshots: seq<Snapshot>, marks: Coin -> real,
                         positions: seq<Position>, marksNow: Coin -> real)
    requires Brackets(a, run, all, snapshots, marks, positions, marksNow) && Ordinary(a, run, marks)
    requires DepartedNotional(snapshots, Current(positions)) == 0.0
    ensures Outflow(Worth(a, marks, all), Worth(After(a, run), marksNow, all), snapshots, positions) == Left(run)
    ensures Alarms(a, run, all, snapshots, marks, positions, marksNow) <==>
            var prior := Worth(a, marks, all);
            prior > 0.0 && Left(run) >= RealMax(WITHDRAWAL_FLOOR_USD, prior * WITHDRAWAL_FRACTION_THRESHOLD)
  {
    OutflowIsClose(a, run, all, snapshots, marks, positions, marksNow);
    if Worth(a, marks, all) > 0.0 { ShareIsEnough(Worth(a, marks, all), Left(run)); }
  }

  // ---------------------------------------------------------------------------
  // Snapshots without coin units
  // ---------------------------------------------------------------------------

  lemma SmallerIsAFraction(fraction: real, part: real, whole: real)
    requires 0.0 < part < whole && fraction * whole == part
    ensures 0.0 < fraction < 1.0
  {
    SignOfProduct(fraction, whole);
    SignOfProduct(1.0 - fraction, whole);
  }

  lemma SignOfProduct(x: real, y: real)
    requires y > 0.0
    ensures x <= 0.0 <==> x * y <= 0.0
  {
  }

  /** Without units a mark-down reads as a partial close. The allowance it buys covers the
      PnL it drops from the books if and only if that leg's unrealized PnL was at most 5% of
      its notional. */
  lemma UnitlessMarkDown(s: Snapshot, p: Position)
    requires s.side == p.side && (s.sizeCoin.None? || p.sizeCoin.None?) && 0.0 < p.sizeUsd < s.sizeUsd
    ensures var gone := 1.0 - FractionStillHeld(s, Some(p));
            s.unrealizedPnl * gone <= UnseenMove(s.sizeUsd * gone) <==> s.unrealizedPnl <= UnseenMove(s.sizeUsd)
  {
    var held := p.sizeUsd / s.sizeUsd;
    assert held * s.sizeUsd == p.sizeUsd;
    SmallerIsAFraction(held, p.sizeUsd, s.sizeUsd);
    var gone, spare := 1.0 - held, UnseenMove(s.sizeUsd) - s.unrealizedPnl;
    assert UnseenMove(s.sizeUsd * gone) - s.unrealizedPnl * gone == spare * gone;
    if spare >= 0.0 { assert spare * gone >= 0.0; } else { assert spare * gone < 0.0; }
  }

  lemma OneTerm<T>(x: T, f: T -> real)
    ensures SumOver([x], f) == f(x)
  {
    assert SumOver([x][..0], f) == 0.0;
  }

  /** So the alarm can be false: a long far in profit, untouched, marked down 5%, with no
      money moved, is reported as $4,950 withdrawn. */
  lemma UnitlessFalseAlarm()
    ensures exists s: Snapshot, p: Position, was: Account ::
              && s.sizeCoin == None && s.coin == p.coin && s.coin in was.legs
              && s.sizeUsd == was.legs[s.coin].size * 100.0 && p.sizeUsd == was.legs[s.coin].size * 95.0
              && s.unrealizedPnl == Pnl(Long, was.legs[s.coin].size, was.legs[s.coin].entry, 100.0)
              && p.unrealizedPnl == Pnl(Long, was.legs[s.coin].size, was.legs[s.coin].entry, 95.0)
              && Alarming(was.cash + s.unrealizedPnl,
                          Outflow(was.cash + s.unrealizedPnl, was.cash + p.unrealizedPnl, [s], [p]),
                          DepartedNotional([s], Current([p])))
  {
    var s := Snapshot("ETH", Long, 100_000.0, 5.0, 1.0, 99_000.0, 0, None);
    var p := Position("ETH", Long, 95_000.0, 5.0, 1.0, 94_000.0, Some(1_000.0), None, None);
    var was := Account(-80_000.0, map["ETH" := Leg(Long, 1_000.0, 1.0)]);
    assert Current([p])["ETH"] == p by { EveryKeyIsThere([p], (q: Position) => q.coin, 0); }
    OneTerm(s, RetainedOf(Current([p])));
    OneTerm(s, DepartedOf(Current([p])));
    OneTerm(p, PnlOf());
    assert HeldIn(s, Current([p])) == 0.95;
    assert RetainedPnl([s], Current([p])) == 94_050.0 && DepartedNotional([s], Current([p])) == 5_000.0;
    assert NowPnl([p]) == 94_000.0;
    assert Outflow(19_000.0, 14_000.0, [s], [p]) == 4_950.0;
    assert Alarming(19_000.0, 4_950.0, 5_000.0);
  }
}
