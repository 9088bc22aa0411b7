// Two cycles in figures, in which the working copy of src/epigone/execute/executor.py parts
// from the venue: an open whose answer is lost, and a scale-in onto a flip's residue.
module CopyRuns {
  import opened CopyClaims
  import opened CopyCycle
  import opened PositionDiff
  import opened Pricing
  import opened Reals
  import opened RiskPolicy
  import opened Wrappers

  // ---------------------------------------------------------------------------
  // Figures
  // ---------------------------------------------------------------------------

  /** A mark, a size that is one order, and an asset's precision. */
  datatype Figures = Figures(mark: real, coins: real, szDecimals: int)

  /** What one order is worth. */
  function Worth(f: Figures): real { Times(f.coins, f.mark) }

  predicate Usable(f: Figures) {
    && f.mark > 0.0 && f.coins > 0.0 && Worth(f) >= MIN_ORDER_NOTIONAL
    && IocLimitPrice(f.mark, true, f.szDecimals, SLIPPAGE_CAP).Ok?
    && IocLimitPrice(f.mark, false, f.szDecimals, SLIPPAGE_CAP).Ok?
    && RoundSize(f.coins, f.szDecimals) == Ok(f.coins)
    && RoundSize(2.0 * f.coins, f.szDecimals) == Ok(2.0 * f.coins)
  }

  lemma WholeSize(n: int)
    requires n > 0
    ensures RoundSize(n as real, 0) == Ok(n as real)
  {
    TimesOne(n as real);
    assert Decimals(0) == Grid(1.0, 1.0);
  }

  lemma PricesFromOneUp(mark: real, isBuy: bool)
    requires mark >= 1.0
    ensures IocLimitPrice(mark, isBuy, 0, SLIPPAGE_CAP).Ok?
  {
    WholeIsLegal(1, 0);
    TimesLe(1.0, 1.01, mark);
    TimesCommutes(1.01, mark);
    TimesOne(mark);
    assert SomeLegalBelow(Times(mark, 1.01), 0);
    EveryMarkIsPriceable(mark, isBuy, 0);
  }

  /** One coin at $100, on an asset traded in whole coins. */
  lemma ACoinAtAHundred(mark: real) returns (f: Figures)
    requires mark == 100.0
    ensures Usable(f)
  {
    f := Figures(mark, 1.0, 0);
    TimesOne(mark);
    WholeSize(1);
    WholeSize(2);
    PricesFromOneUp(mark, true);
    PricesFromOneUp(mark, false);
  }

  // ---------------------------------------------------------------------------
  // A setting
  // ---------------------------------------------------------------------------

  const COIN: Coin := "BTC"

  /** A base stake of one order at one times leverage, with room for ten. */
  function TermsOf(f: Figures): Terms {
    Terms(false, Worth(f), FixedLeverage, Some(1), Limits(10.0 * Worth(f), 10.0 * Worth(f), 10))
  }

  function WeatherOf(f: Figures, answer: Answer): Weather {
    Weather(0, Some(f.szDecimals), f.mark, Some(LEADER_EQUITY_FLOOR), Copyable(10), true, false, true, false, answer,
            OneThenHalted(f))
  }

  /** One attempt fills one order's worth, and a halt stops the rest. */
  function OneThenHalted(f: Figures): nat -> Try {
    (k: nat) => Try(k > 0, f.mark, Answer.Fill(f.coins, f.mark), true)
  }

  function TurnOf(f: Figures, kind: Kind, side: Side, answer: Answer): Turn {
    var w := WeatherOf(f, answer);
    Turn(Event(kind, COIN, Some(side), Some(f.coins), Some(2.0 * f.coins), None, 0), TermsOf(f), w, w)
  }

  /** An ask there is room for goes out in full. */
  lemma AskGoesOutInFull(ask: Ask, isBuy: bool, coinUsed: real, subUsed: real, mark: real, limits: Limits,
      szDecimals: int)
    requires ask.Ask? && ask.leverage == 1 && IocLimitPrice(mark, isBuy, szDecimals, SLIPPAGE_CAP).Ok?
    requires coinUsed + ask.stake <= limits.maxCoinStake && subUsed + ask.stake <= limits.maxSubStake
    requires ask.stake >= MIN_ORDER_NOTIONAL && Times(ask.size, mark) >= MIN_ORDER_NOTIONAL
    ensures var order := EntryOrder(ask, isBuy, coinUsed, subUsed, mark, limits, szDecimals);
            order.Send? && order.size == ask.size
  {
    TimesOne(ask.stake);
    assert JudgeEntry(ask.stake, ask.leverage, coinUsed, subUsed, limits) == Granted(ask.stake, false);
  }

  // ---------------------------------------------------------------------------
  // An open whose answer is lost
  // ---------------------------------------------------------------------------

  lemma OneOrderAsked(f: Figures)
    requires Usable(f)
    ensures OpenAsk(Worth(f), Choice(1, 1), f.mark, f.szDecimals) == Ask(1, Worth(f), f.coins)
  {
    TimesOne(Worth(f));
    OverTimes(Worth(f), f.mark);
    TimesOrders(Over(Worth(f), f.mark), f.coins, f.mark);
    TimesOrders(f.coins, Over(Worth(f), f.mark), f.mark);
  }

  lemma OpenGoesOut(s: Sub, f: Figures, answer: Answer)
    requires Usable(f) && s.positions == map[] && s.episodes == []
    ensures var t := TurnOf(f, Open, Long, answer);
            var plan := EntryPlan(s, t.event, OpenLeg, t.terms, t.first);
            plan.Send? && plan.size == f.coins
  {
    var t := TurnOf(f, Open, Long, answer);
    OneOrderAsked(f);
    AskGoesOutInFull(Ask(1, Worth(f), f.coins), true, 0.0, 0.0, f.mark, t.terms.limits, f.szDecimals);
    assert OpenLeverage(t.event, t.terms, t.first) == Choice(1, 1);
    assert EntryAsk(s, t.event, OpenLeg, t.terms, t.first) == Ask(1, Worth(f), f.coins);
  }

  ghost predicate SecondOntoFirst(s: Sub, open: Turn, close: Turn, again: Turn) {
    && Good(s) && LosesOpen(s, open, close, again)
    && var end := Drained(s, [open, close, again]).sent;
    && |end| == 2 && StartsPosition(end[1]) && end[1].onto > 0.0
  }

  lemma LostOpenRun(s: Sub, f: Figures)
    requires Usable(f) && s == Sub(map[], [], map[], [])
    ensures var open, close := TurnOf(f, Open, Long, Lost(f.coins)), TurnOf(f, Close, Long, Reject);
            SecondOntoFirst(s, open, close, open)
  {
    var open, close := TurnOf(f, Open, Long, Lost(f.coins)), TurnOf(f, Close, Long, Reject);
    assert Good(s) by { assert forall c :: Synced(s.positions, s.venue, c); }
    OpenGoesOut(s, f, Lost(f.coins));
    assert LosesOpen(s, open, close, open);
    LostAnswerIsDoubled(s, open, close, open);
  }

  /** From nothing: an open of one coin at $100 executes without an answer, the leader closes
      and opens again, and the second coin is bought onto the first. */
  lemma ASecondOpenLandsOnTheFirst()
    ensures exists s, open, close, again :: SecondOntoFirst(s, open, close, again)
  {
    var f := ACoinAtAHundred(100.0);
    LostOpenRun(Sub(map[], [], map[], []), f);
  }

  // ---------------------------------------------------------------------------
  // A scale-in onto a residue
  // ---------------------------------------------------------------------------

  /** So much held long, bought at the mark, on both sides of the wire. */
  function Holding(f: Figures, coins: real, sent: seq<Sent>): Sub {
    var p := Position(COIN, Long, Times(coins, f.mark), 1.0, f.mark, 0.0, Some(coins), None, None);
    Sub(map[COIN := p], [Episode(COIN, Long, coins, true)], map[COIN := coins], sent)
  }

  lemma HoldingIsGood(f: Figures, coins: real, sent: seq<Sent>)
    requires coins > 0.0
    ensures Good(Holding(f, coins, sent))
  {
    var s := Holding(f, coins, sent);
    assert forall c :: Synced(s.positions, s.venue, c);
  }

  lemma NotASliver(f: Figures, coins: real, p: Position)
    requires Usable(f) && coins >= f.coins && p.sizeCoin == Some(coins) && p.sizeUsd == Times(coins, f.mark)
    ensures !Sliver(coins, p)
  {
    OverTimes(p.sizeUsd, coins);
    TimesCommutes(Over(p.sizeUsd, coins), coins);
    TimesLe(f.coins, coins, f.mark);
  }

  lemma FlipClosePlan(f: Figures)
    requires Usable(f)
    ensures var t := TurnOf(f, Flip, Short, Reject);
            ExitPlan(Holding(f, 2.0 * f.coins, []), t.event, FlipClose, t.first) == Ok(2.0 * f.coins)
  {
    var s := Holding(f, 2.0 * f.coins, []);
    NotASliver(f, 2.0 * f.coins, s.positions[COIN]);
  }

  lemma OneAttempt(s: Sub, target: real, attempt: Attempt, next: Reduction)
    requires attempt(0, Reduction(s, 0.0, false)) == Some(next) && attempt(1, next).None?
    ensures Reduced(s, target, attempt) == next
  {
  }

  lemma FirstAttempt(f: Figures, aim: Aim)
    requires Usable(f) && aim == Aim(FlipClose, COIN, false, 2.0 * f.coins)
    ensures var s := Holding(f, 2.0 * f.coins, []);
            var order := Sent(FlipClose, COIN, false, 2.0 * f.coins, 2.0 * f.coins);
            ReduceOrder(s, aim, 2.0 * f.coins, f.szDecimals, f.mark) == Some(order)
  {
  }

  lemma FirstFill(f: Figures, order: Sent, t: Try)
    requires Usable(f) && order == Sent(FlipClose, COIN, false, 2.0 * f.coins, 2.0 * f.coins)
    requires t.answer == Answer.Fill(f.coins, f.mark) && t.reduceOnly
    ensures var s := Holding(f, 2.0 * f.coins, []);
            var next := ReduceOnce(Reduction(s, 0.0, false), order, t);
            && !next.raised && next.filled == f.coins
            && next.sub == s.(venue := map[COIN := f.coins], sent := [order])
  {
  }

  lemma ThenHalted(f: Figures, s: Sub, aim: Aim, plan: Planner, order: Sent)
    requires plan(s, aim.target, f.mark) == Some(order)
    requires !ReduceOnce(Reduction(s, 0.0, false), order, OneThenHalted(f)(0)).raised
    ensures Reduced(s, aim.target, Attempts(aim.target, plan, OneThenHalted(f)))
            == ReduceOnce(Reduction(s, 0.0, false), order, OneThenHalted(f)(0))
  {
    var attempt, first := Attempts(aim.target, plan, OneThenHalted(f)), OneThenHalted(f)(0);
    var next := ReduceOnce(Reduction(s, 0.0, false), order, first);
    assert aim.target - 0.0 == aim.target;
    assert attempt(0, Reduction(s, 0.0, false)) == AttemptAt(0, Reduction(s, 0.0, false), Some(order), first);
    assert OneThenHalted(f)(1).halted;
    var rest := plan(next.sub, aim.target - next.filled, OneThenHalted(f)(1).mark);
    assert attempt(1, next) == AttemptAt(1, next, rest, OneThenHalted(f)(1));
    OneAttempt(s, aim.target, attempt, next);
  }

  lemma SettlesOne(f: Figures, aim: Aim, order: Sent, next: Reduction)
    requires Usable(f) && aim == Aim(FlipClose, COIN, false, 2.0 * f.coins)
    requires !next.raised && next.filled == f.coins
    requires next.sub == Holding(f, 2.0 * f.coins, []).(venue := map[COIN := f.coins], sent := [order])
    ensures ExitSettled(Holding(f, 2.0 * f.coins, []), 0, aim, next)
            == Outcome(Holding(f, f.coins, [order]), true, false)
  {
  }

  /** The flip's close: one order's worth of two filled, and a halt. */
  lemma FlipLeavesOne(f: Figures)
    requires Usable(f)
    ensures var s, t := Holding(f, 2.0 * f.coins, []), TurnOf(f, Flip, Short, Reject);
            var order := Sent(FlipClose, COIN, false, 2.0 * f.coins, 2.0 * f.coins);
            Exit(s, t.event, FlipClose, t.first) == Outcome(Holding(f, f.coins, [order]), true, false)
  {
    var s, t := Holding(f, 2.0 * f.coins, []), TurnOf(f, Flip, Short, Reject);
    var aim := Aim(FlipClose, COIN, false, 2.0 * f.coins);
    var order := Sent(FlipClose, COIN, false, 2.0 * f.coins, 2.0 * f.coins);
    FlipClosePlan(f);
    assert ExitAim(s, t.event, FlipClose, t.first) == aim;
    FirstAttempt(f, aim);
    FirstFill(f, order, OneThenHalted(f)(0));
    var plan := ReducePlanner(aim, f.szDecimals);
    ThenHalted(f, s, aim, plan, order);
    var next := Reduced(s, aim.target, Attempts(aim.target, plan, OneThenHalted(f)));
    SettlesOne(f, aim, order, next);
    assert ExitReduction(s, t.event, FlipClose, t.first) == next;
  }

  lemma HeldMargin(f: Figures, coins: real, sent: seq<Sent>)
    ensures var positions := Holding(f, coins, sent).positions;
            CoinStake(positions, COIN) == Times(coins, f.mark) == Committed(positions)
  {
    var positions := Holding(f, coins, sent).positions;
    CommittedWithout(positions, COIN);
    assert positions - {COIN} == map[];
    assert positions[COIN].Margin() == Times(coins, f.mark) / 1.0;
  }

  lemma DoublingIsAllOfIt(coins: real)
    requires coins > 0.0
    ensures ScaleFraction(Some(coins), Some(2.0 * coins)) == Ok(1.0)
  {
    OverTimes(coins, coins);
    TimesOne(coins);
    TimesOrders(Over(coins, coins), 1.0, coins);
    TimesOrders(1.0, Over(coins, coins), coins);
  }

  lemma UnleveredMargin(size: real, mark: real)
    ensures Margin(size, mark, 1) == Times(size, mark)
  {
    OverTimes(Times(size, mark), 1.0);
    TimesOne(Over(Times(size, mark), 1.0));
  }

  lemma ScaleInAsked(f: Figures)
    requires Usable(f)
    ensures ScaleAsk(f.coins, 1.0, Some(f.coins), Some(2.0 * f.coins), f.mark, f.szDecimals)
            == Ask(1, Worth(f), f.coins)
  {
    DoublingIsAllOfIt(f.coins);
    TimesOne(f.coins);
    assert RelativeSize(f.coins, 1.0, f.szDecimals) == Ok(f.coins);
    UnleveredMargin(f.coins, f.mark);
  }

  lemma ScaleInGoesOut(f: Figures, sent: seq<Sent>, answer: Answer)
    requires Usable(f)
    ensures var t := TurnOf(f, ScaleIn, Short, answer);
            EntryPlan(Holding(f, f.coins, sent), t.event, ScaleInLeg, t.terms, t.first).Send?
  {
    var s, t := Holding(f, f.coins, sent), TurnOf(f, ScaleIn, Short, answer);
    HeldMargin(f, f.coins, sent);
    ScaleInAsked(f);
    AskGoesOutInFull(Ask(1, Worth(f), f.coins), false, Worth(f), Worth(f), f.mark, t.terms.limits, f.szDecimals);
    assert EntryAsk(s, t.event, ScaleInLeg, t.terms, t.first) == Ask(1, Worth(f), f.coins);
  }

  ghost predicate GrownOntoResidue(s: Sub, flip: Turn, grow: Turn) {
    && Good(s) && GrowsResidue(s, flip, grow)
    && var o := Drained(s, [flip, grow]);
       !Synced(o.positions, o.venue, flip.event.coin)
  }

  lemma ResidueRun(f: Figures)
    requires Usable(f)
    ensures var flip, grow := TurnOf(f, Flip, Short, Reject), TurnOf(f, ScaleIn, Short, Answer.Fill(f.coins, f.mark));
            GrownOntoResidue(Holding(f, 2.0 * f.coins, []), flip, grow)
  {
    var s, answer := Holding(f, 2.0 * f.coins, []), Answer.Fill(f.coins, f.mark);
    var flip, grow := TurnOf(f, Flip, Short, Reject), TurnOf(f, ScaleIn, Short, answer);
    HoldingIsGood(f, 2.0 * f.coins, []);
    FlipLeavesOne(f);
    var closed := Exit(s, flip.event, FlipClose, flip.first).sub;
    ScaleInGoesOut(f, closed.sent, answer);
    assert GrowsResidue(s, flip, grow);
    ScaleInOntoResidue(s, flip, grow);
  }

  /** Long two coins at $100: the flip's close fills one and is halted, and the leader's
      scale-in of the new short, from one coin to two, is filled onto the one still long. */
  lemma AScaleInLandsOnAResidue()
    ensures exists s, flip, grow :: GrownOntoResidue(s, flip, grow)
  {
    var f := ACoinAtAHundred(100.0);
    ResidueRun(f);
  }
}
