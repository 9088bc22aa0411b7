// The stake an entry may take (src/epigone/execute/policy.py) and the order it becomes
// (src/epigone/execute/executor.py): leverage, caps, clamping and dust.
module RiskPolicy {
  import opened Pricing
  import opened Reals
  import opened Wrappers

  const MIN_ORDER_NOTIONAL := 10.0

  /** The operator's numbers an entry is judged by. */
  datatype Limits = Limits(maxCoinStake: real, maxSubStake: real, backstop: int)

  /** The schema's own check. */
  predicate Valid(limits: Limits) { limits.backstop > 0 }

  // ---------------------------------------------------------------------------
  // Leverage
  // ---------------------------------------------------------------------------

  datatype Mode = FixedLeverage | MirrorLeverage

  datatype LeverageChoice = Choice(value: int, asked: int) | LeverageUnknown

  /** Toward zero, as an integer conversion truncates. */
  function Truncated(x: real): int { if x >= 0.0 then x.Floor else Ceiling(x) }

  function ResolveLeverage(mode: Mode, configured: Option<int>, leader: Option<real>, assetMax: int,
      limits: Limits): LeverageChoice {
    if mode == FixedLeverage then
      if configured.None? then LeverageUnknown
      else Choice(Min(Min(configured.value, limits.backstop), assetMax), configured.value)
    else if leader.None? then LeverageUnknown
    else
      var asked := Max(Truncated(leader.value), 1);
      Choice(Min(Min(asked, limits.backstop), assetMax), asked)
  }

  /** An opening leverage is at least 1 and at most the backstop, the asset's maximum and
      the mode's ask, and is the largest such; mirroring asks at most the leader's own,
      except that below 1x the venue's minimum is 1. */
  lemma LeverageIsCapped(mode: Mode, configured: Option<int>, leader: Option<real>, assetMax: int, limits: Limits)
    requires Valid(limits) && assetMax >= 1 && (configured.Some? ==> configured.value >= 1)
    ensures var choice := ResolveLeverage(mode, configured, leader, assetMax, limits);
            && (choice.Choice? <==> if mode == FixedLeverage then configured.Some? else leader.Some?)
            && (choice.Choice? ==>
                  && 1 <= choice.value <= choice.asked && choice.value <= limits.backstop && choice.value <= assetMax
                  && (choice.value == choice.asked || choice.value == limits.backstop || choice.value == assetMax)
                  && (mode == MirrorLeverage ==>
                        choice.asked == 1 || choice.asked as real <= leader.value < choice.asked as real + 1.0)
                  && (mode == MirrorLeverage && leader.value >= 1.0 ==> choice.value as real <= leader.value))
  {
  }

  // ---------------------------------------------------------------------------
  // The verdict
  // ---------------------------------------------------------------------------

  datatype Verdict = Declined | Granted(stake: real, clamped: bool)

  function StakeHeadroom(coinUsed: real, subUsed: real, limits: Limits): real {
    RealMax(RealMin(limits.maxCoinStake - coinUsed, limits.maxSubStake - subUsed), 0.0)
  }

  /** Grants the asked stake or the headroom left, never a position the venue would refuse. */
  function JudgeEntry(requested: real, leverage: int, coinUsed: real, subUsed: real, limits: Limits): Verdict {
    var granted := RealMin(requested, StakeHeadroom(coinUsed, subUsed, limits));
    if granted <= 0.0 then Declined
    else if Times(granted, leverage as real) < MIN_ORDER_NOTIONAL then Declined
    else Granted(granted, granted < requested)
  }

  // ---------------------------------------------------------------------------
  // The order
  // ---------------------------------------------------------------------------

  /** The margin a position of `size` takes at a price and a leverage. */
  function Margin(size: real, price: real, leverage: int): real
    requires leverage >= 1
  {
    Over(Times(size, price), leverage as real)
  }

  /** What an entry would do if nothing capped it. */
  datatype Ask = Ask(leverage: int, stake: real, size: real) | NotMirrorable

  /** A fresh open or a flip's open leg: base stake at the resolved leverage. */
  function OpenAsk(baseStake: real, choice: LeverageChoice, mark: real, szDecimals: int): Ask {
    if choice.LeverageUnknown? then NotMirrorable
    else
      var size := OpenSize(baseStake, choice.value as real, mark, szDecimals);
      if size.Unpriceable? then NotMirrorable else Ask(choice.value, baseStake, size.value)
  }

  /** A scale-in: a fraction of what is held, at the leverage the position runs at. */
  function ScaleAsk(held: real, running: real, before: Option<real>, after: Option<real>, mark: real,
      szDecimals: int): Ask {
    var fraction := ScaleFraction(before, after);
    if fraction.Unpriceable? then NotMirrorable
    else
      var size := RelativeSize(held, fraction.value, szDecimals);
      if size.Unpriceable? then NotMirrorable
      else
        var live := Max(Truncated(running), 1);
        Ask(live, Margin(size.value, mark, live), size.value)
  }

  datatype PlannedEntry = Send(size: real, leverage: int, limitPrice: real, stake: real) | Skip

  /** From an ask to the order that is signed: priced, judged, clamped and refused as dust. */
  function EntryOrder(ask: Ask, isBuy: bool, coinUsed: real, subUsed: real, mark: real, limits: Limits,
      szDecimals: int): PlannedEntry {
    var price := IocLimitPrice(mark, isBuy, szDecimals, SLIPPAGE_CAP);
    if ask.NotMirrorable? || price.Unpriceable? then Skip
    else
      var verdict := JudgeEntry(ask.stake, ask.leverage, coinUsed, subUsed, limits);
      if verdict.Declined? then Skip
      else
        var size := ClampedSize(ask.size, ask.stake, verdict.stake, szDecimals);
        if size.Unpriceable? then Skip
        else if Times(size.value, mark) < MIN_ORDER_NOTIONAL then Skip
        else Send(size.value, ask.leverage, price.value, verdict.stake)
  }

  /** An ask whose stake covers the margin its size takes at the mark. */
  predicate Backed(ask: Ask, mark: real) {
    ask.Ask? ==> ask.leverage >= 1 && ask.size > 0.0 && Times(ask.size, mark) <= Times(ask.stake, ask.leverage as real)
  }

  lemma OpenAskIsBacked(baseStake: real, choice: LeverageChoice, mark: real, szDecimals: int)
    requires choice.Choice? ==> choice.value >= 1
    ensures Backed(OpenAsk(baseStake, choice, mark, szDecimals), mark)
  {
    if OpenAsk(baseStake, choice, mark, szDecimals).Ask? {
      var position := Times(baseStake, choice.value as real);
      var size := OpenAsk(baseStake, choice, mark, szDecimals).size;
      RoundSizeTruncates(Over(position, mark), szDecimals);
      OverTimes(position, mark);
      TimesLe(size, Over(position, mark), mark);
    }
  }

  lemma ScaleAskIsBacked(held: real, running: real, before: Option<real>, after: Option<real>, mark: real,
      szDecimals: int)
    ensures Backed(ScaleAsk(held, running, before, after, mark, szDecimals), mark)
  {
    var ask := ScaleAsk(held, running, before, after, mark, szDecimals);
    if ask.Ask? {
      RoundSizeTruncates(Times(held, ScaleFraction(before, after).value), szDecimals);
      OverTimes(Times(ask.size, mark), ask.leverage as real);
    }
  }

  /** The stake caps hold. Whatever the precision, whatever is already committed, an order
      that is sent takes a margin that fits what both caps have left; it is at least the
      venue's minimum, and no larger than asked. */
  lemma EntryWithinCaps(ask: Ask, isBuy: bool, coinUsed: real, subUsed: real, mark: real, limits: Limits,
      szDecimals: int)
    requires Backed(ask, mark) && EntryOrder(ask, isBuy, coinUsed, subUsed, mark, limits, szDecimals).Send?
    ensures var order := EntryOrder(ask, isBuy, coinUsed, subUsed, mark, limits, szDecimals);
            && order.leverage == ask.leverage && 0.0 < order.size <= ask.size
            && var margin := Margin(order.size, mark, order.leverage);
            && margin <= order.stake <= ask.stake
            && coinUsed + margin <= limits.maxCoinStake
            && subUsed + margin <= limits.maxSubStake
            && Times(order.size, mark) >= MIN_ORDER_NOTIONAL
  {
    var order := EntryOrder(ask, isBuy, coinUsed, subUsed, mark, limits, szDecimals);
    ClampNeverGrows(ask.size, ask.stake, order.stake, szDecimals);
    SharesMargin(order.size, ask.size, order.stake, ask.stake, mark, ask.leverage as real);
    MarginFits(order.size, mark, order.leverage, order.stake);
    if order.size <= 0.0 { TimesLe(order.size, 0.0, mark); TimesOne(mark); assert false; }
  }

  lemma MarginFits(size: real, mark: real, leverage: int, stake: real)
    requires leverage >= 1 && Times(size, mark) <= Times(stake, leverage as real)
    ensures Margin(size, mark, leverage) <= stake
  {
    OverTimes(Times(size, mark), leverage as real);
    TimesOrders(Margin(size, mark, leverage), stake, leverage as real);
  }

  /** Cutting a size by the ratio its stake was cut by keeps it backed. */
  lemma SharesMargin(size: real, askedSize: real, stake: real, asked: real, mark: real, leverage: real)
    requires asked > 0.0 && mark > 0.0 && 0.0 < stake <= asked
    requires Times(size, asked) <= Times(askedSize, stake)
    requires Times(askedSize, mark) <= Times(asked, leverage)
    ensures Times(size, mark) <= Times(stake, leverage)
  {
    TimesLe(Times(size, asked), Times(askedSize, stake), mark);
    TimesAssociates(size, asked, mark);
    TimesCommutes(asked, Times(size, mark));
    TimesAssociates(askedSize, stake, mark);
    TimesCommutes(stake, Times(askedSize, mark));
    TimesLe(Times(askedSize, mark), Times(asked, leverage), stake);
    TimesAssociates(asked, leverage, stake);
    TimesCommutes(asked, Times(leverage, stake));
    TimesCommutes(leverage, stake);
    TimesOrders(Times(size, mark), Times(stake, leverage), asked);
  }

  // ---------------------------------------------------------------------------
  // Exactly what is asked and granted
  // ---------------------------------------------------------------------------

  /** `raw` coins at this mark are worth this much. */
  predicate Buys(raw: real, mark: real, usd: real) { mark > 0.0 && Times(raw, mark) == usd }

  /** An open asks exactly when its leverage is known and its base stake, levered, buys at
      least one quantum; and then for as much of what it buys as the asset's precision
      expresses. */
  lemma OpenAskExactly(baseStake: real, choice: LeverageChoice, mark: real, szDecimals: int, raw: real)
    requires choice.Choice? ==> mark > 0.0 ==> Buys(raw, mark, Times(baseStake, choice.value as real))
    ensures var ask := OpenAsk(baseStake, choice, mark, szDecimals);
            && (ask.Ask? <==> choice.Choice? && mark > 0.0 && 0 <= szDecimals <= 8 && raw >= Quantum(szDecimals))
            && (ask.Ask? ==>
                  ask.stake == baseStake && ask.leverage == choice.value && Truncates(ask.size, raw, szDecimals))
  {
    if choice.Choice? && mark > 0.0 {
      var bought := Over(Times(baseStake, choice.value as real), mark);
      OverTimes(Times(baseStake, choice.value as real), mark);
      TimesOrders(raw, bought, mark);
      TimesOrders(bought, raw, mark);
      RoundSizeTruncates(raw, szDecimals);
    }
  }

  /** `raw` is as much of what is held as the leader moved of what they held. */
  predicate MovedAlike(raw: real, held: real, before: real, after: real) {
    before > 0.0 && held > 0.0 && Times(raw, before) == Times(held, Abs(after - before))
  }

  /** The leverage a position runs at, as a whole number. */
  predicate RunsAt(leverage: int, running: real) {
    if running < 1.0 then leverage == 1 else leverage as real <= running < leverage as real + 1.0
  }

  /** A scale's target, as an exit or an entry mirrors it: the share of what is held that the
      leader moved, as far as the asset's precision expresses it. */
  lemma ShareExactly(held: real, before: Option<real>, after: Option<real>, szDecimals: int, raw: real)
    requires before.Some? && after.Some? && before.value > 0.0 && held > 0.0 ==>
               MovedAlike(raw, held, before.value, after.value)
    ensures var fraction := ScaleFraction(before, after);
            var share := if fraction.Unpriceable? then Unpriceable else RelativeSize(held, fraction.value, szDecimals);
            && (share.Ok? <==>
                  && before.Some? && after.Some? && before.value > 0.0 && held > 0.0
                  && 0 <= szDecimals <= 8 && raw >= Quantum(szDecimals))
            && (share.Ok? ==> Truncates(share.value, raw, szDecimals))
  {
    if before.Some? && after.Some? && before.value > 0.0 && held > 0.0 {
      var moved, b := Abs(after.value - before.value), before.value;
      OverTimes(moved, b);
      TimesAssociates(held, Over(moved, b), b);
      TimesOrders(raw, Times(held, Over(moved, b)), b);
      TimesOrders(Times(held, Over(moved, b)), raw, b);
      RoundSizeTruncates(raw, szDecimals);
    }
  }

  /** A scale-in asks exactly for the share of what is held that the leader added, at the
      leverage the position runs at, with the margin that takes as its stake. */
  lemma ScaleAskExactly(held: real, running: real, before: Option<real>, after: Option<real>, mark: real,
      szDecimals: int, raw: real)
    requires before.Some? && after.Some? && before.value > 0.0 && held > 0.0 ==>
               MovedAlike(raw, held, before.value, after.value)
    ensures var ask := ScaleAsk(held, running, before, after, mark, szDecimals);
            && (ask.Ask? <==>
                  && before.Some? && after.Some? && before.value > 0.0 && held > 0.0
                  && 0 <= szDecimals <= 8 && raw >= Quantum(szDecimals))
            && (ask.Ask? ==>
                  && Truncates(ask.size, raw, szDecimals) && RunsAt(ask.leverage, running)
                  && Times(ask.stake, ask.leverage as real) == Times(ask.size, mark))
  {
    ShareExactly(held, before, after, szDecimals, raw);
    var ask := ScaleAsk(held, running, before, after, mark, szDecimals);
    if ask.Ask? { OverTimes(Times(ask.size, mark), ask.leverage as real); }
  }

  /** What the caps leave of an ask. */
  function Grant(stake: real, coinUsed: real, subUsed: real, limits: Limits): real {
    RealMin(stake, RealMin(limits.maxCoinStake - coinUsed, limits.maxSubStake - subUsed))
  }

  /** The size a grant sends: all that was asked, or the granted share of it. */
  ghost predicate SizedFor(size: real, ask: Ask, granted: real, szDecimals: int)
    requires ask.Ask?
  {
    if granted >= ask.stake then size == ask.size
    else 0 <= szDecimals <= 8 && exists raw: real :: ShareOfAsk(raw, ask, granted) && Truncates(size, raw, szDecimals)
  }

  predicate ShareOfAsk(raw: real, ask: Ask, granted: real)
    requires ask.Ask?
  {
    Times(raw, ask.stake) == Times(ask.size, granted)
  }

  /** An entry that has room for at least $10, at an existing price. */
  predicate HasRoom(ask: Ask, isBuy: bool, coinUsed: real, subUsed: real, mark: real, limits: Limits, szDecimals: int) {
    && ask.Ask? && IocLimitPrice(mark, isBuy, szDecimals, SLIPPAGE_CAP).Ok?
    && Grant(ask.stake, coinUsed, subUsed, limits) > 0.0
    && Times(Grant(ask.stake, coinUsed, subUsed, limits), ask.leverage as real) >= 10.0
  }

  /** Neither cap grants less than it has left: an entry is sent exactly when what it asks, or
      failing that all the tighter cap leaves, is a position of $10 before and after sizing;
      and it is sent for exactly that. */
  lemma EntryOrderExactly(ask: Ask, isBuy: bool, coinUsed: real, subUsed: real, mark: real, limits: Limits,
      szDecimals: int)
    ensures var order := EntryOrder(ask, isBuy, coinUsed, subUsed, mark, limits, szDecimals);
            && (order.Send? <==>
                  && HasRoom(ask, isBuy, coinUsed, subUsed, mark, limits, szDecimals)
                  && exists size: real ::
                       && SizedFor(size, ask, Grant(ask.stake, coinUsed, subUsed, limits), szDecimals)
                       && Times(size, mark) >= 10.0)
            && (order.Send? ==>
                  && order.leverage == ask.leverage
                  && order.stake == Grant(ask.stake, coinUsed, subUsed, limits)
                  && order.limitPrice == IocLimitPrice(mark, isBuy, szDecimals, SLIPPAGE_CAP).value
                  && SizedFor(order.size, ask, order.stake, szDecimals))
  {
    if HasRoom(ask, isBuy, coinUsed, subUsed, mark, limits, szDecimals) {
      var granted := Grant(ask.stake, coinUsed, subUsed, limits);
      assert JudgeEntry(ask.stake, ask.leverage, coinUsed, subUsed, limits) == Granted(granted, granted < ask.stake);
      SizesAreExact(ask, granted, szDecimals);
    }
  }

  lemma SizesAreExact(ask: Ask, granted: real, szDecimals: int)
    requires ask.Ask? && ask.stake > 0.0
    ensures var size := ClampedSize(ask.size, ask.stake, granted, szDecimals);
            && (size.Ok? ==> SizedFor(size.value, ask, granted, szDecimals))
            && forall x: real :: SizedFor(x, ask, granted, szDecimals) ==> size == Ok(x)
  {
    var size := ClampedSize(ask.size, ask.stake, granted, szDecimals);
    if granted < ask.stake {
      var share := Over(Times(ask.size, granted), ask.stake);
      OverTimes(Times(ask.size, granted), ask.stake);
      RoundSizeTruncates(share, szDecimals);
      assert ShareOfAsk(share, ask, granted);
      forall x: real | SizedFor(x, ask, granted, szDecimals) ensures size == Ok(x) {
        var raw: real :| ShareOfAsk(raw, ask, granted) && Truncates(x, raw, szDecimals);
        TimesOrders(raw, share, ask.stake);
        TimesOrders(share, raw, ask.stake);
        TruncationIsUnique(x, raw, szDecimals);
      }
    }
  }

  /** At the mark, that is. A buy filled anywhere up to its limit takes at most one percent
      more margin than was granted. */
  lemma WorstFillWithinOnePercent(ask: Ask, coinUsed: real, subUsed: real, mark: real, limits: Limits,
      szDecimals: int, fill: real)
    requires Backed(ask, mark) && EntryOrder(ask, true, coinUsed, subUsed, mark, limits, szDecimals).Send?
    requires fill <= EntryOrder(ask, true, coinUsed, subUsed, mark, limits, szDecimals).limitPrice
    ensures var order := EntryOrder(ask, true, coinUsed, subUsed, mark, limits, szDecimals);
            Margin(order.size, fill, order.leverage) <= Times(order.stake, 1.01)
  {
    var order := EntryOrder(ask, true, coinUsed, subUsed, mark, limits, szDecimals);
    EntryWithinCaps(ask, true, coinUsed, subUsed, mark, limits, szDecimals);
    LimitNeverBeyondTheCap(mark, true, szDecimals, SLIPPAGE_CAP);
    var leverage := order.leverage as real;
    OverTimes(Times(order.size, mark), leverage);
    TimesLe(Margin(order.size, mark, order.leverage), order.stake, leverage);
    WorstFill(order.size, mark, fill, order.stake, leverage);
    MarginFits(order.size, fill, order.leverage, Times(order.stake, 1.01));
  }

  lemma WorstFill(size: real, mark: real, fill: real, stake: real, leverage: real)
    requires size >= 0.0 && fill <= Times(mark, 1.01) && Times(size, mark) <= Times(stake, leverage)
    ensures Times(size, fill) <= Times(Times(stake, 1.01), leverage)
  {
    TimesLe(fill, Times(mark, 1.01), size);
    TimesCommutes(fill, size);
    TimesCommutes(Times(mark, 1.01), size);
    TimesAssociates(size, mark, 1.01);
    TimesLe(Times(size, mark), Times(stake, leverage), 1.01);
    TimesAssociates(stake, leverage, 1.01);
    TimesAssociates(stake, 1.01, leverage);
    TimesCommutes(1.01, leverage);
  }

  /** A fill of this size at this price, on top of what is committed, fits both caps. */
  predicate FitsAt(size: real, price: real, leverage: int, coinUsed: real, subUsed: real, limits: Limits)
    requires leverage >= 1
  {
    && coinUsed + Margin(size, price, leverage) <= limits.maxCoinStake
    && subUsed + Margin(size, price, leverage) <= limits.maxSubStake
  }

  lemma MarginGrowsWithPrice(size: real, low: real, high: real, leverage: int)
    requires size > 0.0 && leverage >= 1
    ensures low <= high <==> Margin(size, low, leverage) <= Margin(size, high, leverage)
  {
    TimesOrders(low, high, size);
    TimesCommutes(low, size);
    TimesCommutes(high, size);
    OverTimes(Times(size, low), leverage as real);
    OverTimes(Times(size, high), leverage as real);
    TimesOrders(Margin(size, low, leverage), Margin(size, high, leverage), leverage as real);
  }

  /** Exactly when a buy keeps the caps wherever it fills: when it would at its limit. */
  lemma BuyFitsIffItsLimitDoes(ask: Ask, coinUsed: real, subUsed: real, mark: real, limits: Limits, szDecimals: int)
    requires Backed(ask, mark) && EntryOrder(ask, true, coinUsed, subUsed, mark, limits, szDecimals).Send?
    ensures var o := EntryOrder(ask, true, coinUsed, subUsed, mark, limits, szDecimals);
            (forall fill: real :: fill <= o.limitPrice ==> FitsAt(o.size, fill, o.leverage, coinUsed, subUsed, limits))
            <==> FitsAt(o.size, o.limitPrice, o.leverage, coinUsed, subUsed, limits)
  {
    var o := EntryOrder(ask, true, coinUsed, subUsed, mark, limits, szDecimals);
    EntryWithinCaps(ask, true, coinUsed, subUsed, mark, limits, szDecimals);
    LowerFillsFit(o.size, o.limitPrice, o.leverage, coinUsed, subUsed, limits);
  }

  lemma LowerFillsFit(size: real, price: real, leverage: int, coinUsed: real, subUsed: real, limits: Limits)
    requires size > 0.0 && leverage >= 1
    ensures FitsAt(size, price, leverage, coinUsed, subUsed, limits) ==>
              forall fill: real :: fill <= price ==> FitsAt(size, fill, leverage, coinUsed, subUsed, limits)
  {
    forall fill: real | fill <= price
      ensures Margin(size, fill, leverage) <= Margin(size, price, leverage)
    {
      MarginGrowsWithPrice(size, fill, price, leverage);
    }
  }

  /** What the caps leave, as the position they would carry. */
  function NotionalRoom(coinUsed: real, subUsed: real, leverage: int, limits: Limits): real {
    Times(RealMin(limits.maxCoinStake - coinUsed, limits.maxSubStake - subUsed), leverage as real)
  }

  /** A sell's limit is a floor, and nothing caps its fill from above: it fits at the mark
      and at every worse price, fits at any price exactly while its notional stays within
      what the caps leave, and so at some price it may fill at it does not. */
  lemma SellFitsUpToTheCaps(ask: Ask, coinUsed: real, subUsed: real, mark: real, limits: Limits, szDecimals: int,
      fill: real)
    requires Backed(ask, mark) && EntryOrder(ask, false, coinUsed, subUsed, mark, limits, szDecimals).Send?
    ensures var o := EntryOrder(ask, false, coinUsed, subUsed, mark, limits, szDecimals);
            && (fill <= mark ==> FitsAt(o.size, fill, o.leverage, coinUsed, subUsed, limits))
            && (FitsAt(o.size, fill, o.leverage, coinUsed, subUsed, limits) <==>
                  Times(o.size, fill) <= NotionalRoom(coinUsed, subUsed, o.leverage, limits))
            && exists dear: real :: dear >= o.limitPrice && !FitsAt(o.size, dear, o.leverage, coinUsed, subUsed, limits)
  {
    var o := EntryOrder(ask, false, coinUsed, subUsed, mark, limits, szDecimals);
    EntryWithinCaps(ask, false, coinUsed, subUsed, mark, limits, szDecimals);
    LowerFillsFit(o.size, mark, o.leverage, coinUsed, subUsed, limits);
    FitsIffNotionalDoes(o.size, fill, o.leverage, coinUsed, subUsed, limits);
    SomeFillIsTooDear(o.size, o.limitPrice, o.leverage, coinUsed, subUsed, limits);
  }

  lemma FitsIffNotionalDoes(size: real, fill: real, leverage: int, coinUsed: real, subUsed: real, limits: Limits)
    requires leverage >= 1
    ensures FitsAt(size, fill, leverage, coinUsed, subUsed, limits) <==>
              Times(size, fill) <= NotionalRoom(coinUsed, subUsed, leverage, limits)
  {
    var room := RealMin(limits.maxCoinStake - coinUsed, limits.maxSubStake - subUsed);
    OverTimes(Times(size, fill), leverage as real);
    TimesOrders(Margin(size, fill, leverage), room, leverage as real);
  }

  lemma SomeFillIsTooDear(size: real, floor: real, leverage: int, coinUsed: real, subUsed: real, limits: Limits)
    requires size > 0.0 && leverage >= 1
    ensures exists dear: real :: dear >= floor && !FitsAt(size, dear, leverage, coinUsed, subUsed, limits)
  {
    var room := NotionalRoom(coinUsed, subUsed, leverage, limits);
    var past := Over(room + 1.0, size);
    var dear := RealMax(floor, past);
    OverTimes(room + 1.0, size);
    TimesLe(past, dear, size);
    TimesCommutes(dear, size);
    FitsIffNotionalDoes(size, dear, leverage, coinUsed, subUsed, limits);
  }

  /** And that percent is real: a $100 cap can be filled at $101. */
  lemma CapCanBePassedByAFill()
    ensures exists ask: Ask, mark: real, limits: Limits, szDecimals: int ::
              && Valid(limits) && Backed(ask, mark)
              && var order := EntryOrder(ask, true, 0.0, 0.0, mark, limits, szDecimals);
                 order.Send? && order.leverage >= 1
                     && Margin(order.size, order.limitPrice, order.leverage) > limits.maxCoinStake
  {
    var ask, limits := Ask(1, 100.0, 1.0), Limits(100.0, 100.0, 10);
    TimesOne(100.0);
    LimitAtAHundred(100.0);
    assert JudgeEntry(100.0, 1, 0.0, 0.0, limits) == Granted(100.0, false);
    assert EntryOrder(ask, true, 0.0, 0.0, 100.0, limits, 6) == Send(1.0, 1, 101.0, 100.0);
    TimesOne(101.0);
    HundredAndOne();
  }

  lemma HundredAndOne()
    ensures Margin(1.0, 101.0, 1) == 101.0
  {
    OverTimes(Times(1.0, 101.0), 1.0);
    TimesOne(Over(Times(1.0, 101.0), 1.0));
    TimesOne(101.0);
  }

  lemma LimitAtAHundred(mark: real)
    requires mark == 100.0
    ensures IocLimitPrice(mark, true, 6, SLIPPAGE_CAP) == Ok(101.0)
  {
    OnePercentOver(mark);
    TimesOne(101.0);
    assert PriceDecimals(101.0, 6) == 0;
    assert Tick(101.0, 6) == Grid(1.0, 1.0);
    assert Quantize(101.0, Grid(1.0, 1.0), Down) == 101.0;
  }

  lemma OnePercentOver(mark: real)
    requires mark == 100.0
    ensures IocBound(mark, true, SLIPPAGE_CAP) == 101.0
  {
  }
}
