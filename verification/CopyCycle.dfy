// One copy sub through one executor cycle (src/epigone/execute/executor.py,
// src/epigone/execute/episodes.py): entries, reduce-only exits, flips, the working copy of
// positions and the episode rows, against a venue that fills, rejects or loses its answer.
module CopyCycle {
  import opened CopyClaims
  import opened PositionDiff
  import opened Pricing
  import opened Reals
  import opened RiskPolicy
  import opened Wrappers

  const ENTRY_STALENESS_GUARD := 300_000_000
  const LEADER_EQUITY_FLOOR := 100.0

  // ---------------------------------------------------------------------------
  // State and surroundings
  // ---------------------------------------------------------------------------

  datatype Episode = Episode(coin: Coin, side: Side, size: real, live: bool)

  /** An order on the wire, with what the venue held of its coin when it arrived. */
  datatype Sent = Sent(leg: Leg, coin: Coin, isBuy: bool, size: real, onto: real)

  /** The cycle's working copy of positions, the episode rows, what the venue truly holds
      (long positive, short negative, absent nothing) and every order sent. */
  datatype Sub = Sub(positions: map<Coin, Position>, episodes: seq<Episode>, venue: map<Coin, real>,
                     sent: seq<Sent>)

  datatype Event = Event(kind: Kind, coin: Coin, side: Option<Side>, before: Option<real>, after: Option<real>,
                         leverage: Option<real>, observedAt: int)

  /** The schema's checks on an event row. */
  predicate WellFormed(e: Event) { e.kind != Close ==> e.side.Some? }

  /** How an order fares: its fill, or an answer that never came back although the venue
      may have executed. */
  datatype Answer = Fill(size: real, price: real) | Reject | Rest | Lost(executed: real)

  /** What one attempt of an exit finds: a halt, the mark, the order's fate, and whether the
      venue holds the order to reducing. */
  datatype Try = Try(halted: bool, mark: real, answer: Answer, reduceOnly: bool)

  datatype Market = MarketUnreadable | NotCopyable | Copyable(maxLeverage: int)

  /** Everything a leg reads from outside the sub. */
  datatype Weather = Weather(now: int, spec: Option<int>, mark: real, leaderEquity: Option<real>, market: Market,
                             won: bool, halted: bool, leverageSet: bool, haltedAgain: bool, answer: Answer,
                             tries: nat -> Try)

  /** The mapping's own configuration and the operator's limits. */
  datatype Terms = Terms(windingDown: bool, baseStake: real, mode: Mode, configured: Option<int>,
                         limits: Limits)

  /** Where a leg leaves the sub, whether this instance owns the event, and whether the wire
      raised. */
  datatype Outcome = Outcome(sub: Sub, owns: bool, raised: bool)

  function At(venue: map<Coin, real>, c: Coin): real { if c in venue then venue[c] else 0.0 }

  function LiveEpisode(episodes: seq<Episode>, c: Coin): (k: Option<nat>)
    ensures k.Some? ==> k.value < |episodes| && episodes[k.value].live && episodes[k.value].coin == c
    ensures k.None? ==> forall j :: 0 <= j < |episodes| && episodes[j].live ==> episodes[j].coin != c
  {
    if episodes == [] then None
    else
      var n := |episodes| - 1;
      if episodes[n].live && episodes[n].coin == c then Some(n) else LiveEpisode(episodes[..n], c)
  }

  /** What there is to reduce by an order in this direction. */
  function Reducible(held: real, isBuy: bool): real { RealMax(if isBuy then -held else held, 0.0) }

  /** The venue's answer, never for more than there is room for. */
  function Honoured(answer: Answer, room: real): Answer {
    match answer
    case Fill(size, price) => if size <= 0.0 || room <= 0.0 then Reject else Fill(RealMin(size, room), price)
    case Lost(executed) => Lost(RealMin(RealMax(executed, 0.0), RealMax(room, 0.0)))
    case _ => answer
  }

  function Executed(answer: Answer): real {
    match answer
    case Fill(size, _) => size
    case Lost(executed) => executed
    case _ => 0.0
  }

  /** The order reaches the venue: it is on the log and the holding moves. */
  function Placed(s: Sub, order: Sent, moved: real): Sub {
    s.(venue := s.venue[order.coin := At(s.venue, order.coin) + (if order.isBuy then moved else -moved)],
       sent := s.sent + [order])
  }

  // ---------------------------------------------------------------------------
  // Exits
  // ---------------------------------------------------------------------------

  /** A reduction so far: the sub after its orders, what was reported filled, whether it
      raised. */
  datatype Reduction = Reduction(sub: Sub, filled: real, raised: bool)

  /** What an exit sets out to do. */
  datatype Aim = Aim(leg: Leg, coin: Coin, isBuy: bool, target: real)

  function ReduceOrder(s: Sub, aim: Aim, remaining: real, szDecimals: int, mark: real): Option<Sent> {
    var price := IocLimitPrice(mark, aim.isBuy, szDecimals, SLIPPAGE_CAP);
    var size := RoundSize(remaining, szDecimals);
    if price.Unpriceable? || size.Unpriceable? then None
    else Some(Sent(aim.leg, aim.coin, aim.isBuy, size.value, At(s.venue, aim.coin)))
  }

  /** How an attempt at a remainder is sized and priced; None breaks the loop. */
  type Planner = (Sub, real, real) -> Option<Sent>

  function ReducePlanner(aim: Aim, szDecimals: int): Planner {
    (s: Sub, remaining: real, mark: real) => ReduceOrder(s, aim, remaining, szDecimals, mark)
  }

  function ReduceOnce(r: Reduction, order: Sent, t: Try): Reduction {
    var reducible := Reducible(At(r.sub.venue, order.coin), order.isBuy);
    var honoured := Honoured(t.answer, if t.reduceOnly then RealMin(order.size, reducible) else order.size);
    Reduction(Placed(r.sub, order, Executed(honoured)),
              if honoured.Fill? then r.filled + honoured.size else r.filled,
              honoured.Lost?)
  }

  /** Attempt `k`: a halt seen on a retry or an unpriceable remainder ends the loop instead. */
  function AttemptAt(k: nat, r: Reduction, order: Option<Sent>, t: Try): Option<Reduction> {
    if (k > 0 && t.halted) || order.None? then None else Some(ReduceOnce(r, order.value, t))
  }

  type Attempt = (nat, Reduction) -> Option<Reduction>

  function Attempts(target: real, plan: Planner, tries: nat -> Try): Attempt {
    (k: nat, r: Reduction) => AttemptAt(k, r, plan(r.sub, target - r.filled, tries(k).mark), tries(k))
  }

  /** Attempts `k` and on, until the wire raises or nothing remains. */
  function ReduceFrom(k: nat, r: Reduction, target: real, attempt: Attempt): Reduction
    decreases EXIT_RETRY_ATTEMPTS - k
  {
    if k >= EXIT_RETRY_ATTEMPTS || attempt(k, r).None? then r
    else
      var next := attempt(k, r).value;
      if next.raised || target - next.filled <= 0.0 then next else ReduceFrom(k + 1, next, target, attempt)
  }

  function Reduced(s: Sub, target: real, attempt: Attempt): Reduction {
    ReduceFrom(0, Reduction(s, 0.0, false), target, attempt)
  }

  /** The working copy in step with a fill; nothing left is no position. */
  function Refilled(positions: map<Coin, Position>, c: Coin, side: Side, size: real, price: real,
                    leverage: Leverage): map<Coin, Position>
  {
    if size <= 0.0 then positions - {c}
    else positions[c := Position(c, side, Times(size, price), leverage, price, 0.0, Some(size), None, None)]
  }

  predicate FullExit(leg: Leg) { leg == CloseLeg || leg == FlipClose }

  /** A full exit that left nothing ends its episode; any other adopts what is left. */
  function EpisodesAfter(episodes: seq<Episode>, k: nat, leg: Leg, filled: real, remaining: real): seq<Episode>
    requires k < |episodes|
  {
    var e := episodes[k];
    if FullExit(leg) then episodes[k := if remaining > 0.0 then e.(size := remaining) else e.(live := false)]
    else episodes[k := e.(size := RealMax(e.size - filled, 0.0))]
  }

  function ExitTarget(e: Event, leg: Leg, held: real, szDecimals: int): Priced {
    if leg == ScaleOutLeg then
      var fraction := ScaleFraction(e.before, e.after);
      if fraction.Unpriceable? then Unpriceable else RelativeSize(held, fraction.value, szDecimals)
    else RoundSize(held, szDecimals)
  }

  /** Too small for the venue at our own position's price. */
  predicate Sliver(target: real, p: Position)
    requires p.sizeCoin.Some?
  {
    p.sizeCoin.value > 0.0 && Times(target, Over(p.sizeUsd, p.sizeCoin.value)) < MIN_ORDER_NOTIONAL
  }

  /** The order an exit goes out with, if it goes out at all. */
  function ExitPlan(s: Sub, e: Event, leg: Leg, w: Weather): Priced {
    if LiveEpisode(s.episodes, e.coin).None? || e.coin !in s.positions || s.positions[e.coin].sizeCoin.None?
       || w.spec.None?
    then Unpriceable
    else
      var target := ExitTarget(e, leg, s.positions[e.coin].sizeCoin.value, w.spec.value);
      if target.Unpriceable? || Sliver(target.value, s.positions[e.coin]) then Unpriceable else target
  }

  /** After the orders: the working copy and the episode follow what was filled, unless the
      wire raised. */
  function ExitSettled(s: Sub, k: nat, aim: Aim, r: Reduction): Outcome
    requires k < |s.episodes| && aim.coin in s.positions && s.positions[aim.coin].sizeCoin.Some?
  {
    if r.raised then Outcome(r.sub, false, true)
    else
      var p := s.positions[aim.coin];
      var left := p.sizeCoin.value - r.filled;
      var positions := Refilled(s.positions, aim.coin, s.episodes[k].side, left, p.entryPrice, p.leverage);
      var episodes := EpisodesAfter(s.episodes, k, aim.leg, r.filled, RealMax(aim.target - r.filled, 0.0));
      Outcome(r.sub.(positions := positions, episodes := episodes), true, false)
  }

  function ExitAim(s: Sub, e: Event, leg: Leg, w: Weather): Aim
    requires ExitPlan(s, e, leg, w).Ok?
  {
    var k := LiveEpisode(s.episodes, e.coin).value;
    Aim(leg, e.coin, s.episodes[k].side == Short, ExitPlan(s, e, leg, w).value)
  }

  /** The exit's orders, once it is ours to make. */
  function ExitReduction(s: Sub, e: Event, leg: Leg, w: Weather): Reduction
    requires ExitPlan(s, e, leg, w).Ok?
  {
    var aim := ExitAim(s, e, leg, w);
    Reduced(s, aim.target, Attempts(aim.target, ReducePlanner(aim, w.spec.value), w.tries))
  }

  /** Exits are gated by nothing but having something to exit: a skip still owns the event. */
  function Exit(s: Sub, e: Event, leg: Leg, w: Weather): Outcome {
    if ExitPlan(s, e, leg, w).Unpriceable? then Outcome(s, w.won, false)
    else if !w.won || w.halted then Outcome(s, false, false)
    else
      var k := LiveEpisode(s.episodes, e.coin).value;
      ExitSettled(s, k, ExitAim(s, e, leg, w), ExitReduction(s, e, leg, w))
  }

  // ---------------------------------------------------------------------------
  // Entries
  // ---------------------------------------------------------------------------

  /** The margin the whole sub has at risk, from its positions. */
  ghost function Committed(positions: map<Coin, Position>): real {
    if positions == map[] then 0.0
    else var c :| c in positions; positions[c].Margin() + Committed(positions - {c})
  }

  /** Whichever position is counted first, the total is the same. */
  lemma {:induction false} CommittedWithout(positions: map<Coin, Position>, c: Coin)
    requires c in positions
    ensures Committed(positions) == positions[c].Margin() + Committed(positions - {c})
    ensures Committed(map[]) == 0.0
    decreases |positions|
  {
    var first :| first in positions
                 && Committed(positions) == positions[first].Margin() + Committed(positions - {first});
    if first != c {
      CommittedWithout(positions - {first}, c);
      CommittedWithout(positions - {c}, first);
      assert positions - {first} - {c} == positions - {c} - {first};
    }
  }

  datatype Reason = LossBudget | StaleEntry | Unorderable | NoLocalPosition | CoinOccupied | Unreadable
                  | LivenessFloor | LiquidityFloor

  /** Why an entry does not happen, cheapest question first. */
  function EntrySkip(s: Sub, e: Event, leg: Leg, terms: Terms, w: Weather): Option<Reason> {
    var episode := LiveEpisode(s.episodes, e.coin);
    if terms.windingDown then Some(LossBudget)
    else if w.now - e.observedAt > ENTRY_STALENESS_GUARD then Some(StaleEntry)
    else if w.spec.None? then Some(Unorderable)
    else if leg == ScaleInLeg then
      if episode.None? || e.coin !in s.positions || s.positions[e.coin].sizeCoin.None? then Some(NoLocalPosition)
      else None
    else if episode.Some? || e.coin in s.positions then Some(CoinOccupied)
    else if w.leaderEquity.None? then Some(Unreadable)
    else if w.leaderEquity.value < LEADER_EQUITY_FLOOR then Some(LivenessFloor)
    else if w.market.MarketUnreadable? then Some(Unreadable)
    else if w.market.NotCopyable? then Some(LiquidityFloor)
    else None
  }

  /** What the schema and the venue promise of the numbers an entry reads. */
  predicate Sane(terms: Terms, w: Weather) {
    && Valid(terms.limits) && (terms.configured.Some? ==> terms.configured.value >= 1)
    && (w.market.Copyable? ==> w.market.maxLeverage >= 1)
  }

  function OpenLeverage(e: Event, terms: Terms, w: Weather): LeverageChoice
    requires w.market.Copyable?
  {
    ResolveLeverage(terms.mode, terms.configured, e.leverage, w.market.maxLeverage, terms.limits)
  }

  function EntryAsk(s: Sub, e: Event, leg: Leg, terms: Terms, w: Weather): Ask
    requires EntrySkip(s, e, leg, terms, w).None?
  {
    if leg == ScaleInLeg then
      var p := s.positions[e.coin];
      ScaleAsk(p.sizeCoin.value, p.leverage, e.before, e.after, w.mark, w.spec.value)
    else
      OpenAsk(terms.baseStake, OpenLeverage(e, terms, w), w.mark, w.spec.value)
  }

  function CoinStake(positions: map<Coin, Position>, c: Coin): real {
    if c in positions then positions[c].Margin() else 0.0
  }

  ghost function EntryPlan(s: Sub, e: Event, leg: Leg, terms: Terms, w: Weather): PlannedEntry
    requires e.side.Some?
  {
    if EntrySkip(s, e, leg, terms, w).Some? then Skip
    else
      EntryOrder(EntryAsk(s, e, leg, terms, w), e.side == Some(Long), CoinStake(s.positions, e.coin),
                 Committed(s.positions), w.mark, terms.limits, w.spec.value)
  }

  lemma EntryAskIsBacked(s: Sub, e: Event, leg: Leg, terms: Terms, w: Weather)
    requires EntrySkip(s, e, leg, terms, w).None? && Sane(terms, w)
    ensures Backed(EntryAsk(s, e, leg, terms, w), w.mark)
  {
    if leg == ScaleInLeg {
      var p := s.positions[e.coin];
      ScaleAskIsBacked(p.sizeCoin.value, p.leverage, e.before, e.after, w.mark, w.spec.value);
    } else {
      LeverageIsCapped(terms.mode, terms.configured, e.leverage, w.market.maxLeverage, terms.limits);
      OpenAskIsBacked(terms.baseStake, OpenLeverage(e, terms, w), w.mark, w.spec.value);
    }
  }

  /** Every entry the cycle plans, fresh open or scale-in, fits both stake caps on top of
      everything the working copy holds. */
  lemma PlannedEntryWithinCaps(s: Sub, e: Event, leg: Leg, terms: Terms, w: Weather)
    requires e.side.Some? && Sane(terms, w) && EntryPlan(s, e, leg, terms, w).Send?
    ensures var plan := EntryPlan(s, e, leg, terms, w);
            && plan.leverage >= 1 && plan.size > 0.0
            && CoinStake(s.positions, e.coin) + Margin(plan.size, w.mark, plan.leverage) <= terms.limits.maxCoinStake
            && Committed(s.positions) + Margin(plan.size, w.mark, plan.leverage) <= terms.limits.maxSubStake
  {
    EntryAskIsBacked(s, e, leg, terms, w);
    EntryWithinCaps(EntryAsk(s, e, leg, terms, w), e.side == Some(Long), CoinStake(s.positions, e.coin),
                    Committed(s.positions), w.mark, terms.limits, w.spec.value);
  }

  function HeldSize(positions: map<Coin, Position>, c: Coin): real {
    if c in positions then positions[c].sizeCoin.GetOr(0.0) else 0.0
  }

  /** A fill opens an episode, or grows the one that is live. */
  function Grown(episodes: seq<Episode>, c: Coin, side: Side, filled: real): seq<Episode> {
    var k := LiveEpisode(episodes, c);
    if k.None? then episodes + [Episode(c, side, filled, true)]
    else episodes[k.value := episodes[k.value].(size := episodes[k.value].size + filled)]
  }

  predicate LetsThrough(leg: Leg, w: Weather) {
    (Claims(leg) ==> w.won) && !w.halted && (leg != ScaleInLeg ==> w.leverageSet && !w.haltedAgain)
  }

  /** One shot, accepted as it fills. */
  ghost function Enter(s: Sub, e: Event, leg: Leg, terms: Terms, w: Weather): Outcome
    requires e.side.Some? && Sane(terms, w)
  {
    var plan := EntryPlan(s, e, leg, terms, w);
    if plan.Skip? || !LetsThrough(leg, w) then Outcome(s, w.won, false)
    else
      PlannedEntryWithinCaps(s, e, leg, terms, w);
      EntryPlaced(s, e, leg, plan, w.answer)
  }

  function EntryPlaced(s: Sub, e: Event, leg: Leg, plan: PlannedEntry, answer: Answer): Outcome
    requires e.side.Some? && plan.Send? && plan.leverage >= 1
  {
    var c, side := e.coin, e.side.value;
    var honoured := Honoured(answer, plan.size);
    var placed := Placed(s, Sent(leg, c, side == Long, plan.size, At(s.venue, c)), Executed(honoured));
    if honoured.Fill? then
      var size := HeldSize(s.positions, c) + honoured.size;
      Outcome(placed.(positions := Refilled(s.positions, c, side, size, honoured.price, plan.leverage as real),
                      episodes := Grown(s.episodes, c, side, honoured.size)), true, false)
    else Outcome(placed, true, honoured.Lost?)
  }

  // ---------------------------------------------------------------------------
  // Events
  // ---------------------------------------------------------------------------

  /** One event: an entry, an exit, or a flip's close leg and then, if that leg says the
      event is ours, its open leg. */
  ghost function Handle(s: Sub, e: Event, terms: Terms, w: Weather, w': Weather): Outcome
    requires WellFormed(e) && Sane(terms, w) && Sane(terms, w')
  {
    match e.kind
    case Open => Enter(s, e, OpenLeg, terms, w)
    case ScaleIn => Enter(s, e, ScaleInLeg, terms, w)
    case Close => Exit(s, e, CloseLeg, w)
    case ScaleOut => Exit(s, e, ScaleOutLeg, w)
    case Flip =>
      var closed := Exit(s, e, FlipClose, w);
      if closed.raised || !closed.owns then closed else Enter(closed.sub, e, FlipOpen, terms, w')
  }

  // ---------------------------------------------------------------------------
  // An exit never over-closes
  // ---------------------------------------------------------------------------

  /** How far a holding has moved in an order's direction. */
  function Moved(before: real, after: real, isBuy: bool): real { if isBuy then after - before else before - after }

  predicate OnlyAt(a: map<Coin, real>, b: map<Coin, real>, c: Coin) {
    forall d :: d in a.Keys + b.Keys && d != c ==> At(a, d) == At(b, d)
  }

  /** From `r` to `q` only this coin's venue holding and the log moved, by exactly what was
      reported filled unless the last answer was lost, even then by no more than the target
      left, and never past zero if the venue held every order to reducing. */
  predicate ReducesTo(r: Reduction, q: Reduction, aim: Aim, reduceOnly: bool) {
    var moved := Moved(At(r.sub.venue, aim.coin), At(q.sub.venue, aim.coin), aim.isBuy);
    && q.sub.positions == r.sub.positions && q.sub.episodes == r.sub.episodes
    && OnlyAt(r.sub.venue, q.sub.venue, aim.coin)
    && 0.0 <= q.filled - r.filled <= moved <= aim.target - r.filled
    && (!q.raised ==> q.filled - r.filled == moved)
    && (reduceOnly ==> moved <= Reducible(At(r.sub.venue, aim.coin), aim.isBuy))
  }

  /** An order toward the aim, for no more than its target. */
  predicate Toward(order: Sent, aim: Aim) {
    order.leg == aim.leg && order.coin == aim.coin && order.isBuy == aim.isBuy && 0.0 < order.size <= aim.target
  }

  /** The orders added: at most so many, all toward the aim. */
  predicate Adds(before: seq<Sent>, after: seq<Sent>, limit: int, aim: Aim) {
    && |before| <= |after| <= |before| + limit && after[..|before|] == before
    && forall k :: |before| <= k < |after| ==> Toward(after[k], aim)
  }

  /** The venue executed nothing of this order. */
  predicate Idle(answer: Answer) { Executed(answer) <= 0.0 }

  /** None of the orders answered by attempts `from` to `to` executed. */
  predicate IdleFor(tries: nat -> Try, from: nat, to: int) {
    forall k: nat :: from <= k < to ==> Idle(tries(k).answer)
  }

  /** What the answers from attempt `k` on say of the orders between `r` and `q`: the wire
      raised if and only if the last one's answer was lost, and the venue is where it was if
      and only if none of them executed. */
  predicate Tells(tries: nat -> Try, k: nat, r: Reduction, q: Reduction, aim: Aim) {
    var sent := |q.sub.sent| - |r.sub.sent|;
    && 0 <= sent
    && (q.raised <==> sent > 0 && tries(k + sent - 1).answer.Lost?)
    && 0.0 <= Moved(At(r.sub.venue, aim.coin), At(q.sub.venue, aim.coin), aim.isBuy)
    && (Reducible(At(r.sub.venue, aim.coin), aim.isBuy) > 0.0 ==>
          (At(q.sub.venue, aim.coin) == At(r.sub.venue, aim.coin) <==> IdleFor(tries, k, k + sent)))
  }

  /** The venue held every order of the leg to reducing. */
  ghost predicate HeldToReducing(tries: nat -> Try) { forall k: nat :: tries(k).reduceOnly }

  /** A retry that may go on. */
  predicate Going(r: Reduction, target: real) { !r.raised && 0.0 <= r.filled <= target }

  /** All a retry from attempt `k` keeps between two of its states. */
  predicate Keeps(k: nat, r: Reduction, q: Reduction, aim: Aim, tries: nat -> Try, reduceOnly: bool) {
    && ReducesTo(r, q, aim, reduceOnly)
    && Adds(r.sub.sent, q.sub.sent, EXIT_RETRY_ATTEMPTS - k, aim)
    && Tells(tries, k, r, q, aim)
  }

  predicate KeepsOnce(k: nat, r: Reduction, next: Option<Reduction>, aim: Aim, tries: nat -> Try, reduceOnly: bool) {
    next.Some? && Going(r, aim.target) && k < EXIT_RETRY_ATTEMPTS ==>
      && Keeps(k, r, next.value, aim, tries, reduceOnly)
      && |next.value.sub.sent| == |r.sub.sent| + 1 && 0.0 <= next.value.filled <= aim.target
  }

  ghost predicate Careful(attempt: Attempt, aim: Aim, tries: nat -> Try, reduceOnly: bool) {
    forall k: nat, r: Reduction :: KeepsOnce(k, r, attempt(k, r), aim, tries, reduceOnly)
  }

  lemma OrderReduces(r: Reduction, order: Sent, aim: Aim, t: Try, reduceOnly: bool)
    requires Going(r, aim.target) && Toward(order, aim.(target := aim.target - r.filled))
    requires reduceOnly ==> t.reduceOnly
    ensures var next := ReduceOnce(r, order, t);
            ReducesTo(r, next, aim, reduceOnly) && 0.0 <= next.filled <= aim.target
  {
  }

  lemma OrderTells(k: nat, r: Reduction, order: Sent, aim: Aim, tries: nat -> Try)
    requires Going(r, aim.target) && Toward(order, aim.(target := aim.target - r.filled))
    ensures Tells(tries, k, r, ReduceOnce(r, order, tries(k)), aim)
    ensures |ReduceOnce(r, order, tries(k)).sub.sent| == |r.sub.sent| + 1
  {
    assert IdleFor(tries, k, k + 1) <==> Idle(tries(k).answer);
  }

  /** Every order planned is toward the aim and no larger than the remainder. */
  ghost predicate Frugal(plan: Planner, aim: Aim) {
    forall s: Sub, remaining: real, mark: real :: FrugalAt(plan(s, remaining, mark), aim, remaining)
  }

  predicate FrugalAt(order: Option<Sent>, aim: Aim, remaining: real) {
    order.Some? ==> Toward(order.value, aim.(target := remaining))
  }

  lemma PlannerIsFrugal(aim: Aim, szDecimals: int)
    ensures Frugal(ReducePlanner(aim, szDecimals), aim)
  {
    forall s: Sub, remaining: real, mark: real
      ensures FrugalAt(ReducePlanner(aim, szDecimals)(s, remaining, mark), aim, remaining)
    {
      RoundSizeTruncates(remaining, szDecimals);
    }
  }

  lemma AttemptIsCareful(k: nat, r: Reduction, order: Option<Sent>, aim: Aim, tries: nat -> Try, reduceOnly: bool)
    requires FrugalAt(order, aim, aim.target - r.filled)
    requires reduceOnly ==> tries(k).reduceOnly
    ensures KeepsOnce(k, r, AttemptAt(k, r, order, tries(k)), aim, tries, reduceOnly)
  {
    if Going(r, aim.target) && order.Some? {
      OrderReduces(r, order.value, aim, tries(k), reduceOnly);
      OrderTells(k, r, order.value, aim, tries);
    }
  }

  lemma AttemptsAreCareful(aim: Aim, plan: Planner, tries: nat -> Try, reduceOnly: bool)
    requires Frugal(plan, aim) && (reduceOnly ==> HeldToReducing(tries))
    ensures Careful(Attempts(aim.target, plan, tries), aim, tries, reduceOnly)
  {
    forall k: nat, r: Reduction
      ensures KeepsOnce(k, r, Attempts(aim.target, plan, tries)(k, r), aim, tries, reduceOnly)
    {
      var order := plan(r.sub, aim.target - r.filled, tries(k).mark);
      assert FrugalAt(order, aim, aim.target - r.filled);
      AttemptIsCareful(k, r, order, aim, tries, reduceOnly);
      assert Attempts(aim.target, plan, tries)(k, r) == AttemptAt(k, r, order, tries(k));
    }
  }

  lemma KeepsNothing(k: nat, r: Reduction, aim: Aim, tries: nat -> Try, reduceOnly: bool)
    requires Going(r, aim.target) && k <= EXIT_RETRY_ATTEMPTS
    ensures Keeps(k, r, r, aim, tries, reduceOnly)
  {
  }

  lemma ReducesOn(r: Reduction, next: Reduction, q: Reduction, aim: Aim, reduceOnly: bool)
    requires ReducesTo(r, next, aim, reduceOnly) && !next.raised && ReducesTo(next, q, aim, reduceOnly)
    ensures ReducesTo(r, q, aim, reduceOnly)
  {
  }

  lemma AddsOn(before: seq<Sent>, mid: seq<Sent>, after: seq<Sent>, limit: int, aim: Aim)
    requires Adds(before, mid, limit, aim) && |mid| == |before| + 1 && Adds(mid, after, limit - 1, aim)
    ensures Adds(before, after, limit, aim)
  {
    assert after[..|before|] == after[..|mid|][..|before|];
    assert after[|before|] == after[..|mid|][|before|];
  }

  lemma TellsOn(k: nat, r: Reduction, next: Reduction, q: Reduction, aim: Aim, tries: nat -> Try)
    requires Tells(tries, k, r, next, aim) && !next.raised && |next.sub.sent| == |r.sub.sent| + 1
    requires Tells(tries, k + 1, next, q, aim)
    ensures Tells(tries, k, r, q, aim)
  {
    var to := k + |q.sub.sent| - |r.sub.sent|;
    assert IdleFor(tries, k, k + 1) <==> Idle(tries(k).answer);
    assert IdleFor(tries, k, to) <==> Idle(tries(k).answer) && IdleFor(tries, k + 1, to);
  }

  /** The bounded retry keeps, from any attempt on, what each of its attempts does. */
  lemma {:induction false} RetryKeeps(k: nat, r: Reduction, aim: Aim, attempt: Attempt, tries: nat -> Try,
      reduceOnly: bool)
    requires k <= EXIT_RETRY_ATTEMPTS && Going(r, aim.target) && Careful(attempt, aim, tries, reduceOnly)
    ensures Keeps(k, r, ReduceFrom(k, r, aim.target, attempt), aim, tries, reduceOnly)
    decreases EXIT_RETRY_ATTEMPTS - k
  {
    KeepsNothing(k, r, aim, tries, reduceOnly);
    assert KeepsOnce(k, r, attempt(k, r), aim, tries, reduceOnly);
    if k < EXIT_RETRY_ATTEMPTS && attempt(k, r).Some? {
      var next := attempt(k, r).value;
      if !next.raised && aim.target - next.filled > 0.0 {
        var q := ReduceFrom(k + 1, next, aim.target, attempt);
        RetryKeeps(k + 1, next, aim, attempt, tries, reduceOnly);
        ReducesOn(r, next, q, aim, reduceOnly);
        AddsOn(r.sub.sent, next.sub.sent, q.sub.sent, EXIT_RETRY_ATTEMPTS - k, aim);
        TellsOn(k, r, next, q, aim, tries);
      }
    }
  }

  /** A whole exit's orders: at most three, which between them never move the venue by more
      than the target, nor past zero where the venue held them to reducing, and whose answers
      tell whether anything moved. */
  lemma ReduceIsSafe(s: Sub, aim: Aim, plan: Planner, tries: nat -> Try, reduceOnly: bool)
    requires aim.target > 0.0 && Frugal(plan, aim) && (reduceOnly ==> HeldToReducing(tries))
    ensures var q := Reduced(s, aim.target, Attempts(aim.target, plan, tries));
            && ReducesTo(Reduction(s, 0.0, false), q, aim, reduceOnly)
            && Adds(s.sent, q.sub.sent, EXIT_RETRY_ATTEMPTS, aim)
            && Tells(tries, 0, Reduction(s, 0.0, false), q, aim)
  {
    AttemptsAreCareful(aim, plan, tries, reduceOnly);
    RetryKeeps(0, Reduction(s, 0.0, false), aim, Attempts(aim.target, plan, tries), tries, reduceOnly);
  }

  lemma TargetIsPositive(e: Event, leg: Leg, held: real, szDecimals: int)
    requires ExitTarget(e, leg, held, szDecimals).Ok?
    ensures ExitTarget(e, leg, held, szDecimals).value > 0.0
    ensures leg != ScaleOutLeg ==>
              && 0 <= szDecimals
              && 0.0 <= held - ExitTarget(e, leg, held, szDecimals).value < Quantum(szDecimals)
  {
    if leg == ScaleOutLeg {
      RoundSizeTruncates(Times(held, ScaleFraction(e.before, e.after).value), szDecimals);
    } else {
      RoundSizeTruncates(held, szDecimals);
    }
  }

  lemma ExitReduces(s: Sub, e: Event, leg: Leg, w: Weather, reduceOnly: bool)
    requires ExitPlan(s, e, leg, w).Ok? && (reduceOnly ==> HeldToReducing(w.tries))
    ensures var aim, q := ExitAim(s, e, leg, w), ExitReduction(s, e, leg, w);
            && ReducesTo(Reduction(s, 0.0, false), q, aim, reduceOnly)
            && Adds(s.sent, q.sub.sent, EXIT_RETRY_ATTEMPTS, aim)
            && Tells(w.tries, 0, Reduction(s, 0.0, false), q, aim)
  {
    var aim := ExitAim(s, e, leg, w);
    PlannerIsFrugal(aim, w.spec.value);
    TargetIsPositive(e, leg, s.positions[e.coin].sizeCoin.value, w.spec.value);
    ReduceIsSafe(s, aim, ReducePlanner(aim, w.spec.value), w.tries, reduceOnly);
  }

  /** An exit from any state, whatever the venue answers or fails to: at most three orders,
      each in the direction that closes and no larger than the target, and nothing moves but
      its own coin, that way, by no more than the target. */
  lemma ExitStaysWithinTarget(s: Sub, e: Event, leg: Leg, w: Weather)
    ensures var o, target := Exit(s, e, leg, w), ExitPlan(s, e, leg, w);
            && OnlyAt(s.venue, o.sub.venue, e.coin)
            && (target.Unpriceable? ==> o.sub == s)
            && (target.Ok? ==>
                  var aim := ExitAim(s, e, leg, w);
                  && Adds(s.sent, o.sub.sent, EXIT_RETRY_ATTEMPTS, aim)
                  && 0.0 <= Moved(At(s.venue, e.coin), At(o.sub.venue, e.coin), aim.isBuy) <= target.value)
  {
    if ExitPlan(s, e, leg, w).Ok? {
      TargetIsPositive(e, leg, s.positions[e.coin].sizeCoin.value, w.spec.value);
      ExitReduces(s, e, leg, w, false);
    }
  }

  /** The holding shrank toward zero, or stayed. */
  predicate TowardZero(before: real, after: real) {
    if before >= 0.0 then 0.0 <= after <= before else before <= after <= 0.0
  }

  /** Where the venue holds the orders to reducing, an exit never reverses and never
      over-closes, from any state of the working copy, stale or not, and through lost
      answers. */
  lemma ExitNeverReverses(s: Sub, e: Event, leg: Leg, w: Weather)
    requires HeldToReducing(w.tries)
    ensures TowardZero(At(s.venue, e.coin), At(Exit(s, e, leg, w).sub.venue, e.coin))
  {
    if ExitPlan(s, e, leg, w).Ok? { ExitReduces(s, e, leg, w, true); }
  }

  /** A trim's coin sizes differ by no more than the leader held. */
  predicate Bounded(e: Event) {
    e.before.Some? && e.after.Some? ==> 0.0 <= e.after.value <= 2.0 * e.before.value
  }

  lemma FractionIsPart(e: Event)
    requires ScaleFraction(e.before, e.after).Ok?
    ensures Bounded(e) <==> ScaleFraction(e.before, e.after).value <= 1.0
  {
    var before, moved := e.before.value, Abs(e.after.value - e.before.value);
    OverTimes(moved, before);
    TimesOne(before);
    TimesOrders(Over(moved, before), 1.0, before);
  }

  /** A bounded trim is sized within what is held. */
  lemma TrimWithinHeld(e: Event, held: real, szDecimals: int)
    requires ExitTarget(e, ScaleOutLeg, held, szDecimals).Ok? && Bounded(e)
    ensures ExitTarget(e, ScaleOutLeg, held, szDecimals).value <= held
  {
    var fraction := ScaleFraction(e.before, e.after).value;
    FractionIsPart(e);
    RoundSizeTruncates(Times(held, fraction), szDecimals);
    TimesLe(fraction, 1.0, held);
    TimesOne(held);
    TimesCommutes(held, fraction);
  }

  /** One that is not passes some holding, whatever the precision. */
  lemma TrimPastHeld(e: Event, szDecimals: nat) returns (held: real)
    requires ScaleFraction(e.before, e.after).Ok? && !Bounded(e) && OnTheWire(szDecimals)
    ensures held > 0.0 && ExitTarget(e, ScaleOutLeg, held, szDecimals).Ok?
    ensures ExitTarget(e, ScaleOutLeg, held, szDecimals).value > held
  {
    var fraction, quantum := ScaleFraction(e.before, e.after).value, Quantum(szDecimals);
    FractionIsPart(e);
    held := Over(quantum, fraction - 1.0);
    OverTimes(quantum, fraction - 1.0);
    TimesOrders(0.0, held, fraction - 1.0);
    TimesOne(fraction - 1.0);
    TimesAdds(fraction, 1.0, held);
    TimesCommutes(held, fraction - 1.0);
    TimesCommutes(held, fraction);
    TimesOne(held);
    RoundSizeTruncates(Times(held, fraction), szDecimals);
  }

  // ---------------------------------------------------------------------------
  // What every leg keeps
  // ---------------------------------------------------------------------------

  function Signed(side: Side, size: real): real { if side == Long then size else -size }

  /** The working copy and the venue agree about one coin. */
  predicate Synced(positions: map<Coin, Position>, venue: map<Coin, real>, c: Coin) {
    if c in positions then
      var p := positions[c];
      p.sizeCoin.Some? && p.sizeCoin.value > 0.0 && At(venue, c) == Signed(p.side, p.sizeCoin.value)
    else At(venue, c) == 0.0
  }

  /** The unique partial index: one live episode a coin. */
  predicate OneLive(episodes: seq<Episode>) {
    forall j, k :: 0 <= j < k < |episodes| && episodes[j].live && episodes[k].live ==>
      episodes[j].coin != episodes[k].coin
  }

  /** A live episode is on the side its coin is held on. */
  predicate SidesAgree(positions: map<Coin, Position>, episodes: seq<Episode>) {
    forall k :: 0 <= k < |episodes| && episodes[k].live && episodes[k].coin in positions ==>
      positions[episodes[k].coin].side == episodes[k].side
  }

  ghost predicate InSync(positions: map<Coin, Position>, venue: map<Coin, real>) {
    forall c :: Synced(positions, venue, c)
  }

  ghost predicate Good(s: Sub) {
    && InSync(s.positions, s.venue)
    && OneLive(s.episodes) && SidesAgree(s.positions, s.episodes)
  }

  /** The exit cannot take more than is held: the venue sees to it, or its own size does. */
  ghost predicate Contained(e: Event, leg: Leg, w: Weather) {
    HeldToReducing(w.tries) || (leg == ScaleOutLeg ==> Bounded(e))
  }

  /** Then from a true working copy what is executed, told or not, is within what is held. */
  lemma ContainedExitStaysWithinHeld(s: Sub, e: Event, leg: Leg, w: Weather)
    requires Good(s) && Contained(e, leg, w) && ExitPlan(s, e, leg, w).Ok?
    ensures var aim, held := ExitAim(s, e, leg, w), s.positions[e.coin].sizeCoin.value;
            && At(s.venue, e.coin) == (if aim.isBuy then -held else held)
            && Reducible(At(s.venue, e.coin), aim.isBuy) == held > 0.0
            && Moved(At(s.venue, e.coin), At(ExitReduction(s, e, leg, w).sub.venue, e.coin), aim.isBuy) <= held
  {
    assert Synced(s.positions, s.venue, e.coin);
    var held := s.positions[e.coin].sizeCoin.value;
    if HeldToReducing(w.tries) {
      ExitReduces(s, e, leg, w, true);
    } else {
      ExitReduces(s, e, leg, w, false);
      TargetIsPositive(e, leg, held, w.spec.value);
      if leg == ScaleOutLeg { TrimWithinHeld(e, held, w.spec.value); }
    }
  }

  /** So an exit sized from a true working copy never reverses and never over-closes even at
      a venue that knows no reduce-only orders: the sizes alone see to it, through partial
      fills, retries and lost answers, as long as a trim is bounded. */
  lemma TrueExitNeverReverses(s: Sub, e: Event, leg: Leg, w: Weather)
    requires Good(s) && (leg == ScaleOutLeg ==> Bounded(e))
    ensures TowardZero(At(s.venue, e.coin), At(Exit(s, e, leg, w).sub.venue, e.coin))
  {
    if ExitPlan(s, e, leg, w).Ok? {
      ExitReduces(s, e, leg, w, false);
      ContainedExitStaysWithinHeld(s, e, leg, w);
    }
  }

  /** An exit's bookkeeping matches what the venue did, unless the wire raised: then it does
      if and only if the venue did nothing. */
  lemma ExitBooks(s: Sub, k: nat, aim: Aim, q: Reduction)
    requires Good(s) && LiveEpisode(s.episodes, aim.coin) == Some(k)
    requires aim.coin in s.positions && s.positions[aim.coin].sizeCoin.Some?
    requires ReducesTo(Reduction(s, 0.0, false), q, aim, false) && aim.isBuy == (s.episodes[k].side == Short)
    requires Moved(At(s.venue, aim.coin), At(q.sub.venue, aim.coin), aim.isBuy)
             <= s.positions[aim.coin].sizeCoin.value
    ensures var o := ExitSettled(s, k, aim, q).sub;
            Good(o) <==> !q.raised || At(q.sub.venue, aim.coin) == At(s.venue, aim.coin)
  {
    var o, c := ExitSettled(s, k, aim, q).sub, aim.coin;
    assert Synced(s.positions, s.venue, c);
    if !q.raised || At(q.sub.venue, c) == At(s.venue, c) {
      forall d ensures Synced(o.positions, o.venue, d) {
        assert Synced(s.positions, s.venue, d);
        assert d != c ==> At(s.venue, d) == At(q.sub.venue, d);
      }
    } else {
      assert !Synced(o.positions, o.venue, c);
    }
  }

  /** If the last of `sent` orders lost its answer, none of them had executed. */
  predicate ToldOrIdle(tries: nat -> Try, sent: int) {
    sent > 0 && tries(sent - 1).answer.Lost? ==> IdleFor(tries, 0, sent)
  }

  /** The sub is still true if and only if nothing the venue did was lost on it. */
  ghost predicate TrueIffTold(s: Sub, o: Outcome, tries: nat -> Try) {
    && (Good(o.sub) <==> ToldOrIdle(tries, |o.sub.sent| - |s.sent|))
    && (!o.raised ==> Good(o.sub))
  }

  /** A reduction from a true working copy that stayed within what is held. */
  ghost predicate Settles(s: Sub, k: nat, aim: Aim, q: Reduction, tries: nat -> Try) {
    && LiveEpisode(s.episodes, aim.coin) == Some(k)
    && aim.coin in s.positions && s.positions[aim.coin].sizeCoin.Some?
    && aim.isBuy == (s.episodes[k].side == Short)
    && ReducesTo(Reduction(s, 0.0, false), q, aim, false) && Tells(tries, 0, Reduction(s, 0.0, false), q, aim)
    && Moved(At(s.venue, aim.coin), At(q.sub.venue, aim.coin), aim.isBuy) <= s.positions[aim.coin].sizeCoin.value
    && Reducible(At(s.venue, aim.coin), aim.isBuy) > 0.0
  }

  lemma SettledKeepsGoodIff(s: Sub, k: nat, aim: Aim, q: Reduction, tries: nat -> Try)
    requires Good(s) && Settles(s, k, aim, q, tries)
    ensures TrueIffTold(s, ExitSettled(s, k, aim, q), tries)
  {
    ExitBooks(s, k, aim, q);
  }

  lemma ExitSettles(s: Sub, e: Event, leg: Leg, w: Weather)
    requires Good(s) && Contained(e, leg, w) && ExitPlan(s, e, leg, w).Ok?
    ensures Settles(s, LiveEpisode(s.episodes, e.coin).value, ExitAim(s, e, leg, w), ExitReduction(s, e, leg, w),
                    w.tries)
  {
    ExitReduces(s, e, leg, w, false);
    ContainedExitStaysWithinHeld(s, e, leg, w);
  }

  /** An exit keeps the sub true if and only if its answers leave nothing untold. */
  lemma ExitKeepsGoodIff(s: Sub, e: Event, leg: Leg, w: Weather)
    requires Good(s) && Contained(e, leg, w)
    ensures TrueIffTold(s, Exit(s, e, leg, w), w.tries)
  {
    if ExitPlan(s, e, leg, w).Ok? && w.won && !w.halted {
      var k, aim, q := LiveEpisode(s.episodes, e.coin).value, ExitAim(s, e, leg, w), ExitReduction(s, e, leg, w);
      ExitSettles(s, e, leg, w);
      SettledKeepsGoodIff(s, k, aim, q, w.tries);
      assert Exit(s, e, leg, w) == ExitSettled(s, k, aim, q);
    } else {
      assert Exit(s, e, leg, w).sub == s;
    }
  }

  /** An entry is on the side its coin is held on. */
  predicate SameSide(s: Sub, e: Event) {
    e.coin in s.positions && e.side.Some? ==> s.positions[e.coin].side == e.side.value
  }

  /** The working copy after a fill: that coin on that side at that size, the rest as was. */
  predicate NowHolds(was: map<Coin, Position>, now: map<Coin, Position>, c: Coin, side: Side, size: real) {
    && c in now && now[c].side == side && now[c].sizeCoin == Some(size)
    && (forall d :: d in was && d != c ==> d in now && now[d] == was[d])
    && (forall d :: d in now && d != c ==> d in was)
  }

  /** A fill of `filled` on a coin, booked on both sides. */
  lemma FillBooks(s: Sub, c: Coin, side: Side, filled: real, positions: map<Coin, Position>, venue: map<Coin, real>)
    requires Good(s) && filled > 0.0 && (c in s.positions ==> s.positions[c].side == side)
    requires NowHolds(s.positions, positions, c, side, HeldSize(s.positions, c) + filled)
    requires venue == s.venue[c := At(s.venue, c) + Signed(side, filled)]
    ensures InSync(positions, venue)
  {
    assert Synced(s.positions, s.venue, c);
    forall d ensures Synced(positions, venue, d) {
      assert Synced(s.positions, s.venue, d);
    }
  }

  /** And its episode: the one that is live, or the first. */
  lemma FillGrows(s: Sub, c: Coin, side: Side, filled: real, positions: map<Coin, Position>, size: real)
    requires Good(s) && NowHolds(s.positions, positions, c, side, size)
    requires c in s.positions ==> s.positions[c].side == side
    requires c in s.positions <==> LiveEpisode(s.episodes, c).Some?
    ensures OneLive(Grown(s.episodes, c, side, filled)) && SidesAgree(positions, Grown(s.episodes, c, side, filled))
  {
  }

  lemma FilledEntryBooks(s: Sub, c: Coin, side: Side, filled: real, price: real, leverage: Leverage, placed: Sub)
    requires Good(s) && filled > 0.0 && (c in s.positions <==> LiveEpisode(s.episodes, c).Some?)
    requires placed.venue == s.venue[c := At(s.venue, c) + Signed(side, filled)]
    requires placed.positions == Refilled(s.positions, c, side, HeldSize(s.positions, c) + filled, price, leverage)
    requires placed.episodes == Grown(s.episodes, c, side, filled)
    ensures Good(placed) <==> (c in s.positions ==> s.positions[c].side == side)
  {
    assert Synced(s.positions, s.venue, c);
    var size := HeldSize(s.positions, c) + filled;
    if c in s.positions && s.positions[c].side != side {
      assert !Synced(placed.positions, placed.venue, c);
    } else {
      FillBooks(s, c, side, filled, placed.positions, placed.venue);
      FillGrows(s, c, side, filled, placed.positions, size);
    }
  }

  lemma UnbookedEntry(s: Sub, c: Coin, moved: real, placed: Sub)
    requires Good(s) && placed.venue == s.venue[c := At(s.venue, c) + moved]
    requires placed.positions == s.positions && placed.episodes == s.episodes
    ensures Good(placed) <==> moved == 0.0
  {
    assert Synced(s.positions, s.venue, c);
    if moved == 0.0 {
      forall d ensures Synced(placed.positions, placed.venue, d) {
        assert Synced(s.positions, s.venue, d);
      }
    } else {
      assert !Synced(placed.positions, placed.venue, c);
    }
  }

  /** The venue did nothing, or said what it did on the side that is held. */
  predicate Booked(s: Sub, e: Event, answer: Answer) { Idle(answer) || (answer.Fill? && SameSide(s, e)) }

  lemma EntryBooksIff(s: Sub, e: Event, leg: Leg, plan: PlannedEntry, answer: Answer)
    requires Good(s) && e.side.Some? && plan.Send? && plan.leverage >= 1 && plan.size > 0.0
    requires e.coin in s.positions <==> LiveEpisode(s.episodes, e.coin).Some?
    ensures var o := EntryPlaced(s, e, leg, plan, answer);
            && (Good(o.sub) <==> Booked(s, e, answer))
            && o.sub.sent == s.sent + [Sent(leg, e.coin, e.side == Some(Long), plan.size, At(s.venue, e.coin))]
  {
    var o, c, side := EntryPlaced(s, e, leg, plan, answer), e.coin, e.side.value;
    var honoured := Honoured(answer, plan.size);
    if honoured.Fill? {
      FilledEntryBooks(s, c, side, honoured.size, honoured.price, plan.leverage as real, o.sub);
    } else {
      UnbookedEntry(s, c, if side == Long then Executed(honoured) else -Executed(honoured), o.sub);
    }
  }

  /** An entry that goes out is answered for. */
  ghost predicate EntryTame(s: Sub, e: Event, leg: Leg, terms: Terms, w: Weather)
    requires e.side.Some?
  {
    EntryPlan(s, e, leg, terms, w).Send? && LetsThrough(leg, w) ==> Booked(s, e, w.answer)
  }

  /** Orders that start a position, among those after `before`, arrived at an empty holding. */
  ghost predicate OpensOnNothing(before: seq<Sent>, after: seq<Sent>) {
    && |before| <= |after| && after[..|before|] == before
    && forall k :: |before| <= k < |after| && StartsPosition(after[k]) ==> after[k].onto == 0.0
  }

  predicate StartsPosition(order: Sent) { order.leg == OpenLeg || order.leg == FlipOpen }

  lemma OpensOn(a: seq<Sent>, b: seq<Sent>, c: seq<Sent>)
    requires OpensOnNothing(a, b) && OpensOnNothing(b, c)
    ensures OpensOnNothing(a, c)
  {
    assert c[..|a|] == c[..|b|][..|a|];
    forall k | |a| <= k < |c| && StartsPosition(c[k])
      ensures c[k].onto == 0.0
    {
      if k < |b| { assert c[k] == c[..|b|][k] == b[k]; }
    }
  }

  lemma ExitOpensNothing(s: Sub, e: Event, leg: Leg, w: Weather)
    requires !Opening(leg)
    ensures OpensOnNothing(s.sent, Exit(s, e, leg, w).sub.sent)
  {
    ExitStaysWithinTarget(s, e, leg, w);
  }

  /** An entry keeps the sub true if and only if it is answered for; and what it opens, it
      opens on nothing. */
  lemma EntryKeepsGoodIff(s: Sub, e: Event, leg: Leg, terms: Terms, w: Weather)
    requires Good(s) && e.side.Some? && Sane(terms, w)
    ensures var o := Enter(s, e, leg, terms, w);
            && (Good(o.sub) <==> EntryTame(s, e, leg, terms, w))
            && OpensOnNothing(s.sent, o.sub.sent)
  {
    var plan := EntryPlan(s, e, leg, terms, w);
    if plan.Send? && LetsThrough(leg, w) {
      PlannedEntryWithinCaps(s, e, leg, terms, w);
      EntryBooksIff(s, e, leg, plan, w.answer);
      assert Synced(s.positions, s.venue, e.coin);
    }
  }

  // ---------------------------------------------------------------------------
  // Whole cycles
  // ---------------------------------------------------------------------------

  /** One event's turn, with what each of its legs finds. */
  datatype Turn = Turn(event: Event, terms: Terms, first: Weather, second: Weather)

  predicate Takeable(t: Turn) { WellFormed(t.event) && Sane(t.terms, t.first) && Sane(t.terms, t.second) }

  ghost function Taken(s: Sub, t: Turn): Outcome
    requires Takeable(t)
  {
    Handle(s, t.event, t.terms, t.first, t.second)
  }

  /** A backlog, in order; an event whose order raised is given up and the next one taken. */
  ghost function Drained(s: Sub, turns: seq<Turn>): Sub
    requires forall t :: t in turns ==> Takeable(t)
    decreases turns
  {
    if turns == [] then s else Drained(Taken(s, turns[0]).sub, turns[1..])
  }

  /** The turn's trim, if it is one, cannot take more than is held. */
  ghost predicate ContainedTurn(t: Turn) { t.event.kind == ScaleOut ==> Contained(t.event, ScaleOutLeg, t.first) }

  ghost predicate ExitTame(s: Sub, e: Event, leg: Leg, w: Weather) {
    ToldOrIdle(w.tries, |Exit(s, e, leg, w).sub.sent| - |s.sent|)
  }

  /** Every order of the turn is answered for: an entry's, as a fill on the side held or by
      having done nothing; an exit's, unless the last was lost and none had done anything. */
  ghost predicate Tame(s: Sub, t: Turn)
    requires Takeable(t)
  {
    match t.event.kind
    case Open => EntryTame(s, t.event, OpenLeg, t.terms, t.first)
    case ScaleIn => EntryTame(s, t.event, ScaleInLeg, t.terms, t.first)
    case Close => ExitTame(s, t.event, CloseLeg, t.first)
    case ScaleOut => ExitTame(s, t.event, ScaleOutLeg, t.first)
    case Flip =>
      var closed := Exit(s, t.event, FlipClose, t.first);
      && ExitTame(s, t.event, FlipClose, t.first)
      && (!closed.raised && closed.owns ==> EntryTame(closed.sub, t.event, FlipOpen, t.terms, t.second))
  }

  ghost predicate Lands(s: Sub, t: Turn, o: Outcome)
    requires Takeable(t)
  {
    (Good(o.sub) <==> Tame(s, t)) && OpensOnNothing(s.sent, o.sub.sent)
  }

  lemma ExitLands(s: Sub, e: Event, leg: Leg, w: Weather)
    requires Good(s) && Contained(e, leg, w) && !Opening(leg)
    ensures var o := Exit(s, e, leg, w);
            && (Good(o.sub) <==> ExitTame(s, e, leg, w)) && (!o.raised ==> Good(o.sub))
            && OpensOnNothing(s.sent, o.sub.sent)
  {
    ExitKeepsGoodIff(s, e, leg, w);
    ExitOpensNothing(s, e, leg, w);
  }

  /** One event keeps the working copy true to the venue, one live episode a coin and
      episodes on the side held, if and only if its orders are answered for; its opening
      orders land on nothing either way. */
  lemma HandleKeepsGoodIff(s: Sub, t: Turn)
    requires Good(s) && Takeable(t) && ContainedTurn(t)
    ensures Lands(s, t, Taken(s, t))
  {
    match t.event.kind {
      case Open => EntryKeepsGoodIff(s, t.event, OpenLeg, t.terms, t.first);
      case ScaleIn => EntryKeepsGoodIff(s, t.event, ScaleInLeg, t.terms, t.first);
      case Close => ExitLands(s, t.event, CloseLeg, t.first);
      case ScaleOut => ExitLands(s, t.event, ScaleOutLeg, t.first);
      case Flip =>
        var closed := Exit(s, t.event, FlipClose, t.first);
        ExitLands(s, t.event, FlipClose, t.first);
        if !closed.raised && closed.owns {
          EntryKeepsGoodIff(closed.sub, t.event, FlipOpen, t.terms, t.second);
          OpensOn(s.sent, closed.sub.sent, Taken(s, t).sub.sent);
        }
    }
  }

  /** The sub is true before the backlog and after every event of it. */
  ghost predicate TrueThroughout(s: Sub, turns: seq<Turn>)
    requires forall t :: t in turns ==> Takeable(t)
    decreases turns
  {
    Good(s) && (turns != [] ==> TrueThroughout(Taken(s, turns[0]).sub, turns[1..]))
  }

  /** Every order of the backlog is answered for. */
  ghost predicate Clear(s: Sub, turns: seq<Turn>)
    requires forall t :: t in turns ==> Takeable(t)
    decreases turns
  {
    turns != [] ==> Tame(s, turns[0]) && Clear(Taken(s, turns[0]).sub, turns[1..])
  }

  /** Over a whole cycle of any events in any order, partial fills, rejects, halts and lost
      claims included: from a true start the working copy stays true to the venue, episodes
      to the side held, throughout, if and only if every order is answered for; and then no
      open, a flip's included, was ever sent onto anything. */
  lemma {:induction false} CycleStaysTrueIffClear(s: Sub, turns: seq<Turn>)
    requires Good(s) && forall t :: t in turns ==> Takeable(t) && ContainedTurn(t)
    ensures TrueThroughout(s, turns) <==> Clear(s, turns)
    ensures Clear(s, turns) ==> Good(Drained(s, turns)) && OpensOnNothing(s.sent, Drained(s, turns).sent)
    decreases turns
  {
    if turns != [] {
      var t := turns[0];
      var next := Taken(s, t).sub;
      assert t in turns && forall u :: u in turns[1..] ==> u in turns;
      HandleKeepsGoodIff(s, t);
      assert Lands(s, t, Taken(s, t));
      if Tame(s, t) {
        CycleStaysTrueIffClear(next, turns[1..]);
        if Clear(s, turns) { OpensOn(s.sent, next.sent, Drained(s, turns).sent); }
      } else {
        assert !TrueThroughout(next, turns[1..]);
      }
    }
  }

  /** What needs no condition at all: in no cycle, whatever the venue answers or loses and
      whichever side is held, does a coin have two live episodes. */
  lemma {:induction false} NeverTwoLive(s: Sub, turns: seq<Turn>)
    requires OneLive(s.episodes) && forall t :: t in turns ==> Takeable(t)
    ensures OneLive(Drained(s, turns).episodes)
    decreases turns
  {
    if turns != [] {
      var t := turns[0];
      assert t in turns && forall u :: u in turns[1..] ==> u in turns;
      HandleKeepsOneLive(s, t);
      NeverTwoLive(Taken(s, t).sub, turns[1..]);
    }
  }

  lemma HandleKeepsOneLive(s: Sub, t: Turn)
    requires OneLive(s.episodes) && Takeable(t)
    ensures OneLive(Taken(s, t).sub.episodes)
  {
    match t.event.kind {
      case Open => EnterKeepsOneLive(s, t.event, OpenLeg, t.terms, t.first);
      case ScaleIn => EnterKeepsOneLive(s, t.event, ScaleInLeg, t.terms, t.first);
      case Close => ExitKeepsOneLive(s, t.event, CloseLeg, t.first);
      case ScaleOut => ExitKeepsOneLive(s, t.event, ScaleOutLeg, t.first);
      case Flip =>
        var closed := Exit(s, t.event, FlipClose, t.first);
        ExitKeepsOneLive(s, t.event, FlipClose, t.first);
        if !closed.raised && closed.owns { EnterKeepsOneLive(closed.sub, t.event, FlipOpen, t.terms, t.second); }
    }
  }

  lemma EnterKeepsOneLive(s: Sub, e: Event, leg: Leg, terms: Terms, w: Weather)
    requires OneLive(s.episodes) && e.side.Some? && Sane(terms, w)
    ensures OneLive(Enter(s, e, leg, terms, w).sub.episodes)
  {
  }

  lemma ExitKeepsOneLive(s: Sub, e: Event, leg: Leg, w: Weather)
    requires OneLive(s.episodes)
    ensures OneLive(Exit(s, e, leg, w).sub.episodes)
  {
    if ExitPlan(s, e, leg, w).Ok? { ExitReduces(s, e, leg, w, false); }
  }

  // ---------------------------------------------------------------------------
  // What ends, and what goes wrong
  // ---------------------------------------------------------------------------

  lemma SettledEpisodeEnds(s: Sub, k: nat, aim: Aim, q: Reduction)
    requires Good(s) && LiveEpisode(s.episodes, aim.coin) == Some(k) && aim.coin in s.positions
    requires s.positions[aim.coin].sizeCoin.Some? && aim.isBuy == (s.episodes[k].side == Short)
    requires ReducesTo(Reduction(s, 0.0, false), q, aim, false) && FullExit(aim.leg) && !q.raised
    ensures var o, p := ExitSettled(s, k, aim, q).sub, s.positions[aim.coin];
            var left := p.sizeCoin.value - aim.target;
            && (LiveEpisode(o.episodes, aim.coin).None? <==> At(o.venue, aim.coin) == Signed(p.side, left))
            && (LiveEpisode(o.episodes, aim.coin).None? ==> (aim.coin in o.positions <==> left > 0.0))
  {
    assert Synced(s.positions, s.venue, aim.coin);
    var o := ExitSettled(s, k, aim, q).sub;
    if aim.target - q.filled > 0.0 { assert o.episodes[k].live && o.episodes[k].coin == aim.coin; }
  }

  /** A close that goes out ends its episode if and only if the venue is left with just what
      sizing cut off: nothing where the holding is on the asset's grid, and otherwise less
      than one quantum, which stays in the working copy with no episode over it. */
  lemma EpisodeEndsIffFlat(s: Sub, e: Event, leg: Leg, w: Weather)
    requires Good(s) && FullExit(leg) && w.won && !w.halted && ExitPlan(s, e, leg, w).Ok?
    ensures var o, p := Exit(s, e, leg, w), s.positions[e.coin];
            var left := p.sizeCoin.value - ExitPlan(s, e, leg, w).value;
            && 0 <= w.spec.value && 0.0 <= left < Quantum(w.spec.value)
            && (!o.raised ==>
                  var ended := LiveEpisode(o.sub.episodes, e.coin).None?;
                  && (ended <==> At(o.sub.venue, e.coin) == Signed(p.side, left))
                  && (ended ==> (e.coin in o.sub.positions <==> left > 0.0)))
  {
    TargetIsPositive(e, leg, s.positions[e.coin].sizeCoin.value, w.spec.value);
    ExitReduces(s, e, leg, w, false);
    var k, aim, q := LiveEpisode(s.episodes, e.coin).value, ExitAim(s, e, leg, w), ExitReduction(s, e, leg, w);
    if !q.raised { SettledEpisodeEnds(s, k, aim, q); }
    assert Exit(s, e, leg, w) == ExitSettled(s, k, aim, q);
  }

  /** A flip whose close leg lost the claim, raised, was halted, or left a live episode or
      anything in the working copy sends no open leg; so from a true working copy the open
      leg only goes out once the venue holds none of the coin. */
  lemma FlipOpensOnlyFromFlat(s: Sub, t: Turn)
    requires Takeable(t) && t.event.kind == Flip
    ensures var closed, o, c := Exit(s, t.event, FlipClose, t.first), Taken(s, t), t.event.coin;
            && (closed.raised || !closed.owns || LiveEpisode(closed.sub.episodes, c).Some? || c in closed.sub.positions
                ==> o.sub == closed.sub)
            && (o.sub.sent != closed.sub.sent && Good(s) ==> At(closed.sub.venue, c) == 0.0)
  {
    var closed := Exit(s, t.event, FlipClose, t.first);
    if Good(s) && !closed.raised {
      ExitKeepsGoodIff(s, t.event, FlipClose, t.first);
      assert Synced(closed.sub.positions, closed.sub.venue, t.event.coin);
    }
  }

  /** A scale-in takes the event's side without asking which side is held. The working copy
      stays true through a filled one if and only if the sides agree. */
  lemma ScaleInTrueIffSameSide(s: Sub, e: Event, plan: PlannedEntry, answer: Answer)
    requires Synced(s.positions, s.venue, e.coin) && e.side.Some? && plan.Send? && plan.leverage >= 1
    requires e.coin in s.positions && plan.size > 0.0 && answer.Fill? && answer.size > 0.0
    ensures var o := EntryPlaced(s, e, ScaleInLeg, plan, answer);
            Synced(o.sub.positions, o.sub.venue, e.coin) <==> SameSide(s, e)
  {
  }

  lemma ExitKeepsSide(s: Sub, e: Event, leg: Leg, w: Weather)
    requires Good(s) && e.coin in s.positions && e.coin in Exit(s, e, leg, w).sub.positions
    ensures Exit(s, e, leg, w).sub.positions[e.coin].side == s.positions[e.coin].side
  {
    if ExitPlan(s, e, leg, w).Ok? { ExitReduces(s, e, leg, w, false); }
  }

  lemma DrainedOfTwo(s: Sub, a: Turn, b: Turn)
    requires Takeable(a) && Takeable(b)
    ensures Drained(s, [a, b]) == Taken(Taken(s, a).sub, b).sub
  {
    assert [a, b][1..] == [b] && [b][1..] == [];
    assert forall r :: Drained(r, [b]) == Taken(r, b).sub;
  }

  lemma DrainedOfThree(s: Sub, a: Turn, b: Turn, c: Turn)
    requires Takeable(a) && Takeable(b) && Takeable(c)
    ensures Drained(s, [a, b, c]) == Taken(Taken(Taken(s, a).sub, b).sub, c).sub
  {
    assert [a, b, c][1..] == [b, c];
    DrainedOfTwo(Taken(s, a).sub, b, c);
  }

  /** A flip's close that leaves something sends no open, and leaves it on the old side. */
  lemma FlipLeavesResidue(s: Sub, flip: Turn)
    requires Good(s) && Takeable(flip) && flip.event.kind == Flip
    requires flip.event.coin in s.positions && !SameSide(s, flip.event)
    requires var closed := Exit(s, flip.event, FlipClose, flip.first);
             !closed.raised && closed.owns && At(closed.sub.venue, flip.event.coin) != 0.0
    ensures var o := Taken(s, flip).sub;
            && o == Exit(s, flip.event, FlipClose, flip.first).sub
            && Good(o) && flip.event.coin in o.positions && !SameSide(o, flip.event)
  {
    var closed := Exit(s, flip.event, FlipClose, flip.first).sub;
    ExitKeepsGoodIff(s, flip.event, FlipClose, flip.first);
    assert Synced(closed.positions, closed.venue, flip.event.coin);
    FlipOpensOnlyFromFlat(s, flip);
    ExitKeepsSide(s, flip.event, FlipClose, flip.first);
  }

  lemma ScaleInOntoOtherSide(s: Sub, grow: Turn)
    requires Good(s) && Takeable(grow) && grow.event.kind == ScaleIn && !SameSide(s, grow.event)
    requires EntryPlan(s, grow.event, ScaleInLeg, grow.terms, grow.first).Send? && LetsThrough(ScaleInLeg, grow.first)
    requires grow.first.answer.Fill? && grow.first.answer.size > 0.0
    ensures var o := Taken(s, grow).sub; !Synced(o.positions, o.venue, grow.event.coin)
  {
    var plan := EntryPlan(s, grow.event, ScaleInLeg, grow.terms, grow.first);
    PlannedEntryWithinCaps(s, grow.event, ScaleInLeg, grow.terms, grow.first);
    assert Synced(s.positions, s.venue, grow.event.coin);
    ScaleInTrueIffSameSide(s, grow.event, plan, grow.first.answer);
  }

  /** A flip whose close leaves something of the old side, then a filled scale-in on the
      new. */
  ghost predicate GrowsResidue(s: Sub, flip: Turn, grow: Turn) {
    && Takeable(flip) && Takeable(grow)
    && flip.event.kind == Flip && grow.event.kind == ScaleIn && grow.event.coin == flip.event.coin
    && grow.event.side == flip.event.side && flip.event.coin in s.positions && !SameSide(s, flip.event)
    && var closed := Exit(s, flip.event, FlipClose, flip.first);
    && !closed.raised && closed.owns && At(closed.sub.venue, flip.event.coin) != 0.0
    && EntryPlan(closed.sub, grow.event, ScaleInLeg, grow.terms, grow.first).Send?
    && LetsThrough(ScaleInLeg, grow.first) && grow.first.answer.Fill? && grow.first.answer.size > 0.0
  }

  /** And they can differ, in a run the leader's log allows: after a flip whose close leaves a
      residue, and so sends no open, the leader's scale-in on the new side is filled onto the
      residue of the old one, and the working copy says what the venue does not hold. */
  lemma ScaleInOntoResidue(s: Sub, flip: Turn, grow: Turn)
    requires Good(s) && GrowsResidue(s, flip, grow)
    ensures var o := Drained(s, [flip, grow]);
            Good(Taken(s, flip).sub) && !Synced(o.positions, o.venue, flip.event.coin)
  {
    FlipLeavesResidue(s, flip);
    ScaleInOntoOtherSide(Taken(s, flip).sub, grow);
    DrainedOfTwo(s, flip, grow);
  }

  lemma EntryPlanReadsBooks(s: Sub, s': Sub, e: Event, leg: Leg, terms: Terms, w: Weather)
    requires e.side.Some? && s.positions == s'.positions && s.episodes == s'.episodes
    ensures EntryPlan(s, e, leg, terms, w) == EntryPlan(s', e, leg, terms, w)
  {
  }

  lemma OpenLands(s: Sub, t: Turn)
    requires Takeable(t) && t.event.kind == Open
    requires EntryPlan(s, t.event, OpenLeg, t.terms, t.first).Send? && LetsThrough(OpenLeg, t.first)
    ensures var o, plan, c := Taken(s, t).sub, EntryPlan(s, t.event, OpenLeg, t.terms, t.first), t.event.coin;
            && plan.size > 0.0 && c !in s.positions
            && o.sent == s.sent + [Sent(OpenLeg, c, t.event.side == Some(Long), plan.size, At(s.venue, c))]
            && (t.first.answer.Lost? && t.first.answer.executed > 0.0 ==>
                  && o.positions == s.positions && o.episodes == s.episodes
                  && At(o.venue, c) == At(s.venue, c)
                                       + Signed(t.event.side.value, RealMin(t.first.answer.executed, plan.size)))
  {
    PlannedEntryWithinCaps(s, t.event, OpenLeg, t.terms, t.first);
  }

  /** An open that executes something unsaid, then a close and another open of its coin. */
  ghost predicate LosesOpen(s: Sub, open: Turn, close: Turn, again: Turn) {
    && Takeable(open) && Takeable(close) && Takeable(again)
    && open.event.kind == Open && close.event.kind == Close && again.event.kind == Open
    && close.event.coin == again.event.coin == open.event.coin
    && EntryPlan(s, open.event, OpenLeg, open.terms, open.first).Send? && LetsThrough(OpenLeg, open.first)
    && open.first.answer.Lost? && open.first.answer.executed > 0.0
    && EntryPlan(s, again.event, OpenLeg, again.terms, again.first).Send? && LetsThrough(OpenLeg, again.first)
  }

  /** What a lost answer leads to, in a run the leader's log allows: an open the venue
      executed without saying so leaves the working copy flat, so the close that follows is
      skipped for want of a local position, and the next open of that coin in the same cycle
      is sent onto the first. */
  lemma LostAnswerIsDoubled(s: Sub, open: Turn, close: Turn, again: Turn)
    requires Good(s) && LosesOpen(s, open, close, again)
    ensures var plan := EntryPlan(s, open.event, OpenLeg, open.terms, open.first);
            var end, n := Drained(s, [open, close, again]).sent, |s.sent|;
            && |end| == n + 2 && StartsPosition(end[n + 1]) && end[n + 1].coin == open.event.coin
            && end[n + 1].onto == Signed(open.event.side.value, RealMin(open.first.answer.executed, plan.size)) != 0.0
  {
    var first := Taken(s, open).sub;
    assert Synced(s.positions, s.venue, open.event.coin);
    OpenLands(s, open);
    assert Taken(first, close).sub == first;
    EntryPlanReadsBooks(s, first, again.event, OpenLeg, again.terms, again.first);
    OpenLands(first, again);
    DrainedOfThree(s, open, close, again);
  }

  // ---------------------------------------------------------------------------
  // The cycle as it runs
  // ---------------------------------------------------------------------------

  /** The bounded retry of the remainder, order by order. */
  method ReduceRemainder(s: Sub, target: real, plan: Planner, tries: nat -> Try) returns (r: Reduction)
    ensures r == Reduced(s, target, Attempts(target, plan, tries))
    ensures r.sub.positions == s.positions && r.sub.episodes == s.episodes
  {
    ghost var attempt := Attempts(target, plan, tries);
    r := Reduction(s, 0.0, false);
    for k := 0 to EXIT_RETRY_ATTEMPTS
      invariant ReduceFrom(k, r, target, attempt) == Reduced(s, target, attempt)
      invariant r.sub.positions == s.positions && r.sub.episodes == s.episodes
    {
      ghost var next := attempt(k, r);
      if k > 0 && tries(k).halted { return; }
      var order := plan(r.sub, target - r.filled, tries(k).mark);
      if order.None? { return; }
      r := ReduceOnce(r, order.value, tries(k));
      assert next == Some(r);
      if r.raised || target - r.filled <= 0.0 { return; }
    }
  }

  class CycleState {
    var positions: map<Coin, Position>
    var episodes: seq<Episode>
    var venue: map<Coin, real>
    var sent: seq<Sent>

    function View(): Sub reads this { Sub(positions, episodes, venue, sent) }

    /** The margin at risk, position by position in any order. */
    method CommittedStake() returns (total: real)
      ensures total == Committed(positions)
    {
      total := 0.0;
      var left := positions;
      while left != map[]
        invariant total + Committed(left) == Committed(positions)
        decreases |left|
      {
        assert left.Keys != {};
        var c := AnyOf(left.Keys);
        CommittedWithout(left, c);
        total := total + left[c].Margin();
        left := left - {c};
      }
    }

    /** One entry order on the wire. */
    method Place(order: Sent, answer: Answer) returns (honoured: Answer)
      modifies this`venue, this`sent
      ensures honoured == Honoured(answer, order.size)
      ensures View() == Placed(old(View()), order, Executed(honoured))
    {
      honoured := Honoured(answer, order.size);
      var moved := Executed(honoured);
      venue := venue[order.coin := At(venue, order.coin) + (if order.isBuy then moved else -moved)];
      sent := sent + [order];
    }

    method ApplyFill(c: Coin, side: Side, size: real, price: real, leverage: Leverage)
      modifies this`positions
      ensures positions == Refilled(old(positions), c, side, size, price, leverage)
    {
      if size <= 0.0 {
        positions := positions - {c};
      } else {
        var p := Position(c, side, Times(size, price), leverage, price, 0.0, Some(size), None, None);
        positions := positions[c := p];
      }
    }

    method SettleExit(k: nat, leg: Leg, filled: real, remaining: real)
      requires k < |episodes|
      modifies this`episodes
      ensures episodes == EpisodesAfter(old(episodes), k, leg, filled, remaining)
    {
      var e := episodes[k];
      if FullExit(leg) && remaining > 0.0 {
        episodes := episodes[k := e.(size := remaining)];
      } else if FullExit(leg) {
        episodes := episodes[k := e.(live := false)];
      } else {
        episodes := episodes[k := e.(size := RealMax(e.size - filled, 0.0))];
      }
    }

    /** After the orders: the working copy, then the episode. */
    method BookExit(k: nat, aim: Aim, filled: real)
      requires k < |episodes| && aim.coin in positions && positions[aim.coin].sizeCoin.Some?
      modifies this`positions, this`episodes
      ensures Outcome(View(), true, false) == ExitSettled(old(View()), k, aim, Reduction(old(View()), filled, false))
    {
      var side, p := episodes[k].side, positions[aim.coin];
      ApplyFill(aim.coin, side, p.sizeCoin.value - filled, p.entryPrice, p.leverage);
      SettleExit(k, aim.leg, filled, RealMax(aim.target - filled, 0.0));
    }

    /** The orders, and nothing after a raise. */
    method PerformExit(k: nat, aim: Aim, plan: Planner, tries: nat -> Try) returns (raised: bool)
      requires k < |episodes| && aim.coin in positions && positions[aim.coin].sizeCoin.Some?
      modifies this
      ensures Outcome(View(), !raised, raised)
              == ExitSettled(old(View()), k, aim, Reduced(old(View()), aim.target, Attempts(aim.target, plan, tries)))
    {
      ghost var s := View();
      var r := ReduceRemainder(View(), aim.target, plan, tries);
      venue, sent, raised := r.sub.venue, r.sub.sent, r.raised;
      if !raised { BookExit(k, aim, r.filled); }
      assert Outcome(View(), !raised, raised) == ExitSettled(s, k, aim, r);
    }

    method RunExit(e: Event, leg: Leg, w: Weather) returns (owns: bool, raised: bool)
      modifies this
      ensures Outcome(View(), owns, raised) == Exit(old(View()), e, leg, w)
    {
      var target := ExitPlan(View(), e, leg, w);
      if target.Unpriceable? { return w.won, false; }
      if !w.won || w.halted { return false, false; }
      var k := LiveEpisode(episodes, e.coin).value;
      var aim := Aim(leg, e.coin, episodes[k].side == Short, target.value);
      raised := PerformExit(k, aim, ReducePlanner(aim, w.spec.value), w.tries);
      owns := !raised;
    }

    method SettleEntry(c: Coin, side: Side, filled: real, price: real, leverage: Leverage)
      modifies this`positions, this`episodes
      ensures episodes == Grown(old(episodes), c, side, filled)
      ensures positions == Refilled(old(positions), c, side, HeldSize(old(positions), c) + filled, price, leverage)
    {
      var k := LiveEpisode(episodes, c);
      if k.None? {
        episodes := episodes + [Episode(c, side, filled, true)];
      } else {
        episodes := episodes[k.value := episodes[k.value].(size := episodes[k.value].size + filled)];
      }
      ApplyFill(c, side, HeldSize(positions, c) + filled, price, leverage);
    }

    method PlanEntry(e: Event, leg: Leg, terms: Terms, w: Weather) returns (plan: PlannedEntry)
      requires e.side.Some?
      ensures plan == EntryPlan(View(), e, leg, terms, w)
    {
      if EntrySkip(View(), e, leg, terms, w).Some? { return Skip; }
      var committed := CommittedStake();
      plan := EntryOrder(EntryAsk(View(), e, leg, terms, w), e.side == Some(Long), CoinStake(positions, e.coin),
                         committed, w.mark, terms.limits, w.spec.value);
    }

    method PlaceEntry(e: Event, leg: Leg, plan: PlannedEntry, answer: Answer) returns (raised: bool)
      requires e.side.Some? && plan.Send? && plan.leverage >= 1
      modifies this
      ensures Outcome(View(), true, raised) == EntryPlaced(old(View()), e, leg, plan, answer)
    {
      var c, side := e.coin, e.side.value;
      var honoured := Place(Sent(leg, c, side == Long, plan.size, At(venue, c)), answer);
      if honoured.Fill? {
        SettleEntry(c, side, honoured.size, honoured.price, plan.leverage as real);
      }
      raised := honoured.Lost?;
    }

    method RunEntry(e: Event, leg: Leg, terms: Terms, w: Weather) returns (owns: bool, raised: bool)
      requires e.side.Some? && Sane(terms, w)
      modifies this
      ensures Outcome(View(), owns, raised) == Enter(old(View()), e, leg, terms, w)
    {
      var plan := PlanEntry(e, leg, terms, w);
      if plan.Skip? || !LetsThrough(leg, w) { return w.won, false; }
      PlannedEntryWithinCaps(View(), e, leg, terms, w);
      raised := PlaceEntry(e, leg, plan, w.answer);
      owns := true;
    }

    method HandleEvent(e: Event, terms: Terms, w: Weather, w': Weather) returns (owns: bool, raised: bool)
      requires WellFormed(e) && Sane(terms, w) && Sane(terms, w')
      modifies this
      ensures Outcome(View(), owns, raised) == Handle(old(View()), e, terms, w, w')
    {
      match e.kind {
        case Open => owns, raised := RunEntry(e, OpenLeg, terms, w);
        case ScaleIn => owns, raised := RunEntry(e, ScaleInLeg, terms, w);
        case Close => owns, raised := RunExit(e, CloseLeg, w);
        case ScaleOut => owns, raised := RunExit(e, ScaleOutLeg, w);
        case Flip =>
          owns, raised := RunExit(e, FlipClose, w);
          if !raised && owns {
            owns, raised := RunEntry(e, FlipOpen, terms, w');
          }
      }
    }

    /** The whole backlog: no coin ends with two live episodes, and from a true start with
        every order answered for the cycle ends true. */
    method DrainBacklog(turns: seq<Turn>)
      requires forall t :: t in turns ==> Takeable(t)
      modifies this
      ensures View() == Drained(old(View()), turns)
      ensures old(OneLive(episodes)) ==> OneLive(episodes)
      ensures old(Good(View()) && Clear(View(), turns)) && (forall t :: t in turns ==> ContainedTurn(t)) ==>
                Good(View()) && OpensOnNothing(old(sent), sent)
    {
      ghost var start := View();
      for n := 0 to |turns|
        invariant Drained(View(), turns[n..]) == Drained(start, turns)
      {
        var t := turns[n];
        assert t in turns && turns[n..][0] == t && turns[n..][1..] == turns[n + 1..];
        var _, _ := HandleEvent(t.event, t.terms, t.first, t.second);
      }
      if OneLive(start.episodes) { NeverTwoLive(start, turns); }
      if Good(start) && forall t :: t in turns ==> ContainedTurn(t) { CycleStaysTrueIffClear(start, turns); }
    }
  }
}
