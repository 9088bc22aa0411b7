// What the cycle's books say after its fills (src/epigone/execute/executor.py,
// src/epigone/execute/episodes.py): every live episode is the size of the position it is
// about, and the stake the caps are judged by is the margin those fills took.
module CopyBooks {
  import opened CopyClaims
  import opened CopyCycle
  import opened CopyOrders
  import opened PositionDiff
  import opened Pricing
  import opened Reals
  import opened RiskPolicy
  import opened Wrappers

  // ---------------------------------------------------------------------------
  // Sizes
  // ---------------------------------------------------------------------------

  /** Less than one quantum of what is held is not the episode's. */
  predicate Near(size: real, held: real, quantum: real) { 0.0 <= size && 0.0 <= held - size < quantum }

  predicate SizedAt(s: Sub, k: nat, precision: Coin -> nat)
    requires k < |s.episodes|
  {
    var e := s.episodes[k];
    e.live && e.coin in s.positions && s.positions[e.coin].sizeCoin.Some? ==>
      Near(e.size, s.positions[e.coin].sizeCoin.value, Quantum(precision(e.coin)))
  }

  /** Every live episode is the size its coin is held at, but for what sizing cuts off. */
  ghost predicate Sized(s: Sub, precision: Coin -> nat) {
    forall k :: 0 <= k < |s.episodes| ==> SizedAt(s, k, precision)
  }

  /** A coin's precision does not change. */
  predicate Precise(e: Event, w: Weather, precision: Coin -> nat) {
    w.spec.Some? ==> w.spec.value == precision(e.coin)
  }

  lemma ExitSizes(s: Sub, k: nat, aim: Aim, q: Reduction, precision: Coin -> nat)
    requires OneLive(s.episodes) && Sized(s, precision) && k < |s.episodes| && LiveAt(s.episodes, aim.coin, k)
    requires aim.coin in s.positions && s.positions[aim.coin].sizeCoin.Some?
    requires ReducesTo(Reduction(s, 0.0, false), q, aim, false)
    requires FullExit(aim.leg) ==> Near(aim.target, s.positions[aim.coin].sizeCoin.value, Quantum(precision(aim.coin)))
    ensures Sized(ExitSettled(s, k, aim, q).sub, precision)
  {
    var o, held := ExitSettled(s, k, aim, q).sub, s.positions[aim.coin].sizeCoin.value;
    forall j | 0 <= j < |o.episodes| ensures SizedAt(o, j, precision) {
      assert SizedAt(s, j, precision);
      assert j != k && s.episodes[j].live ==> s.episodes[j].coin != aim.coin;
    }
  }

  lemma ExitKeepsSized(s: Sub, e: Event, leg: Leg, w: Weather, precision: Coin -> nat)
    requires OneLive(s.episodes) && Sized(s, precision) && Precise(e, w, precision)
    ensures Sized(Exit(s, e, leg, w).sub, precision)
  {
    if ExitPlan(s, e, leg, w).Ok? && w.won && !w.halted {
      var k, aim, q := LiveEpisode(s.episodes, e.coin).value, ExitAim(s, e, leg, w), ExitReduction(s, e, leg, w);
      ExitReduces(s, e, leg, w, false);
      TargetIsPositive(e, leg, s.positions[e.coin].sizeCoin.value, w.spec.value);
      assert LiveAt(s.episodes, e.coin, k);
      ExitSizes(s, k, aim, q, precision);
      assert Exit(s, e, leg, w) == ExitSettled(s, k, aim, q);
    } else {
      assert Exit(s, e, leg, w).sub == s;
    }
  }

  lemma EntrySizes(s: Sub, e: Event, leg: Leg, plan: PlannedEntry, answer: Answer, precision: Coin -> nat)
    requires OneLive(s.episodes) && Sized(s, precision) && e.side.Some? && plan.Send? && plan.leverage >= 1
    requires if leg == ScaleInLeg then e.coin in s.positions && s.positions[e.coin].sizeCoin.Some?
             else e.coin !in s.positions
    requires leg == ScaleInLeg <==> LiveEpisode(s.episodes, e.coin).Some?
    ensures Sized(EntryPlaced(s, e, leg, plan, answer).sub, precision)
  {
    var o := EntryPlaced(s, e, leg, plan, answer).sub;
    forall j | 0 <= j < |o.episodes| ensures SizedAt(o, j, precision) {
      assert j < |s.episodes| ==> SizedAt(s, j, precision);
    }
  }

  lemma EntryKeepsSized(s: Sub, e: Event, leg: Leg, terms: Terms, w: Weather, precision: Coin -> nat)
    requires OneLive(s.episodes) && Sized(s, precision) && e.side.Some? && Sane(terms, w)
    ensures Sized(Enter(s, e, leg, terms, w).sub, precision)
  {
    var plan := EntryPlan(s, e, leg, terms, w);
    if plan.Send? && LetsThrough(leg, w) {
      PlannedEntryWithinCaps(s, e, leg, terms, w);
      EntrySizes(s, e, leg, plan, w.answer, precision);
    }
  }

  ghost predicate PreciseTurn(t: Turn, precision: Coin -> nat) {
    Precise(t.event, t.first, precision) && Precise(t.event, t.second, precision)
  }

  lemma TurnKeepsSized(s: Sub, t: Turn, precision: Coin -> nat)
    requires OneLive(s.episodes) && Sized(s, precision) && Takeable(t) && PreciseTurn(t, precision)
    ensures Sized(Taken(s, t).sub, precision)
  {
    match t.event.kind {
      case Open => EntryKeepsSized(s, t.event, OpenLeg, t.terms, t.first, precision);
      case ScaleIn => EntryKeepsSized(s, t.event, ScaleInLeg, t.terms, t.first, precision);
      case Close => ExitKeepsSized(s, t.event, CloseLeg, t.first, precision);
      case ScaleOut => ExitKeepsSized(s, t.event, ScaleOutLeg, t.first, precision);
      case Flip =>
        var closed := Exit(s, t.event, FlipClose, t.first);
        ExitKeepsSized(s, t.event, FlipClose, t.first, precision);
        ExitKeepsOneLive(s, t.event, FlipClose, t.first);
        if !closed.raised && closed.owns {
          EntryKeepsSized(closed.sub, t.event, FlipOpen, t.terms, t.second, precision);
        }
    }
  }

  /** Over any backlog, with partial fills, adoptions, lost answers and residues: every live
      episode stays the size of the working copy's position, but for less than a quantum. */
  lemma {:induction false} EpisodesFollowPositions(s: Sub, turns: seq<Turn>, precision: Coin -> nat)
    requires OneLive(s.episodes) && Sized(s, precision)
    requires forall t :: t in turns ==> Takeable(t) && PreciseTurn(t, precision)
    ensures Sized(Drained(s, turns), precision)
    decreases turns
  {
    if turns != [] {
      assert turns[0] in turns && forall t :: t in turns[1..] ==> t in turns;
      TurnKeepsSized(s, turns[0], precision);
      HandleKeepsOneLive(s, turns[0]);
      EpisodesFollowPositions(Taken(s, turns[0]).sub, turns[1..], precision);
    }
  }

  // ---------------------------------------------------------------------------
  // Stakes
  // ---------------------------------------------------------------------------

  /** The coin is held at this price and leverage and takes the margin of so much; no other
      coin's position moved. */
  predicate Stakes(was: map<Coin, Position>, now: map<Coin, Position>, c: Coin, size: real, price: real,
                   leverage: real) {
    && Times(CoinStake(now, c), leverage) == Times(size, price)
    && (c in now ==> now[c].entryPrice == price && now[c].leverage == leverage)
    && (forall d :: d in was && d != c ==> d in now && now[d] == was[d])
    && (forall d :: d in now && d != c ==> d in was)
  }

  lemma MarginOf(usd: real, leverage: real)
    requires leverage > 0.0
    ensures Times(usd / leverage, leverage) == usd
  {
  }

  lemma SettledStakes(s: Sub, k: nat, aim: Aim, q: Reduction)
    requires k < |s.episodes| && aim.coin in s.positions && s.positions[aim.coin].sizeCoin.Some? && !q.raised
    ensures var o, p := ExitSettled(s, k, aim, q).sub, s.positions[aim.coin];
            Stakes(s.positions, o.positions, aim.coin, RealMax(p.sizeCoin.value - q.filled, 0.0), p.entryPrice,
                   p.leverage)
  {
    var p := s.positions[aim.coin];
    MarginOf(Times(p.sizeCoin.value - q.filled, p.entryPrice), p.leverage);
    TimesOne(p.entryPrice);
    TimesOne(p.leverage);
  }

  /** An exit leaves the rest staked at its own entry price and the leverage it runs at. */
  lemma ExitStakesTheRest(s: Sub, e: Event, leg: Leg, w: Weather)
    requires ExitPlan(s, e, leg, w).Ok? && w.won && !w.halted && !Exit(s, e, leg, w).raised
    ensures var o, p := Exit(s, e, leg, w).sub, s.positions[e.coin];
            Stakes(s.positions, o.positions, e.coin,
                   RealMax(p.sizeCoin.value - ExitReduction(s, e, leg, w).filled, 0.0), p.entryPrice, p.leverage)
  {
    var k, aim, q := LiveEpisode(s.episodes, e.coin).value, ExitAim(s, e, leg, w), ExitReduction(s, e, leg, w);
    assert Exit(s, e, leg, w) == ExitSettled(s, k, aim, q);
    SettledStakes(s, k, aim, q);
  }

  /** A filled entry stakes all that is then held at the fill's price and the leverage judged. */
  lemma EntryStakesWhatItHolds(s: Sub, e: Event, leg: Leg, plan: PlannedEntry, answer: Answer)
    requires e.side.Some? && plan.Send? && plan.leverage >= 1 && plan.size > 0.0
    requires answer.Fill? && answer.size > 0.0 && HeldSize(s.positions, e.coin) >= 0.0
    ensures var o, filled := EntryPlaced(s, e, leg, plan, answer).sub, RealMin(answer.size, plan.size);
            Stakes(s.positions, o.positions, e.coin, HeldSize(s.positions, e.coin) + filled, answer.price,
                   plan.leverage as real)
  {
    var filled := RealMin(answer.size, plan.size);
    MarginOf(Times(HeldSize(s.positions, e.coin) + filled, answer.price), plan.leverage as real);
  }
}
