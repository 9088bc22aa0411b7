// Exactly when one copy sub's cycle sends an order and what that order is
// (src/epigone/execute/executor.py): exits gated by nothing but having something to exit,
// entries by every guard, and a wind-down that only closes.
module CopyOrders {
  import opened CopyClaims
  import opened CopyCycle
  import opened PositionDiff
  import opened Pricing
  import opened Reals
  import opened RiskPolicy
  import opened Wrappers

  ghost predicate HasLive(episodes: seq<Episode>, c: Coin) {
    exists k :: 0 <= k < |episodes| && LiveAt(episodes, c, k)
  }

  predicate LiveAt(episodes: seq<Episode>, c: Coin, k: nat)
    requires k < |episodes|
  {
    episodes[k].live && episodes[k].coin == c
  }

  lemma LiveEpisodeIsTheOne(episodes: seq<Episode>, c: Coin, k: nat)
    requires OneLive(episodes) && k < |episodes| && LiveAt(episodes, c, k)
    ensures LiveEpisode(episodes, c) == Some(k)
  {
    var found := LiveEpisode(episodes, c);
    assert found.Some?;
    assert episodes[found.value].live && episodes[found.value].coin == c;
  }

  // ---------------------------------------------------------------------------
  // Exits
  // ---------------------------------------------------------------------------

  predicate HeldCoins(positions: map<Coin, Position>, c: Coin, held: real) {
    c in positions && positions[c].sizeCoin == Some(held)
  }

  /** `raw` is what the leg would close, before rounding: all that is held, or for a trim as
      much of it as the leader sold of theirs. */
  predicate ToClose(e: Event, leg: Leg, held: real, raw: real) {
    if leg == ScaleOutLeg then
      e.before.Some? && e.after.Some? && MovedAlike(raw, held, e.before.value, e.after.value)
    else raw == held
  }

  /** The target: that, as far as the asset's precision expresses it, and never nothing. */
  ghost predicate Closes(e: Event, leg: Leg, held: real, szDecimals: int, target: real) {
    0 <= szDecimals <= 8 && exists raw: real :: ToClose(e, leg, held, raw) && Truncates(target, raw, szDecimals)
  }

  /** An order at this mark has a price. */
  ghost predicate Priceable(mark: real, isBuy: bool, szDecimals: int) {
    mark > 0.0 && (isBuy ==> SomeLegalBelow(Times(mark, 1.01), szDecimals))
  }

  /** There is something to exit: a live episode, a held size, an orderable coin, and a target
      of at least one quantum worth at least $10 at the position's own price. */
  ghost predicate Targeted(s: Sub, e: Event, leg: Leg, w: Weather, target: real) {
    && HasLive(s.episodes, e.coin)
    && e.coin in s.positions && s.positions[e.coin].sizeCoin.Some?
    && w.spec.Some? && Closes(e, leg, s.positions[e.coin].sizeCoin.value, w.spec.value, target)
    && Times(target, s.positions[e.coin].sizeUsd) >= Times(10.0, s.positions[e.coin].sizeCoin.value)
  }

  /** And it is ours to exit and can be priced. Not the clock, not the event's age, not the
      Loss Budget. */
  ghost predicate ExitDue(s: Sub, e: Event, leg: Leg, w: Weather, k: nat, target: real) {
    && k < |s.episodes| && LiveAt(s.episodes, e.coin, k)
    && Targeted(s, e, leg, w, target)
    && w.won && !w.halted
    && Priceable(w.tries(0).mark, s.episodes[k].side == Short, w.spec.value)
  }

  lemma TargetIsExact(e: Event, leg: Leg, held: real, szDecimals: int, target: real)
    ensures ExitTarget(e, leg, held, szDecimals) == Ok(target) <==> Closes(e, leg, held, szDecimals, target)
    ensures Closes(e, leg, held, szDecimals, target) ==> held > 0.0
  {
    if leg == ScaleOutLeg {
      if e.before.Some? && e.after.Some? && e.before.value > 0.0 && held > 0.0 {
        TrimTargetIsExact(e, held, szDecimals, target);
      }
    } else {
      RoundSizeTruncates(held, szDecimals);
      if 0 <= szDecimals <= 8 && Truncates(target, held, szDecimals) { TruncationIsUnique(target, held, szDecimals); }
      assert ToClose(e, leg, held, held);
    }
  }

  lemma OneShare(e: Event, held: real, raw: real, share: real)
    requires ToClose(e, ScaleOutLeg, held, raw) && ToClose(e, ScaleOutLeg, held, share)
    ensures raw == share
  {
    TimesOrders(raw, share, e.before.value);
    TimesOrders(share, raw, e.before.value);
  }

  lemma TrimTargetIsExact(e: Event, held: real, szDecimals: int, target: real)
    requires e.before.Some? && e.after.Some? && e.before.value > 0.0 && held > 0.0
    ensures ExitTarget(e, ScaleOutLeg, held, szDecimals) == Ok(target) <==>
              Closes(e, ScaleOutLeg, held, szDecimals, target)
  {
    var share := Over(Times(held, Abs(e.after.value - e.before.value)), e.before.value);
    OverTimes(Times(held, Abs(e.after.value - e.before.value)), e.before.value);
    assert ToClose(e, ScaleOutLeg, held, share);
    ShareExactly(held, e.before, e.after, szDecimals, share);
    var planned := ExitTarget(e, ScaleOutLeg, held, szDecimals);
    if Closes(e, ScaleOutLeg, held, szDecimals, target) {
      var raw: real :| ToClose(e, ScaleOutLeg, held, raw) && Truncates(target, raw, szDecimals);
      OneShare(e, held, raw, share);
      TruncationIsUnique(target, share, szDecimals);
      RoundSizeTruncates(share, szDecimals);
      TruncationIsUnique(planned.value, share, szDecimals);
    }
  }

  lemma TenDollarsWorth(target: real, p: Position)
    requires p.sizeCoin.Some? && p.sizeCoin.value > 0.0
    ensures Sliver(target, p) <==> Times(target, p.sizeUsd) < Times(10.0, p.sizeCoin.value)
  {
    var held := p.sizeCoin.value;
    var price := Over(p.sizeUsd, held);
    OverTimes(p.sizeUsd, held);
    TimesAssociates(target, price, held);
    TimesOrders(10.0, Times(target, price), held);
  }

  lemma LiveIffFound(episodes: seq<Episode>, c: Coin)
    ensures LiveEpisode(episodes, c).Some? <==> HasLive(episodes, c)
  {
    var k := LiveEpisode(episodes, c);
    if k.Some? { assert LiveAt(episodes, c, k.value); }
  }

  lemma PlanIsTarget(s: Sub, e: Event, leg: Leg, w: Weather, target: real)
    ensures ExitPlan(s, e, leg, w) == Ok(target) <==> Targeted(s, e, leg, w, target)
  {
    LiveIffFound(s.episodes, e.coin);
    if e.coin in s.positions && s.positions[e.coin].sizeCoin.Some? && w.spec.Some? {
      var held := s.positions[e.coin].sizeCoin.value;
      TargetIsExact(e, leg, held, w.spec.value, target);
      if held > 0.0 { TenDollarsWorth(target, s.positions[e.coin]); }
    }
  }

  /** An attempt goes out exactly when its price exists and at least one quantum remains, and
      then for as much of the remainder as the asset's precision expresses. */
  lemma AttemptIsForTheRemainder(s: Sub, aim: Aim, remaining: real, szDecimals: int, mark: real)
    ensures var order := ReduceOrder(s, aim, remaining, szDecimals, mark);
            && (order.Some? <==>
                  Priceable(mark, aim.isBuy, szDecimals) && 0 <= szDecimals <= 8 && remaining >= Quantum(szDecimals))
            && (order.Some? ==>
                  && Truncates(order.value.size, remaining, szDecimals)
                  && order.value == Sent(aim.leg, aim.coin, aim.isBuy, order.value.size, At(s.venue, aim.coin)))
  {
    EveryMarkIsPriceable(mark, aim.isBuy, szDecimals);
    RoundSizeTruncates(remaining, szDecimals);
  }

  lemma OrderForTarget(s: Sub, aim: Aim, szDecimals: int, mark: real)
    requires 0 <= szDecimals <= 8 && RoundSize(aim.target, szDecimals) == Ok(aim.target)
    ensures ReduceOrder(s, aim, aim.target, szDecimals, mark) ==
            if Priceable(mark, aim.isBuy, szDecimals)
            then Some(Sent(aim.leg, aim.coin, aim.isBuy, aim.target, At(s.venue, aim.coin))) else None
  {
    EveryMarkIsPriceable(mark, aim.isBuy, szDecimals);
  }

  lemma TargetRoundsToItself(e: Event, leg: Leg, held: real, szDecimals: int, target: real)
    requires Closes(e, leg, held, szDecimals, target)
    ensures target > 0.0 && RoundSize(target, szDecimals) == Ok(target)
  {
    TruncationIsUnique(target, target, szDecimals);
  }

  /** The retry starts with the first order planned, or sends nothing. */
  lemma RetryStartsWith(s: Sub, aim: Aim, plan: Planner, tries: nat -> Try)
    requires Frugal(plan, aim) && aim.target > 0.0
    ensures var order, sent := plan(s, aim.target, tries(0).mark),
                               Reduced(s, aim.target, Attempts(aim.target, plan, tries)).sub.sent;
            && (order.None? ==> sent == s.sent)
            && (order.Some? ==> |s.sent| < |sent| && sent[..|s.sent|] == s.sent && sent[|s.sent|] == order.value)
  {
    var order, attempt, r := plan(s, aim.target, tries(0).mark), Attempts(aim.target, plan, tries),
                             Reduction(s, 0.0, false);
    assert aim.target - 0.0 == aim.target;
    assert attempt(0, r) == AttemptAt(0, r, order, tries(0));
    AttemptsAreCareful(aim, plan, tries, false);
    assert KeepsOnce(0, r, attempt(0, r), aim, tries, false);
    if order.Some? {
      var next := ReduceOnce(r, order.value, tries(0));
      assert next.sub.sent == s.sent + [order.value];
      if !next.raised && aim.target - next.filled > 0.0 {
        RetryKeeps(1, next, aim, attempt, tries, false);
        var q := ReduceFrom(1, next, aim.target, attempt);
        assert q.sub.sent[..|next.sub.sent|] == next.sub.sent;
        assert q.sub.sent[|s.sent|] == q.sub.sent[..|next.sub.sent|][|s.sent|];
        assert q.sub.sent[..|s.sent|] == q.sub.sent[..|next.sub.sent|][..|s.sent|];
      }
    }
  }

  lemma DueExitReduces(s: Sub, e: Event, leg: Leg, w: Weather, k: nat, target: real)
    requires OneLive(s.episodes) && k < |s.episodes| && LiveAt(s.episodes, e.coin, k)
    requires Targeted(s, e, leg, w, target) && w.won && !w.halted
    ensures var o, isBuy := Exit(s, e, leg, w), s.episodes[k].side == Short;
            var priceable := Priceable(w.tries(0).mark, isBuy, w.spec.value);
            && (!priceable ==> o.sub.sent == s.sent)
            && (priceable ==>
                  && |s.sent| < |o.sub.sent| && o.sub.sent[..|s.sent|] == s.sent
                  && o.sub.sent[|s.sent|] == Sent(leg, e.coin, isBuy, target, At(s.venue, e.coin)))
  {
    PlanIsTarget(s, e, leg, w, target);
    LiveEpisodeIsTheOne(s.episodes, e.coin, k);
    var aim := ExitAim(s, e, leg, w);
    var plan := ReducePlanner(aim, w.spec.value);
    TargetRoundsToItself(e, leg, s.positions[e.coin].sizeCoin.value, w.spec.value, target);
    OrderForTarget(s, aim, w.spec.value, w.tries(0).mark);
    PlannerIsFrugal(aim, w.spec.value);
    RetryStartsWith(s, aim, plan, w.tries);
    assert Exit(s, e, leg, w).sub.sent == ExitReduction(s, e, leg, w).sub.sent;
  }

  /** Exits are gated by nothing else: an exit sends an order exactly when it is due, first of
      all one for the whole target in the direction that closes; and an exit that is not ours
      touches nothing. */
  lemma ExitSendsIffDue(s: Sub, e: Event, leg: Leg, w: Weather)
    requires OneLive(s.episodes)
    ensures Exit(s, e, leg, w).sub.sent != s.sent <==> exists k: nat, target: real :: ExitDue(s, e, leg, w, k, target)
    ensures forall k: nat, target: real :: ExitDue(s, e, leg, w, k, target) ==>
              var sent := Exit(s, e, leg, w).sub.sent;
              && |s.sent| < |sent| && sent[..|s.sent|] == s.sent
              && sent[|s.sent|] == Sent(leg, e.coin, s.episodes[k].side == Short, target, At(s.venue, e.coin))
  {
    forall k: nat, target: real | ExitDue(s, e, leg, w, k, target)
      ensures var sent := Exit(s, e, leg, w).sub.sent;
              && |s.sent| < |sent| && sent[..|s.sent|] == s.sent
              && sent[|s.sent|] == Sent(leg, e.coin, s.episodes[k].side == Short, target, At(s.venue, e.coin))
    {
      DueExitReduces(s, e, leg, w, k, target);
    }
    if Exit(s, e, leg, w).sub.sent != s.sent {
      var target := ExitPlan(s, e, leg, w).value;
      var k := LiveEpisode(s.episodes, e.coin).value;
      PlanIsTarget(s, e, leg, w, target);
      assert LiveAt(s.episodes, e.coin, k);
      DueExitReduces(s, e, leg, w, k, target);
      assert ExitDue(s, e, leg, w, k, target);
    }
  }

  /** Who is answerable for the event after an exit: this instance, whether or not there was
      anything to send, unless another won the claim, or a halt or a lost answer cut it
      short. A claim lost or a halt sends nothing. */
  lemma ExitOwnsUnlessCutShort(s: Sub, e: Event, leg: Leg, w: Weather)
    ensures var o, targeted := Exit(s, e, leg, w), exists target: real :: Targeted(s, e, leg, w, target);
            && (o.owns <==> w.won && !o.raised && !(targeted && w.halted))
            && (!w.won || w.halted ==> o.sub == s)
  {
    var plan := ExitPlan(s, e, leg, w);
    if plan.Ok? { PlanIsTarget(s, e, leg, w, plan.value); }
    forall target: real | Targeted(s, e, leg, w, target) ensures plan.Ok? { PlanIsTarget(s, e, leg, w, target); }
  }

  /** A planner breaks the loop only where there is no price, or less than a quantum left. */
  ghost predicate Persistent(plan: Planner, aim: Aim, szDecimals: nat) {
    forall s: Sub, remaining: real, mark: real ::
      PersistsAt(plan(s, remaining, mark), aim, remaining, szDecimals, mark)
  }

  ghost predicate PersistsAt(order: Option<Sent>, aim: Aim, remaining: real, szDecimals: nat, mark: real) {
    order.None? ==> !Priceable(mark, aim.isBuy, szDecimals) || remaining < Quantum(szDecimals)
  }

  lemma PlannerIsPersistent(aim: Aim, szDecimals: nat)
    requires szDecimals <= 8
    ensures Persistent(ReducePlanner(aim, szDecimals), aim, szDecimals)
  {
    forall s: Sub, remaining: real, mark: real
      ensures PersistsAt(ReducePlanner(aim, szDecimals)(s, remaining, mark), aim, remaining, szDecimals, mark)
    {
      AttemptIsForTheRemainder(s, aim, remaining, szDecimals, mark);
      assert ReducePlanner(aim, szDecimals)(s, remaining, mark) == ReduceOrder(s, aim, remaining, szDecimals, mark);
    }
  }

  /** The retry stopped short of three orders for a cause: nothing remains, an answer was lost,
      a halt was seen before another attempt, or what remains has no price or is less than a
      quantum. And no order but the first was sent on seeing a halt. */
  ghost predicate StopsForCause(k: nat, r: Reduction, q: Reduction, aim: Aim, szDecimals: nat, tries: nat -> Try) {
    var n := k + |q.sub.sent| - |r.sub.sent|;
    && (n < 3 ==>
          || (0 < n && (q.raised || aim.target <= q.filled || tries(n).halted))
          || (0 <= n && !Priceable(tries(n).mark, aim.isBuy, szDecimals))
          || aim.target - q.filled < Quantum(szDecimals))
    && forall j: nat :: k <= j < n && 0 < j ==> !tries(j).halted
  }

  /** What one attempt sends, and why there may be none. */
  predicate SendsOne(r: Reduction, next: Option<Reduction>) {
    next.Some? ==> |next.value.sub.sent| == |r.sub.sent| + 1
  }

  ghost predicate SendsUnless(k: nat, r: Reduction, next: Option<Reduction>, aim: Aim, szDecimals: nat, t: Try) {
    && SendsOne(r, next) && (next.Some? ==> k == 0 || !t.halted)
    && (next.None? ==>
          || (k > 0 && t.halted) || !Priceable(t.mark, aim.isBuy, szDecimals)
          || aim.target - r.filled < Quantum(szDecimals))
  }

  ghost predicate Persists(attempt: Attempt, aim: Aim, szDecimals: nat, tries: nat -> Try) {
    forall k: nat, r: Reduction :: SendsUnless(k, r, attempt(k, r), aim, szDecimals, tries(k))
  }

  lemma AttemptsPersist(aim: Aim, plan: Planner, szDecimals: nat, tries: nat -> Try)
    requires Persistent(plan, aim, szDecimals)
    ensures Persists(Attempts(aim.target, plan, tries), aim, szDecimals, tries)
  {
    forall k: nat, r: Reduction
      ensures SendsUnless(k, r, Attempts(aim.target, plan, tries)(k, r), aim, szDecimals, tries(k))
    {
      var order := plan(r.sub, aim.target - r.filled, tries(k).mark);
      assert PersistsAt(order, aim, aim.target - r.filled, szDecimals, tries(k).mark);
      assert Attempts(aim.target, plan, tries)(k, r) == AttemptAt(k, r, order, tries(k));
    }
  }

  lemma {:induction false} RetryStopsForCause(k: nat, r: Reduction, aim: Aim, attempt: Attempt, szDecimals: nat,
      tries: nat -> Try)
    requires k <= 3 && !r.raised && Persists(attempt, aim, szDecimals, tries)
    ensures StopsForCause(k, r, ReduceFrom(k, r, aim.target, attempt), aim, szDecimals, tries)
    decreases 3 - k
  {
    assert SendsUnless(k, r, attempt(k, r), aim, szDecimals, tries(k));
    if k < 3 && attempt(k, r).Some? {
      var next := attempt(k, r).value;
      if !next.raised && aim.target - next.filled > 0.0 {
        RetryStopsForCause(k + 1, next, aim, attempt, szDecimals, tries);
      }
    }
  }

  /** So an exit's remainder is retried, to three orders, until one of those causes. */
  lemma ExitRetriesRemainder(s: Sub, e: Event, leg: Leg, w: Weather, target: real)
    requires Targeted(s, e, leg, w, target) && w.won && !w.halted
    ensures ExitPlan(s, e, leg, w) == Ok(target) && Exit(s, e, leg, w).sub.sent == ExitReduction(s, e, leg, w).sub.sent
    ensures StopsForCause(0, Reduction(s, 0.0, false), ExitReduction(s, e, leg, w), ExitAim(s, e, leg, w), w.spec.value,
                          w.tries)
  {
    PlanIsTarget(s, e, leg, w, target);
    var aim := ExitAim(s, e, leg, w);
    PlannerIsPersistent(aim, w.spec.value);
    var plan := ReducePlanner(aim, w.spec.value);
    AttemptsPersist(aim, plan, w.spec.value, w.tries);
    RetryStopsForCause(0, Reduction(s, 0.0, false), aim, Attempts(aim.target, plan, w.tries), w.spec.value, w.tries);
    assert Exit(s, e, leg, w).sub.sent == ExitReduction(s, e, leg, w).sub.sent;
  }

  // ---------------------------------------------------------------------------
  // A close that fills
  // ---------------------------------------------------------------------------

  lemma FilledAtOnce(s: Sub, aim: Aim, order: Sent, t: Try)
    requires aim.target > 0.0 && order == Sent(aim.leg, aim.coin, aim.isBuy, aim.target, order.onto)
    requires t.answer.Fill? && t.answer.size >= aim.target
    requires Reducible(At(s.venue, aim.coin), aim.isBuy) >= aim.target
    ensures var next := ReduceOnce(Reduction(s, 0.0, false), order, t);
            && !next.raised && next.filled == aim.target
            && Moved(At(s.venue, aim.coin), At(next.sub.venue, aim.coin), aim.isBuy) == aim.target
  {
  }

  lemma ReducedAtOnce(s: Sub, aim: Aim, plan: Planner, tries: nat -> Try)
    requires aim.target > 0.0 && tries(0).answer.Fill? && tries(0).answer.size >= aim.target
    requires Reducible(At(s.venue, aim.coin), aim.isBuy) >= aim.target
    requires var order := plan(s, aim.target, tries(0).mark);
             order.Some? && order.value == Sent(aim.leg, aim.coin, aim.isBuy, aim.target, order.value.onto)
    ensures var q := Reduced(s, aim.target, Attempts(aim.target, plan, tries));
            && !q.raised && q.filled == aim.target
            && Moved(At(s.venue, aim.coin), At(q.sub.venue, aim.coin), aim.isBuy) == aim.target
  {
    var order, attempt, r := plan(s, aim.target, tries(0).mark), Attempts(aim.target, plan, tries),
                             Reduction(s, 0.0, false);
    assert aim.target - 0.0 == aim.target;
    assert attempt(0, r) == AttemptAt(0, r, order, tries(0));
    FilledAtOnce(s, aim, order.value, tries(0));
    assert Reduced(s, aim.target, attempt) == ReduceOnce(r, order.value, tries(0));
  }

  /** A close does what the leader did. From a true working copy, one that is due and whose
      first order is filled in full leaves the venue with no more than what sizing cut off,
      and ends the episode. */
  lemma DueCloseLeavesTheRemainder(s: Sub, e: Event, leg: Leg, w: Weather, k: nat, target: real)
    requires Good(s) && FullExit(leg) && ExitDue(s, e, leg, w, k, target)
    requires w.tries(0).answer.Fill? && w.tries(0).answer.size >= target
    ensures var o, p := Exit(s, e, leg, w), s.positions[e.coin];
            var left := p.sizeCoin.value - target;
            && 0.0 <= left < Quantum(w.spec.value)
            && At(o.sub.venue, e.coin) == Signed(p.side, left)
            && !o.raised && o.owns && !HasLive(o.sub.episodes, e.coin)
  {
    PlanIsTarget(s, e, leg, w, target);
    LiveEpisodeIsTheOne(s.episodes, e.coin, k);
    var aim, held := ExitAim(s, e, leg, w), s.positions[e.coin].sizeCoin.value;
    assert Synced(s.positions, s.venue, e.coin);
    TargetRoundsToItself(e, leg, held, w.spec.value, target);
    TargetIsPositive(e, leg, held, w.spec.value);
    OrderForTarget(s, aim, w.spec.value, w.tries(0).mark);
    ReducedAtOnce(s, aim, ReducePlanner(aim, w.spec.value), w.tries);
    EpisodeEndsIffFlat(s, e, leg, w);
    LiveIffFound(Exit(s, e, leg, w).sub.episodes, e.coin);
  }

  // ---------------------------------------------------------------------------
  // Entries
  // ---------------------------------------------------------------------------

  /** Every guard on an entry: not winding down, no older than five minutes, an orderable coin;
      a scale-in of something live and held, and an open of nothing live or held, on a leader
      of at least $100 in a coin whose market is copyable. */
  ghost predicate EntryPermitted(s: Sub, e: Event, leg: Leg, terms: Terms, w: Weather) {
    && !terms.windingDown && w.now - e.observedAt <= 300_000_000 && w.spec.Some?
    && if leg == ScaleInLeg then
         HasLive(s.episodes, e.coin) && e.coin in s.positions && s.positions[e.coin].sizeCoin.Some?
       else
         && !HasLive(s.episodes, e.coin) && e.coin !in s.positions
         && w.leaderEquity.Some? && w.leaderEquity.value >= 100.0
         && w.market.Copyable?
  }

  /** And every gate on the way to the wire: the claim, which a flip's close has already made,
      the halt, and for an open the leverage setting and a second look at the halt. */
  predicate Cleared(leg: Leg, w: Weather) {
    && (leg == FlipOpen || w.won) && !w.halted
    && (leg == ScaleInLeg || (w.leverageSet && !w.haltedAgain))
  }

  /** What the leg would send, judged against everything the working copy holds. */
  ghost function Wanted(s: Sub, e: Event, leg: Leg, terms: Terms, w: Weather): PlannedEntry
    requires EntryPermitted(s, e, leg, terms, w)
  {
    var ask :=
      if leg == ScaleInLeg then
        var p := s.positions[e.coin];
        ScaleAsk(p.sizeCoin.value, p.leverage, e.before, e.after, w.mark, w.spec.value)
      else
        var choice := ResolveLeverage(terms.mode, terms.configured, e.leverage, w.market.maxLeverage, terms.limits);
        OpenAsk(terms.baseStake, choice, w.mark, w.spec.value);
    EntryOrder(ask, e.side == Some(Long), if e.coin in s.positions then s.positions[e.coin].Margin() else 0.0,
               Committed(s.positions), w.mark, terms.limits, w.spec.value)
  }

  lemma PlanIsWanted(s: Sub, e: Event, leg: Leg, terms: Terms, w: Weather)
    requires e.side.Some?
    ensures EntryPermitted(s, e, leg, terms, w) ==> EntryPlan(s, e, leg, terms, w) == Wanted(s, e, leg, terms, w)
    ensures !EntryPermitted(s, e, leg, terms, w) ==> EntryPlan(s, e, leg, terms, w).Skip?
  {
    LiveIffFound(s.episodes, e.coin);
  }

  /** An entry sends an order exactly when every guard permits it, every gate lets it through,
      and what it wants is an order; and then that one order and no other, raising exactly
      when its answer is lost. */
  lemma EntrySendsIffPermitted(s: Sub, e: Event, leg: Leg, terms: Terms, w: Weather)
    requires e.side.Some? && Sane(terms, w)
    ensures var sent, permitted := Enter(s, e, leg, terms, w).sub.sent, EntryPermitted(s, e, leg, terms, w);
            var due := permitted && Cleared(leg, w) && Wanted(s, e, leg, terms, w).Send?;
            && (sent != s.sent <==> due)
            && (due ==>
                  var size := Wanted(s, e, leg, terms, w).size;
                  && sent == s.sent + [Sent(leg, e.coin, e.side == Some(Long), size, At(s.venue, e.coin))]
                  && Enter(s, e, leg, terms, w).owns
                  && (Enter(s, e, leg, terms, w).raised <==> w.answer.Lost?))
            && (!due ==> Enter(s, e, leg, terms, w) == Outcome(s, w.won, false))
  {
    PlanIsWanted(s, e, leg, terms, w);
    var plan := EntryPlan(s, e, leg, terms, w);
    if plan.Send? && LetsThrough(leg, w) {
      PlannedEntryWithinCaps(s, e, leg, terms, w);
      assert Enter(s, e, leg, terms, w) == EntryPlaced(s, e, leg, plan, w.answer);
    }
  }

  // ---------------------------------------------------------------------------
  // Every event sends what is due
  // ---------------------------------------------------------------------------

  /** The leg that closes something of what is held. */
  predicate ExitsBy(kind: Kind, leg: Leg) {
    (kind == Close && leg == CloseLeg) || (kind == ScaleOut && leg == ScaleOutLeg) || (kind == Flip && leg == FlipClose)
  }

  ghost predicate EntryDue(s: Sub, e: Event, leg: Leg, terms: Terms, w: Weather) {
    EntryPermitted(s, e, leg, terms, w) && Cleared(leg, w) && Wanted(s, e, leg, terms, w).Send?
  }

  ghost function EntrySent(s: Sub, e: Event, leg: Leg, terms: Terms, w: Weather): Sent
    requires EntryDue(s, e, leg, terms, w)
  {
    Sent(leg, e.coin, e.side == Some(Long), Wanted(s, e, leg, terms, w).size, At(s.venue, e.coin))
  }

  /** An open or a scale-in that is due sends its one order, and one that is not, none. */
  lemma TurnEntersIfDue(s: Sub, t: Turn, leg: Leg)
    requires Takeable(t)
    requires (t.event.kind == Open && leg == OpenLeg) || (t.event.kind == ScaleIn && leg == ScaleInLeg)
    ensures Taken(s, t).sub.sent ==
            if EntryDue(s, t.event, leg, t.terms, t.first)
            then s.sent + [EntrySent(s, t.event, leg, t.terms, t.first)] else s.sent
  {
    EntrySendsIffPermitted(s, t.event, leg, t.terms, t.first);
  }

  /** The first order after those sent before. */
  predicate SendsFirst(before: seq<Sent>, after: seq<Sent>, order: Sent) {
    |before| < |after| && after[..|before|] == before && after[|before|] == order
  }

  /** A close, a trim or a flip that is due sends first of all the whole of what it closes. */
  lemma TurnExitsIfDue(s: Sub, t: Turn, leg: Leg, k: nat, target: real)
    requires Takeable(t) && OneLive(s.episodes) && ExitsBy(t.event.kind, leg)
    requires ExitDue(s, t.event, leg, t.first, k, target)
    ensures SendsFirst(s.sent, Taken(s, t).sub.sent,
                       Sent(leg, t.event.coin, s.episodes[k].side == Short, target, At(s.venue, t.event.coin)))
  {
    var exit := Exit(s, t.event, leg, t.first);
    ExitSendsIffDue(s, t.event, leg, t.first);
    if t.event.kind == Flip {
      FlipGoesOnToOpen(s, t);
    } else {
      assert Taken(s, t) == exit;
    }
  }

  /** The flip's second order: due from where its close left the sub, if the close is done. */
  lemma FlipGoesOnToOpen(s: Sub, t: Turn)
    requires Takeable(t) && t.event.kind == Flip
    ensures var closed, o := Exit(s, t.event, FlipClose, t.first), Taken(s, t);
            if !closed.raised && closed.owns && EntryDue(closed.sub, t.event, FlipOpen, t.terms, t.second)
            then o.sub.sent == closed.sub.sent + [EntrySent(closed.sub, t.event, FlipOpen, t.terms, t.second)]
            else o.sub == closed.sub
  {
    var closed := Exit(s, t.event, FlipClose, t.first);
    if !closed.raised && closed.owns { EntrySendsIffPermitted(closed.sub, t.event, FlipOpen, t.terms, t.second); }
  }

  // ---------------------------------------------------------------------------
  // A wind-down only closes
  // ---------------------------------------------------------------------------

  predicate Closing(order: Sent) { order.leg == CloseLeg || order.leg == ScaleOutLeg || order.leg == FlipClose }

  /** The orders added all close. */
  ghost predicate AddsClosing(before: seq<Sent>, after: seq<Sent>) {
    && |before| <= |after| && after[..|before|] == before
    && forall k :: |before| <= k < |after| ==> Closing(after[k])
  }

  lemma ClosingOn(a: seq<Sent>, b: seq<Sent>, c: seq<Sent>)
    requires AddsClosing(a, b) && AddsClosing(b, c)
    ensures AddsClosing(a, c)
  {
    assert c[..|a|] == c[..|b|][..|a|];
    forall k | |a| <= k < |c| ensures Closing(c[k]) {
      if k < |b| { assert c[k] == c[..|b|][k]; }
    }
  }

  lemma ExitAddsClosing(s: Sub, e: Event, leg: Leg, w: Weather)
    requires leg == CloseLeg || leg == ScaleOutLeg || leg == FlipClose
    ensures AddsClosing(s.sent, Exit(s, e, leg, w).sub.sent)
  {
    ExitStaysWithinTarget(s, e, leg, w);
  }

  lemma WindingDownTurnCloses(s: Sub, t: Turn)
    requires Takeable(t) && t.terms.windingDown
    ensures AddsClosing(s.sent, Taken(s, t).sub.sent)
  {
    match t.event.kind {
      case Open => EntrySendsIffPermitted(s, t.event, OpenLeg, t.terms, t.first);
      case ScaleIn => EntrySendsIffPermitted(s, t.event, ScaleInLeg, t.terms, t.first);
      case Close => ExitAddsClosing(s, t.event, CloseLeg, t.first);
      case ScaleOut => ExitAddsClosing(s, t.event, ScaleOutLeg, t.first);
      case Flip =>
        var closed := Exit(s, t.event, FlipClose, t.first);
        ExitAddsClosing(s, t.event, FlipClose, t.first);
        if !closed.raised && closed.owns {
          EntrySendsIffPermitted(closed.sub, t.event, FlipOpen, t.terms, t.second);
        }
    }
  }

  /** Once the Loss Budget is breached, whatever the backlog holds, a cycle sends closing
      orders only. */
  lemma {:induction false} WindDownOnlyCloses(s: Sub, turns: seq<Turn>)
    requires forall t :: t in turns ==> Takeable(t) && t.terms.windingDown
    ensures AddsClosing(s.sent, Drained(s, turns).sent)
    decreases turns
  {
    if turns != [] {
      assert turns[0] in turns && forall t :: t in turns[1..] ==> t in turns;
      WindingDownTurnCloses(s, turns[0]);
      WindDownOnlyCloses(Taken(s, turns[0]).sub, turns[1..]);
      ClosingOn(s.sent, Taken(s, turns[0]).sub.sent, Drained(s, turns).sent);
    }
  }

  /** And every event has its turn, in order, whatever became of the one before: a backlog is
      its events one after another, each handled where the last left the sub. */
  lemma {:induction false} BacklogIsItsEvents(s: Sub, turns: seq<Turn>, more: seq<Turn>)
    requires forall t :: t in turns + more ==> Takeable(t)
    ensures forall t :: t in turns || t in more ==> Takeable(t)
    ensures Drained(s, turns + more) == Drained(Drained(s, turns), more)
    ensures turns != [] ==> Drained(s, turns[..1]) == Taken(s, turns[0]).sub && Drained(s, []) == s
    decreases turns
  {
    forall t | t in turns || t in more ensures Takeable(t) { assert t in turns + more; }
    if turns == [] {
      assert turns + more == more;
    } else {
      assert (turns + more)[1..] == turns[1..] + more;
      BacklogIsItsEvents(Taken(s, turns[0]).sub, turns[1..], more);
    }
  }
}
