// Proportional mirroring over a whole run of scales (src/epigone/execute/pricing.py,
// src/epigone/execute/executor.py): how far a copy drifts from the leader's proportions.
module Mirroring {
  import opened Pricing
  import opened Reals
  import opened Wrappers
  import PositionDiff

  /** A leader's scale: the kind its event carries, and their coin sizes around it. */
  datatype Scale = Scale(isIn: bool, before: real, after: real)

  predicate Sized(s: Scale) { s.before > 0.0 && s.after > 0.0 }

  /** The event's kind and the coin sizes say the same direction. */
  predicate Agrees(s: Scale) { if s.isIn then s.after >= s.before else s.after <= s.before }

  function Ratio(s: Scale): real
    requires Sized(s)
  {
    Over(s.after, s.before)
  }

  /** What is held once a scale is mirrored and fully filled; a fraction too small for the
      asset's precision is skipped. */
  function Mirrored(held: real, s: Scale, szDecimals: int): real {
    var fraction := ScaleFraction(Some(s.before), Some(s.after));
    if fraction.Unpriceable? then held else Moved(held, s.isIn, fraction.value, szDecimals)
  }

  function Moved(held: real, isIn: bool, fraction: real, szDecimals: int): real {
    var size := RelativeSize(held, fraction, szDecimals);
    if size.Unpriceable? then held
    else if isIn then held + size.value else held - size.value
  }

  function MirroredRun(held: real, scales: seq<Scale>, szDecimals: int): real {
    if scales == [] then held
    else Mirrored(MirroredRun(held, scales[..|scales| - 1], szDecimals), scales[|scales| - 1], szDecimals)
  }

  /** The fraction moved, from the ratio. */
  lemma FractionIsRatio(s: Scale)
    requires Sized(s)
    ensures ScaleFraction(Some(s.before), Some(s.after)) == Ok(Abs(Ratio(s) - 1.0)) && Ratio(s) > 0.0
  {
    var f, r := Over(Abs(s.after - s.before), s.before), Ratio(s);
    OverTimes(Abs(s.after - s.before), s.before);
    OverTimes(s.after, s.before);
    TimesOne(s.before);
    TimesAdds(r, 1.0, s.before);
    TimesNegates(r - 1.0, s.before);
    TimesOrders(0.0, r, s.before);
    TimesOrders(r - 1.0, 0.0, s.before);
    SameProduct(f, Abs(r - 1.0), s.before);
  }

  lemma SameProduct(a: real, b: real, c: real)
    requires c > 0.0 && Times(a, c) == Times(b, c)
    ensures a == b
  {
    TimesOrders(a, b, c);
  }

  /** One scale, mirrored in its own direction, lands within a quantum of proportion: short
      when growing, over when shrinking, and never at nothing. */
  lemma OneScaleTracks(held: real, s: Scale, szDecimals: int)
    requires held > 0.0 && Sized(s) && Agrees(s) && OnTheWire(szDecimals)
    ensures var off := Mirrored(held, s, szDecimals) - Times(held, Ratio(s));
            if s.isIn then -Quantum(szDecimals) < off <= 0.0 else 0.0 <= off < Quantum(szDecimals)
    ensures Mirrored(held, s, szDecimals) > 0.0
  {
    FractionIsRatio(s);
    AgreesByRatio(s);
    MoveTracks(held, s.isIn, Ratio(s), szDecimals);
  }

  lemma MoveTracks(held: real, isIn: bool, ratio: real, szDecimals: int)
    requires held > 0.0 && ratio > 0.0 && OnTheWire(szDecimals)
    requires if isIn then ratio >= 1.0 else ratio <= 1.0
    ensures var moved := Moved(held, isIn, Abs(ratio - 1.0), szDecimals);
            && moved > 0.0
            && var off := moved - Times(held, ratio);
               if isIn then -Quantum(szDecimals) < off <= 0.0 else 0.0 <= off < Quantum(szDecimals)
  {
    var fraction := Abs(ratio - 1.0);
    ProportionMoves(held, ratio);
    TimesLe(0.0, fraction, held);
    TimesOne(held);
    TimesCommutes(held, fraction);
    MoveRoundsDown(held, isIn, fraction, Times(held, fraction), szDecimals);
  }

  /** What is actually moved is the wanted move, short by less than a quantum. */
  lemma MoveRoundsDown(held: real, isIn: bool, fraction: real, wanted: real, szDecimals: int)
    requires held > 0.0 && OnTheWire(szDecimals) && wanted == Times(held, fraction) >= 0.0
    ensures var now := Moved(held, isIn, fraction, szDecimals);
            var moved := if isIn then now - held else held - now;
            0.0 <= moved <= wanted < moved + Quantum(szDecimals)
  {
    RoundSizeTruncates(wanted, szDecimals);
  }

  /** Scaling by a ratio is moving by the fraction, up or down. */
  lemma ProportionMoves(held: real, ratio: real)
    requires held > 0.0 && ratio > 0.0
    ensures var move := Times(held, Abs(ratio - 1.0));
            Times(held, ratio) == (if ratio >= 1.0 then held + move else held - move) && Times(held, ratio) > 0.0
  {
    TimesCommutes(held, ratio);
    TimesCommutes(held, Abs(ratio - 1.0));
    TimesAdds(ratio, 1.0, held);
    TimesAdds(1.0, ratio, held);
    TimesOne(held);
    TimesPositive(held, ratio);
  }

  lemma AgreesByRatio(s: Scale)
    requires Sized(s)
    ensures if s.isIn then Agrees(s) <==> Ratio(s) >= 1.0 else Agrees(s) <==> Ratio(s) <= 1.0
  {
    OverTimes(s.after, s.before);
    TimesOne(s.before);
    TimesOrders(1.0, Ratio(s), s.before);
    TimesOrders(Ratio(s), 1.0, s.before);
  }

  // ---------------------------------------------------------------------------
  // Whole runs
  // ---------------------------------------------------------------------------

  /** Exact proportion: the opening size times every ratio. */
  function Proportional(opening: real, scales: seq<Scale>): real
    requires forall i :: 0 <= i < |scales| ==> Sized(scales[i])
  {
    if scales == [] then opening
    else Times(Proportional(opening, scales[..|scales| - 1]), Ratio(scales[|scales| - 1]))
  }

  /** One quantum for each scale, carried through every ratio after it. */
  function Carried(scales: seq<Scale>): real
    requires forall i :: 0 <= i < |scales| ==> Sized(scales[i])
  {
    if scales == [] then 0.0
    else Times(Carried(scales[..|scales| - 1]), Ratio(scales[|scales| - 1])) + 1.0
  }

  predicate WithinOf(x: real, y: real, limit: real) { -limit <= x - y <= limit }

  /** After any run of scales mirrored in their own direction and fully filled, skipped ones
      included, the copy is within its carried quanta of exact proportion. */
  lemma {:induction false} DriftIsBounded(opening: real, scales: seq<Scale>, szDecimals: int)
    requires opening > 0.0 && OnTheWire(szDecimals)
    requires forall i :: 0 <= i < |scales| ==> Sized(scales[i]) && Agrees(scales[i])
    ensures MirroredRun(opening, scales, szDecimals) > 0.0
    ensures WithinOf(MirroredRun(opening, scales, szDecimals), Proportional(opening, scales),
                     Times(Quantum(szDecimals), Carried(scales)))
  {
    if scales == [] {
      TimesOne(Quantum(szDecimals));
    } else {
      var before, last := scales[..|scales| - 1], scales[|scales| - 1];
      DriftIsBounded(opening, before, szDecimals);
      var held := MirroredRun(opening, before, szDecimals);
      OneScaleTracks(held, last, szDecimals);
      FractionIsRatio(last);
      DriftCarries(held, Proportional(opening, before), Quantum(szDecimals), Carried(before), Ratio(last),
                   MirroredRun(opening, scales, szDecimals));
    }
  }

  lemma DriftCarries(held: real, exact: real, quantum: real, carried: real, ratio: real, next: real)
    requires ratio > 0.0 && WithinOf(held, exact, Times(quantum, carried))
        && WithinOf(next, Times(held, ratio), quantum)
    ensures WithinOf(next, Times(exact, ratio), Times(quantum, Times(carried, ratio) + 1.0))
  {
    var limit := Times(quantum, carried);
    TimesLe(held - exact, limit, ratio);
    TimesLe(-limit, held - exact, ratio);
    TimesAdds(held, exact, ratio);
    TimesNegates(limit, ratio);
    TimesAssociates(quantum, carried, ratio);
    TimesCommutes(quantum, Times(carried, ratio));
    TimesCommutes(quantum, Times(carried, ratio) + 1.0);
    TimesAdds(Times(carried, ratio), 1.0, quantum);
    TimesOne(quantum);
  }

  // ---------------------------------------------------------------------------
  // Direction
  // ---------------------------------------------------------------------------

  /** The kind is decided in dollars and the size in coins. Mirroring tracks the leader, from
      every holding, if and only if the two agree on the direction. */
  lemma TracksIffAgrees(s: Scale, szDecimals: int)
    requires Sized(s) && OnTheWire(szDecimals)
    ensures Agrees(s) <==>
            forall held: real :: held > 0.0 ==>
                WithinOf(Mirrored(held, s, szDecimals), Times(held, Ratio(s)), Quantum(szDecimals))
  {
    if Agrees(s) {
      forall held: real | held > 0.0
        ensures WithinOf(Mirrored(held, s, szDecimals), Times(held, Ratio(s)), Quantum(szDecimals))
      {
        OneScaleTracks(held, s, szDecimals);
      }
    } else {
      WrongWay(s, szDecimals);
    }
  }

  lemma WrongWay(s: Scale, szDecimals: int)
    requires Sized(s) && OnTheWire(szDecimals) && !Agrees(s)
    ensures exists held: real ::
              held > 0.0 && !WithinOf(Mirrored(held, s, szDecimals), Times(held, Ratio(s)), Quantum(szDecimals))
  {
    var r, q := Ratio(s), Quantum(szDecimals);
    AgreesByRatio(s);
    FractionIsRatio(s);
    var f := Abs(r - 1.0);
    var held := Over(2.0 * q, f);
    OverTimes(2.0 * q, f);
    TimesOne(f);
    TimesOrders(0.0, held, f);
    RoundSizeTruncates(Times(held, f), szDecimals);
    TimesCommutes(held, f);
    ProportionMoves(held, r);
    assert !WithinOf(Mirrored(held, s, szDecimals), Times(held, r), q);
  }

  /** And they can disagree. A leader who buys 10% more coin through a 40% fall is reported
      as scaling out, so their copies sell what they bought. */
  lemma BoughtButCopiedAsSold(was: PositionDiff.Snapshot, now: PositionDiff.Position)
    requires was.side == now.side && was.sizeCoin == Some(1.0) && now.sizeCoin == Some(1.1)
    requires was.sizeUsd == 100.0 && now.sizeUsd == 66.0
    ensures var event := PositionDiff.ScaleEvent(was, now);
            && event.Some? && event.value.kind == PositionDiff.ScaleOut
            && !Agrees(Scale(false, event.value.prevSizeCoin.value, event.value.sizeCoin.value))
    ensures Mirrored(10.0, Scale(false, 1.0, 1.1), 0) == 9.0
  {
    TenPercent(1.0, 1.1);
    RoundsToOne(10.0);
  }

  lemma TenPercent(before: real, after: real)
    requires before == 1.0 && after == 1.1
    ensures ScaleFraction(Some(before), Some(after)) == Ok(0.1)
  {
  }

  lemma RoundsToOne(held: real)
    requires held == 10.0
    ensures RelativeSize(held, 0.1, 0) == Ok(1.0)
  {
    TenthOf(held);
    OneStaysOne(Decimals(0));
  }

  lemma TenthOf(held: real)
    requires held == 10.0
    ensures Times(held, 0.1) == 1.0
  {
  }

  lemma OneStaysOne(g: Grid)
    requires g == Grid(1.0, 1.0)
    ensures Quantize(1.0, g, Down) == 1.0
  {
    TimesOne(1.0);
  }
}
