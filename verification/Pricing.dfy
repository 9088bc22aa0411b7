// Orders the exchange will accept (src/epigone/execute/pricing.py): sizes rounded down to
// the asset's precision, prices rounded to five significant figures toward the safe side.
module Pricing {
  import opened Reals
  import opened Wrappers

  const MAX_WIRE_DECIMALS := 8
  const PRICE_SIGNIFICANT_FIGURES := 5
  const PERP_PRICE_DECIMAL_BUDGET := 6
  const SLIPPAGE_CAP := 0.01

  /** A number the wire can carry, or the error every caller has to turn into a skip. */
  datatype Priced = Ok(value: real) | Unpriceable

  datatype Rounding = Down | Up

  // ---------------------------------------------------------------------------
  // Grids
  // ---------------------------------------------------------------------------

  /** How many quanta make one, and the quantum. */
  datatype Grid = Grid(scale: real, step: real) {
    predicate Sound() { scale > 0.0 && step > 0.0 && Times(scale, step) == 1.0 }
  }

  function Finer(g: Grid): (finer: Grid)
    requires g.Sound()
    ensures finer.Sound()
  {
    assert (10.0 * g.scale) * (g.step / 10.0) == g.scale * g.step;
    Grid(10.0 * g.scale, g.step / 10.0)
  }

  /** The grid of `k` decimals. */
  function Decimals(k: nat): (g: Grid)
    ensures g.Sound() && 0.0 < g.step <= 1.0 <= g.scale
  {
    if k == 0 then TimesOne(1.0); Grid(1.0, 1.0) else Finer(Decimals(k - 1))
  }

  function Whole(n: int, step: real): real { Times(n as real, step) }

  /** A whole number of quanta. */
  ghost predicate OnGrid(x: real, g: Grid) { exists n: int :: x == Whole(n, g.step) }

  function Ceiling(x: real): int { -((-x).Floor) }

  /** The whole number of quanta `x` rounds to: toward zero, or away from it. */
  function Quanta(scaled: real, rounding: Rounding): int {
    if (rounding == Down) == (scaled >= 0.0) then scaled.Floor else Ceiling(scaled)
  }

  function Quantize(x: real, g: Grid, rounding: Rounding): real {
    Whole(Quanta(Times(x, g.scale), rounding), g.step)
  }

  predicate Close(r: real, x: real, step: real, rounding: Rounding) {
    if rounding == Down then r <= x < r + step else r - step < x <= r
  }

  /** What rounding a positive number does: one grid step at most, on the side asked for;
      zero only when rounding down something below one quantum. */
  lemma QuantizeIsClose(x: real, g: Grid, rounding: Rounding)
    requires x > 0.0 && g.Sound()
    ensures var r := Quantize(x, g, rounding);
            && OnGrid(r, g) && Close(r, x, g.step, rounding)
            && (r <= 0.0 <==> rounding == Down && x < g.step)
  {
    var scaled := Times(x, g.scale);
    var n := Quanta(scaled, rounding);
    assert Quantize(x, g, rounding) == Whole(n, g.step);
    TimesPositive(x, g.scale);
    ScaledBack(x, g);
    if rounding == Down {
      Bracket(x, scaled, n as real, g.step);
      TimesOrders(scaled, 1.0, g.step);
      TimesOne(g.step);
      TimesOrders(n as real, 0.0, g.step);
    } else {
      BracketAbove(x, scaled, n as real, g.step);
      TimesPositive(n as real, g.step);
    }
  }

  lemma ScaledBack(x: real, g: Grid)
    requires g.Sound()
    ensures Times(Times(x, g.scale), g.step) == x
  {
    TimesAssociates(x, g.scale, g.step);
    TimesOne(x);
  }

  lemma Bracket(x: real, scaled: real, n: real, step: real)
    requires step > 0.0 && Times(scaled, step) == x && n <= scaled < n + 1.0
    ensures Times(n, step) <= x < Times(n, step) + step
  {
    TimesLe(n, scaled, step);
    TimesLt(scaled, n + 1.0, step);
    TimesAdds(n, 1.0, step);
    TimesOne(step);
  }

  lemma BracketAbove(x: real, scaled: real, n: real, step: real)
    requires step > 0.0 && Times(scaled, step) == x && n - 1.0 < scaled <= n
    ensures Times(n, step) - step < x <= Times(n, step)
  {
    TimesLe(scaled, n, step);
    TimesLt(n - 1.0, scaled, step);
    TimesAdds(n, 1.0, step);
    TimesOne(step);
  }

  /** Nothing that is not positive rounds to something that is. */
  lemma NothingToRound(x: real, g: Grid, rounding: Rounding)
    requires x <= 0.0 && g.Sound()
    ensures Quantize(x, g, rounding) <= 0.0
  {
    TimesLe(x, 0.0, g.scale);
    TimesOne(g.scale);
    TimesLe(Quanta(Times(x, g.scale), rounding) as real, 0.0, g.step);
    TimesOne(g.step);
  }

  // ---------------------------------------------------------------------------
  // Sizes
  // ---------------------------------------------------------------------------

  predicate OnTheWire(szDecimals: int) { 0 <= szDecimals <= MAX_WIRE_DECIMALS }

  function RoundSize(size: real, szDecimals: int): Priced {
    if !OnTheWire(szDecimals) then Unpriceable
    else
      var rounded := Quantize(size, Decimals(szDecimals), Down);
      if rounded <= 0.0 then Unpriceable else Ok(rounded)
  }

  function Quantum(szDecimals: nat): real { Decimals(szDecimals).step }

  /** `r` is the largest expressible size not above `size`. */
  ghost predicate Truncates(r: real, size: real, szDecimals: nat) {
    0.0 < r <= size < r + Quantum(szDecimals) && OnGrid(r, Decimals(szDecimals))
  }

  /** A size is expressible just when it is at least one quantum, and then what is sent is
      the largest expressible size not above it. */
  lemma RoundSizeTruncates(size: real, szDecimals: int)
    ensures RoundSize(size, szDecimals).Ok? <==> 0 <= szDecimals <= 8 && size >= Quantum(szDecimals)
    ensures RoundSize(size, szDecimals).Ok? ==> Truncates(RoundSize(size, szDecimals).value, size, szDecimals)
  {
    if OnTheWire(szDecimals) {
      if size > 0.0 {
        QuantizeIsClose(size, Decimals(szDecimals), Down);
      } else {
        NothingToRound(size, Decimals(szDecimals), Down);
      }
    }
  }

  /** And it is the only one. */
  lemma TruncationIsUnique(r: real, size: real, szDecimals: nat)
    requires OnTheWire(szDecimals) && Truncates(r, size, szDecimals)
    ensures RoundSize(size, szDecimals) == Ok(r)
  {
    var step := Quantum(szDecimals);
    RoundSizeTruncates(size, szDecimals);
    var rounded := RoundSize(size, szDecimals);
    var n: int :| r == Whole(n, step);
    QuantumFits(n, step, r);
    var m: int :| rounded.value == Whole(m, step);
    SameQuanta(n, m, step, r, rounded.value);
  }

  lemma QuantumFits(n: int, step: real, r: real)
    requires step > 0.0 && r == Whole(n, step) && r > 0.0
    ensures r >= step
  {
    TimesOrders(n as real, 0.0, step);
    TimesOne(step);
    TimesOrders(1.0, n as real, step);
  }

  /** Two grid points less than a step apart are one. */
  lemma SameQuanta(n: int, m: int, step: real, a: real, b: real)
    requires step > 0.0 && a == Whole(n, step) && b == Whole(m, step) && a - step < b < a + step
    ensures a == b
  {
    NoFurther(m, n, step, b, a);
    NoFurther(n, m, step, a, b);
  }

  lemma NoFurther(n: int, m: int, step: real, a: real, b: real)
    requires step > 0.0 && a == Whole(n, step) && b == Whole(m, step) && a < b + step
    ensures n <= m
  {
    TimesOne(step);
    TimesAdds(m as real, 1.0, step);
    TimesReflectsStrictly(n as real, m as real + 1.0, step);
  }

  lemma TimesReflectsStrictly(a: real, b: real, c: real)
    requires c > 0.0 && Times(a, c) < Times(b, c)
    ensures a < b
  {
    TimesOrders(a, b, c);
  }

  /** The order size for the stake the policy granted. */
  function ClampedSize(size: real, asked: real, granted: real, szDecimals: int): Priced {
    if asked <= 0.0 then Unpriceable
    else if granted >= asked then Ok(size)
    else RoundSize(Over(Times(size, granted), asked), szDecimals)
  }

  /** A clamp can only shrink an order, and shrinks it at least as much as its stake. */
  lemma ClampNeverGrows(size: real, asked: real, granted: real, szDecimals: int)
    requires ClampedSize(size, asked, granted, szDecimals).Ok? && size >= 0.0
    ensures var r := ClampedSize(size, asked, granted, szDecimals).value;
            r <= size && Times(r, asked) <= Times(size, RealMin(granted, asked))
  {
    if granted < asked {
      var share := Over(Times(size, granted), asked);
      var r := ClampedSize(size, asked, granted, szDecimals).value;
      RoundSizeTruncates(share, szDecimals);
      OverTimes(Times(size, granted), asked);
      TimesLe(r, share, asked);
      TimesLe(granted, asked, size);
      TimesCommutes(granted, size);
      TimesCommutes(asked, size);
      TimesOrders(share, size, asked);
    }
  }

  /** Base stake at the mirrored leverage, in coin units at the mark. */
  function OpenSize(stakeUsd: real, leverage: real, mark: real, szDecimals: int): Priced {
    if mark <= 0.0 then Unpriceable else RoundSize(Over(Times(stakeUsd, leverage), mark), szDecimals)
  }

  /** How much of what they held a leader's scale moved, in coin units only. */
  function ScaleFraction(before: Option<real>, after: Option<real>): Priced {
    if before.None? || after.None? || before.value <= 0.0 then Unpriceable
    else Ok(Over(Abs(after.value - before.value), before.value))
  }

  /** A fraction of what is actually held. */
  function RelativeSize(held: real, fraction: real, szDecimals: int): Priced {
    if held <= 0.0 then Unpriceable else RoundSize(Times(held, fraction), szDecimals)
  }

  // ---------------------------------------------------------------------------
  // Prices
  // ---------------------------------------------------------------------------

  function TenTo(n: nat): nat { if n == 0 then 1 else 10 * TenTo(n - 1) }

  lemma {:induction false} ScaleIsTenTo(k: nat)
    ensures Decimals(k).scale == TenTo(k) as real
  {
    if k > 0 { ScaleIsTenTo(k - 1); }
  }

  /** How many digits a positive whole number is written with. */
  function Digits(n: nat): (d: nat)
    requires n > 0
    ensures d >= 1 && TenTo(d - 1) <= n < TenTo(d)
  {
    if n < 10 then assert TenTo(1) == 10; 1 else 1 + Digits(n / 10)
  }

  lemma TenfoldInverse(price: real)
    requires 0.0 < price && 10.0 * price < 1.0
    ensures 0 <= Over(1.0, 10.0 * price).Floor < Over(1.0, price).Floor
  {
    var inverse, tenfold := Over(1.0, price), Over(1.0, 10.0 * price);
    OverTimes(1.0, price);
    OverTimes(1.0, 10.0 * price);
    TimesAssociates(tenfold, 10.0, price);
    TimesOrders(1.0, tenfold, 10.0 * price);
    TimesOne(10.0 * price);
    TimesOrders(inverse, 10.0 * tenfold, price);
  }

  /** How far below one a price's first digit stands: the shift that brings it to one. */
  function Shift(price: real): (s: nat)
    requires 0.0 < price < 1.0
    ensures s >= 1
    decreases Over(1.0, price).Floor
  {
    if 10.0 * price >= 1.0 then 1
    else
      TenfoldInverse(price);
      1 + Shift(10.0 * price)
  }

  lemma {:induction false} ShiftBringsToOne(price: real)
    requires 0.0 < price < 1.0
    ensures 1.0 <= Times(price, Decimals(Shift(price)).scale) < 10.0
    decreases Over(1.0, price).Floor
  {
    if 10.0 * price >= 1.0 {
      MoveTen(price, Decimals(0).scale);
      TimesOne(10.0 * price);
    } else {
      var s := Shift(10.0 * price);
      TenfoldInverse(price);
      ShiftBringsToOne(10.0 * price);
      MoveTen(price, Decimals(s).scale);
      assert Shift(price) == s + 1 && Decimals(s + 1) == Finer(Decimals(s));
    }
  }

  lemma MoveTen(price: real, scale: real)
    ensures Times(price, 10.0 * scale) == Times(10.0 * price, scale)
  {
  }

  /** How many decimals five significant figures leave a price of this magnitude. */
  function FigureDecimals(magnitude: real): nat
    requires magnitude >= 0.0
  {
    if magnitude >= 1.0 then
      var digits := Digits(magnitude.Floor);
      if digits >= PRICE_SIGNIFICANT_FIGURES then 0 else PRICE_SIGNIFICANT_FIGURES - digits
    else if magnitude == 0.0 then PRICE_SIGNIFICANT_FIGURES - 1
    else PRICE_SIGNIFICANT_FIGURES - 1 + Shift(magnitude)
  }

  function DecimalBudget(szDecimals: int): nat { Max(PERP_PRICE_DECIMAL_BUDGET - szDecimals, 0) }

  /** The decimals a price keeps: the tighter of the two rules. */
  function PriceDecimals(price: real, szDecimals: int): nat {
    Min(DecimalBudget(szDecimals), FigureDecimals(Abs(price)))
  }

  function Tick(price: real, szDecimals: int): Grid { Decimals(PriceDecimals(price, szDecimals)) }

  function RoundPrice(price: real, szDecimals: int, rounding: Rounding): Priced {
    var capped := Quantize(price, Tick(price, szDecimals), rounding);
    if capped <= 0.0 then Unpriceable else Ok(capped)
  }

  /** At most five significant figures: five digits and a power of ten. */
  ghost predicate FewFigures(r: real) {
    exists m: int, k: nat :: -100_000 < m < 100_000 && r == Whole(m, Decimals(k).step)
  }

  predicate IsInteger(r: real) { r == r.Floor as real }

  /** What the venue accepts as a price on an asset of this precision. */
  ghost predicate Legal(r: real, szDecimals: int) {
    OnGrid(r, Decimals(Max(6 - szDecimals, 0))) && (IsInteger(r) || FewFigures(r))
  }

  /** `r` is the legal price closest to `price` on the side asked for. */
  ghost predicate NearestLegal(r: real, price: real, szDecimals: int, rounding: Rounding) {
    && Legal(r, szDecimals)
    && (if rounding == Down then r <= price else price <= r)
    && forall x: real :: Legal(x, szDecimals) ==>
         if rounding == Down then x <= price ==> x <= r else price <= x ==> r <= x
  }

  lemma {:induction false} ScalesGrow(a: nat, b: nat)
    requires a <= b
    ensures Decimals(a).scale <= Decimals(b).scale
    decreases b
  {
    if a < b {
      ScalesGrow(a, b - 1);
      assert Decimals(b) == Finer(Decimals(b - 1));
    }
  }

  /** A coarser grid's points are on every finer one. */
  lemma {:induction false} GridRefines(r: real, n: int, a: nat, b: nat)
    requires a <= b && r == Whole(n, Decimals(a).step)
    ensures OnGrid(r, Decimals(b))
    decreases b - a
  {
    if a < b {
      TenfoldStep(n, a);
      GridRefines(r, 10 * n, a + 1, b);
    }
  }

  lemma TenfoldStep(n: int, a: nat)
    ensures Whole(n, Decimals(a).step) == Whole(10 * n, Decimals(a + 1).step)
  {
    var fine := Finer(Decimals(a));
    assert Decimals(a + 1) == fine && Decimals(a).step == 10.0 * fine.step;
    MoveTen(n as real, fine.step);
  }

  lemma TimesLeBoth(a: real, b: real, c: real, d: real)
    requires 0.0 <= a <= b && 0.0 <= c <= d
    ensures Times(a, c) <= Times(b, d)
  {
    TimesLe(a, b, c);
    TimesLe(c, d, b);
    TimesCommutes(c, b);
    TimesCommutes(d, b);
  }

  /** With a decimal to spare, a price scaled to the decimals it keeps has five digits. */
  lemma ScaledPriceFits(price: real, szDecimals: int)
    requires price > 0.0 && PriceDecimals(price, szDecimals) > 0
    ensures Times(price, Tick(price, szDecimals).scale) < 100_000.0
  {
    var k := PriceDecimals(price, szDecimals);
    if price >= 1.0 {
      WholePriceFits(price, k);
    } else {
      var s := Shift(price);
      ScalesGrow(k, s + 4);
      TimesLeBoth(price, price, Decimals(k).scale, Decimals(s + 4).scale);
      ShiftBringsToOne(price);
      FourFiner(price, s);
    }
  }

  lemma FourFiner(price: real, s: nat)
    ensures Times(price, Decimals(s + 4).scale) == 10_000.0 * Times(price, Decimals(s).scale)
  {
    OneFiner(price, s);
    OneFiner(price, s + 1);
    OneFiner(price, s + 2);
    OneFiner(price, s + 3);
  }

  lemma OneFiner(price: real, s: nat)
    ensures Times(price, Decimals(s + 1).scale) == 10.0 * Times(price, Decimals(s).scale)
  {
    assert Decimals(s + 1) == Finer(Decimals(s));
    TenOut(price, Decimals(s).scale);
  }

  lemma TenOut(price: real, scale: real)
    ensures Times(price, 10.0 * scale) == 10.0 * Times(price, scale)
  {
  }

  lemma WholePriceFits(price: real, k: nat)
    requires price >= 1.0 && k <= FigureDecimals(price) && k > 0
    ensures Times(price, Decimals(k).scale) < 100_000.0
  {
    var digits := Digits(price.Floor);
    assert digits <= 4 && k <= 5 - digits;
    ScalesGrow(k, 5 - digits);
    ScaleIsTenTo(5 - digits);
    TimesLeBoth(price, price, Decimals(k).scale, TenTo(5 - digits) as real);
    TimesLt(price, TenTo(digits) as real, TenTo(5 - digits) as real);
    TensMultiply(digits);
  }

  lemma TensMultiply(digits: nat)
    requires 1 <= digits <= 4
    ensures Times(TenTo(digits) as real, TenTo(5 - digits) as real) == 100_000.0
  {
    assert TenTo(1) == 10 && TenTo(2) == 100 && TenTo(3) == 1_000 && TenTo(4) == 10_000;
  }

  /** A rounded price is legal, including when rounding up crosses a power of ten. */
  lemma RoundedPriceIsLegal(price: real, szDecimals: int, rounding: Rounding)
    requires price > 0.0
    ensures Legal(Quantize(price, Tick(price, szDecimals), rounding), szDecimals)
  {
    var k := PriceDecimals(price, szDecimals);
    var g := Decimals(k);
    var scaled := Times(price, g.scale);
    var n := Quanta(scaled, rounding);
    var r := Quantize(price, g, rounding);
    assert r == Whole(n, g.step);
    TimesPositive(price, g.scale);
    GridRefines(r, n, k, DecimalBudget(szDecimals));
    if k == 0 {
      TimesOne(n as real);
      assert r == n as real;
    } else {
      ScaledPriceFits(price, szDecimals);
      if n == 100_000 {
        TenfoldStep(10_000, k - 1);
        assert r == Whole(10_000, Decimals(k - 1).step);
      } else {
        assert -100_000 < n < 100_000;
      }
    }
  }

  /** Nothing on the grid lies between a number and what it rounds to. */
  lemma NearestOnGrid(x: real, g: Grid, rounding: Rounding, n: int)
    requires x > 0.0 && g.Sound()
    ensures rounding == Down && Whole(n, g.step) <= x ==> Whole(n, g.step) <= Quantize(x, g, rounding)
    ensures rounding == Up && x <= Whole(n, g.step) ==> Quantize(x, g, rounding) <= Whole(n, g.step)
  {
    var scaled := Times(x, g.scale);
    assert Quantize(x, g, rounding) == Whole(Quanta(scaled, rounding), g.step);
    TimesPositive(x, g.scale);
    ScaledBack(x, g);
    if rounding == Down && Whole(n, g.step) <= x {
      NearestBelow(x, scaled, n, scaled.Floor, g.step);
    }
    if rounding == Up && x <= Whole(n, g.step) {
      NearestAbove(x, scaled, n, Ceiling(scaled), g.step);
    }
  }

  lemma NearestBelow(x: real, scaled: real, n: int, floor: int, step: real)
    requires step > 0.0 && Times(scaled, step) == x && floor == scaled.Floor && Whole(n, step) <= x
    ensures Whole(n, step) <= Whole(floor, step)
  {
    TimesReflects(n as real, scaled, step);
    TimesLe(n as real, floor as real, step);
  }

  lemma NearestAbove(x: real, scaled: real, n: int, ceiling: int, step: real)
    requires step > 0.0 && Times(scaled, step) == x && ceiling == Ceiling(scaled) && x <= Whole(n, step)
    ensures Whole(ceiling, step) <= Whole(n, step)
  {
    TimesReflects(scaled, n as real, step);
    CeilingIsLeast(scaled, n);
    TimesLe(ceiling as real, n as real, step);
  }

  lemma CeilingIsLeast(scaled: real, n: int)
    requires scaled <= n as real
    ensures Ceiling(scaled) as real <= n as real
  {
    var m, below := -n, -scaled;
    assert m as real <= below;
    assert m <= below.Floor;
  }

  lemma TimesReflects(a: real, b: real, c: real)
    requires c > 0.0 && Times(a, c) <= Times(b, c)
    ensures a <= b
  {
    TimesOrders(a, b, c);
  }

  /** A price bound by its figures has all five of them above the point it is cut at. */
  lemma FiguresAreSpent(price: real)
    requires price > 0.0
    ensures Times(price, Decimals(FigureDecimals(price)).scale) >= 10_000.0
  {
    if price >= 1.0 {
      var digits := Digits(price.Floor);
      if digits >= 5 {
        TenToGrows(4, digits - 1);
        assert TenTo(4) == 10_000;
        TimesOne(price);
      } else {
        ScaleIsTenTo(5 - digits);
        TimesLe(TenTo(digits - 1) as real, price, TenTo(5 - digits) as real);
        TensAboveThePoint(digits);
      }
    } else {
      ShiftBringsToOne(price);
      FourFiner(price, Shift(price));
    }
  }

  lemma {:induction false} TenToGrows(a: nat, b: nat)
    requires a <= b
    ensures TenTo(a) <= TenTo(b)
    decreases b
  {
    if a < b { TenToGrows(a, b - 1); }
  }

  lemma TensAboveThePoint(digits: nat)
    requires 1 <= digits <= 4
    ensures Times(TenTo(digits - 1) as real, TenTo(5 - digits) as real) == 10_000.0
  {
    assert TenTo(1) == 10 && TenTo(2) == 100 && TenTo(3) == 1_000 && TenTo(4) == 10_000;
  }

  /** Five figures cut finer than `k` decimals are below the fifth figure at `k`. */
  lemma FinerFiguresAreSmall(x: real, m: int, j: nat, k: nat)
    requires m < 100_000 && x == Whole(m, Decimals(j).step) && k < j
    ensures x < Whole(10_000, Decimals(k).step)
  {
    TenfoldStep(10_000, k);
    StepsShrink(k + 1, j);
    TimesLt(m as real, 100_000.0, Decimals(j).step);
    TimesLe(Decimals(j).step, Decimals(k + 1).step, 100_000.0);
    TimesCommutes(Decimals(j).step, 100_000.0);
    TimesCommutes(Decimals(k + 1).step, 100_000.0);
  }

  lemma {:induction false} StepsShrink(a: nat, b: nat)
    requires a <= b
    ensures Decimals(b).step <= Decimals(a).step
    decreases b
  {
    if a < b {
      StepsShrink(a, b - 1);
      assert Decimals(b) == Finer(Decimals(b - 1));
    }
  }

  /** Every legal price is on the tick of a given price, or below that price's fifth
      figure. */
  lemma LegalIsOnTickOrSmall(x: real, price: real, szDecimals: int)
    requires price > 0.0 && Legal(x, szDecimals)
    ensures var k := PriceDecimals(price, szDecimals);
            OnGrid(x, Decimals(k)) || (k == FigureDecimals(price) && x < Whole(10_000, Decimals(k).step))
  {
    var k := PriceDecimals(price, szDecimals);
    if k == FigureDecimals(price) {
      if IsInteger(x) {
        TimesOne(x);
        assert x == Whole(x.Floor, Decimals(0).step);
        GridRefines(x, x.Floor, 0, k);
      } else {
        var m: int, j: nat :| -100_000 < m < 100_000 && x == Whole(m, Decimals(j).step);
        if j <= k { GridRefines(x, m, j, k); } else { FinerFiguresAreSmall(x, m, j, k); }
      }
    }
  }

  /** Whole prices are the venue's carve-out: always legal. */
  lemma WholeIsLegal(n: int, szDecimals: int)
    ensures Legal(n as real, szDecimals)
  {
    TimesOne(n as real);
    GridRefines(n as real, n, 0, Max(6 - szDecimals, 0));
  }

  /** Rounding to a price's tick finds the nearest price the venue accepts. */
  lemma QuantizeIsNearestLegal(price: real, szDecimals: int, rounding: Rounding)
    requires price > 0.0
    ensures NearestLegal(Quantize(price, Tick(price, szDecimals), rounding), price, szDecimals, rounding)
  {
    var k, g := PriceDecimals(price, szDecimals), Tick(price, szDecimals);
    var r := Quantize(price, g, rounding);
    QuantizeIsClose(price, g, rounding);
    RoundedPriceIsLegal(price, szDecimals, rounding);
    forall x: real | Legal(x, szDecimals)
      ensures if rounding == Down then x <= price ==> x <= r else price <= x ==> r <= x
    {
      LegalIsOnTickOrSmall(x, price, szDecimals);
      if OnGrid(x, g) {
        var n: int :| x == Whole(n, g.step);
        NearestOnGrid(price, g, rounding, n);
      } else {
        FifthFigureFits(price, g);
        NearestOnGrid(price, g, rounding, 10_000);
      }
    }
  }

  lemma FifthFigureFits(price: real, g: Grid)
    requires price > 0.0 && g == Decimals(FigureDecimals(price))
    ensures Whole(10_000, g.step) <= price
  {
    FiguresAreSpent(price);
    ScaledBack(price, g);
    TimesLe(10_000.0, Times(price, g.scale), g.step);
  }

  /** The venue accepts some positive price no greater than this. */
  ghost predicate SomeLegalBelow(price: real, szDecimals: int) {
    exists x: real :: Legal(x, szDecimals) && 0.0 < x <= price
  }

  /** The rounding rule as promised: a positive price is refused only when it rounds down and
      the venue accepts none so low, and what is sent is the nearest price the venue accepts
      on the side asked for. */
  lemma RoundPriceIsNearestLegal(price: real, szDecimals: int, rounding: Rounding)
    ensures var r := RoundPrice(price, szDecimals, rounding);
            && (r.Ok? <==> price > 0.0 && (rounding == Up || SomeLegalBelow(price, szDecimals)))
            && (r.Ok? ==> r.value > 0.0 && NearestLegal(r.value, price, szDecimals, rounding))
  {
    if price > 0.0 {
      var r := Quantize(price, Tick(price, szDecimals), rounding);
      QuantizeIsClose(price, Tick(price, szDecimals), rounding);
      QuantizeIsNearestLegal(price, szDecimals, rounding);
      if rounding == Down && r > 0.0 { assert Legal(r, szDecimals) && 0.0 < r <= price; }
      if SomeLegalBelow(price, szDecimals) && rounding == Down {
        var x: real :| Legal(x, szDecimals) && 0.0 < x <= price;
        assert x <= r;
      }
    } else {
      NothingToRound(price, Tick(price, szDecimals), rounding);
    }
  }

  /** The bounded-slippage price of an immediate order. */
  function IocLimitPrice(mark: real, isBuy: bool, szDecimals: int, slippage: real): Priced {
    if mark <= 0.0 then Unpriceable
    else RoundPrice(IocBound(mark, isBuy, slippage), szDecimals, if isBuy then Down else Up)
  }

  function IocBound(mark: real, isBuy: bool, slippage: real): real {
    Times(mark, if isBuy then 1.0 + slippage else 1.0 - slippage)
  }

  /** The cap is a ceiling the wire never exceeds: a buy's limit is the highest price the
      venue accepts that is not above, and a sell's the lowest that is not below, the mark
      moved by the cap. */
  lemma LimitNeverBeyondTheCap(mark: real, isBuy: bool, szDecimals: int, slippage: real)
    requires IocLimitPrice(mark, isBuy, szDecimals, slippage).Ok?
    ensures var r := IocLimitPrice(mark, isBuy, szDecimals, slippage).value;
            && r > 0.0
            && (isBuy ==> NearestLegal(r, Times(mark, 1.0 + slippage), szDecimals, Down))
            && (!isBuy ==> NearestLegal(r, Times(mark, 1.0 - slippage), szDecimals, Up))
  {
    RoundPriceIsNearestLegal(IocBound(mark, isBuy, slippage), szDecimals, if isBuy then Down else Up);
  }

  /** At the configured one percent every positive mark prices a sell, and prices a buy
      unless the venue accepts nothing so low. */
  lemma EveryMarkIsPriceable(mark: real, isBuy: bool, szDecimals: int)
    ensures IocLimitPrice(mark, isBuy, szDecimals, SLIPPAGE_CAP).Ok? <==>
              mark > 0.0 && (!isBuy || SomeLegalBelow(Times(mark, 1.01), szDecimals))
  {
    if mark > 0.0 {
      TimesPositive(mark, 1.01);
      TimesPositive(mark, 0.99);
      RoundPriceIsNearestLegal(IocBound(mark, isBuy, SLIPPAGE_CAP), szDecimals, if isBuy then Down else Up);
    }
  }

  // ---------------------------------------------------------------------------
  // Bracket legs
  // ---------------------------------------------------------------------------

  /** A long takes profit above entry and stops below; a short the mirror. */
  predicate Above(isLong: bool, takeProfit: bool) { takeProfit == isLong }

  function TriggerTarget(entry: real, pct: real, above: bool): real {
    var move := Over(Times(entry, pct), 100.0);
    if above then entry + move else entry - move
  }

  function TriggerPrice(entry: real, pct: real, isLong: bool, takeProfit: bool, szDecimals: int): Priced {
    if entry <= 0.0 then Unpriceable
    else
      var above := Above(isLong, takeProfit);
      RoundPrice(TriggerTarget(entry, pct, above), szDecimals, if above then Down else Up)
  }

  /** No leg is ever wider than configured: a profit taken above entry or a stop above it
      arms at the highest price the venue accepts that is not past the percentage asked, and
      a leg below entry at the lowest. */
  lemma LegNeverWider(entry: real, pct: real, isLong: bool, takeProfit: bool, szDecimals: int)
    requires TriggerPrice(entry, pct, isLong, takeProfit, szDecimals).Ok?
    ensures var move := Over(Times(entry, pct), 100.0);
            var r := TriggerPrice(entry, pct, isLong, takeProfit, szDecimals).value;
            && r > 0.0
            && (takeProfit == isLong ==> NearestLegal(r, entry + move, szDecimals, Down))
            && (takeProfit != isLong ==> NearestLegal(r, entry - move, szDecimals, Up))
  {
    var above := Above(isLong, takeProfit);
    RoundPriceIsNearestLegal(TriggerTarget(entry, pct, above), szDecimals, if above then Down else Up);
  }

  /** Some price the venue accepts lies past `entry`, on the target's side and no further
      than the target. */
  ghost predicate RoomToTrigger(entry: real, target: real, szDecimals: int) {
    exists r: real :: Legal(r, szDecimals) && if target > entry then entry < r <= target else target <= r < entry
  }

  /** Rounding toward entry is harmless exactly where there is room: a leg arms strictly on
      its own side of entry if and only if some legal price lies between. */
  lemma RightSideIffRoom(entry: real, pct: real, isLong: bool, takeProfit: bool, szDecimals: int)
    requires pct > 0.0 && TriggerPrice(entry, pct, isLong, takeProfit, szDecimals).Ok?
    ensures var above := Above(isLong, takeProfit);
            var r := TriggerPrice(entry, pct, isLong, takeProfit, szDecimals).value;
            (if above then r > entry else r < entry) <==>
                RoomToTrigger(entry, TriggerTarget(entry, pct, above), szDecimals)
  {
    var above := Above(isLong, takeProfit);
    var target := TriggerTarget(entry, pct, above);
    var r := TriggerPrice(entry, pct, isLong, takeProfit, szDecimals).value;
    TimesPositive(entry, pct);
    OverTimes(Times(entry, pct), 100.0);
    MovePositive(Over(Times(entry, pct), 100.0), Times(entry, pct));
    LegNeverWider(entry, pct, isLong, takeProfit, szDecimals);
    assert target > entry <==> above;
    if RoomToTrigger(entry, target, szDecimals) {
      var x: real :| Legal(x, szDecimals) && if target > entry then entry < x <= target else target <= x < entry;
    }
    if if above then r > entry else r < entry { assert Legal(r, szDecimals); }
  }

  lemma MovePositive(move: real, hundredfold: real)
    requires Times(move, 100.0) == hundredfold > 0.0
    ensures move > 0.0
  {
  }

  /** A check a caller can make first: a move of at least the asset's finest step and of a
      ten-thousandth of the target always leaves room. */
  lemma TickOfMoveIsRoom(entry: real, pct: real, isLong: bool, takeProfit: bool, szDecimals: int)
    requires pct > 0.0 && TriggerPrice(entry, pct, isLong, takeProfit, szDecimals).Ok?
    requires var move := Over(Times(entry, pct), 100.0);
             && Decimals(Max(6 - szDecimals, 0)).step <= move
             && TriggerTarget(entry, pct, Above(isLong, takeProfit)) <= Times(10_000.0, move)
    ensures var r := TriggerPrice(entry, pct, isLong, takeProfit, szDecimals).value;
            if Above(isLong, takeProfit) then r > entry else r < entry
  {
    var above := Above(isLong, takeProfit);
    var target, move := TriggerTarget(entry, pct, above), Over(Times(entry, pct), 100.0);
    if target <= 0.0 { NothingToRound(target, Tick(target, szDecimals), if above then Down else Up); }
    var g := Tick(target, szDecimals);
    QuantizeIsClose(target, g, if above then Down else Up);
    if g == Decimals(FigureDecimals(target)) {
      FifthFigureFits(target, g);
      TimesCommutes(10_000.0, move);
      TimesCommutes(10_000.0, g.step);
      TimesReflects(g.step, move, 10_000.0);
    }
  }

  /** And without room it arms at entry itself: at two decimals, a 10% profit on an entry
      of $0.05 is taken at $0.05. */
  lemma TakeProfitAtEntry()
    ensures TriggerPrice(0.05, 10.0, true, true, 4) == Ok(0.05)
  {
    TenPercentUp();
    assert PriceDecimals(0.055, 4) == 2;
    Hundredths();
    RoundsToFive(0.055, Decimals(2));
  }

  lemma TenPercentUp()
    ensures TriggerTarget(0.05, 10.0, true) == 0.055
  {
  }

  lemma Hundredths()
    ensures Decimals(2) == Grid(100.0, 0.01)
  {
    Tenths();
    FinerThanTenths(Decimals(1));
  }

  lemma Tenths()
    ensures Decimals(1) == Grid(10.0, 0.1)
  {
    FinerThanOne(Decimals(0));
  }

  lemma FinerThanOne(g: Grid)
    requires g == Grid(1.0, 1.0) && g.Sound()
    ensures Finer(g) == Grid(10.0, 0.1)
  {
  }

  lemma FinerThanTenths(g: Grid)
    requires g == Grid(10.0, 0.1) && g.Sound()
    ensures Finer(g) == Grid(100.0, 0.01)
  {
  }

  lemma RoundsToFive(x: real, g: Grid)
    requires x == 0.055 && g == Grid(100.0, 0.01)
    ensures Quantize(x, g, Down) == 0.05
  {
    assert Times(x, g.scale) == 5.5;
    assert Whole(5, g.step) == 0.05;
  }
}
