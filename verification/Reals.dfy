// Products and quotients of reals, with their laws one at a time.
module Reals {

  function Times(a: real, b: real): real { a * b }

  function Over(a: real, b: real): real
    requires b != 0.0
  {
    a / b
  }

  lemma TimesLe(a: real, b: real, c: real)
    requires a <= b && c >= 0.0
    ensures Times(a, c) <= Times(b, c)
  {
  }

  lemma TimesLt(a: real, b: real, c: real)
    requires a < b && c > 0.0
    ensures Times(a, c) < Times(b, c)
  {
  }

  /** Multiplying by a positive number keeps order both ways. */
  lemma TimesOrders(a: real, b: real, c: real)
    requires c > 0.0
    ensures a <= b <==> Times(a, c) <= Times(b, c)
    ensures a < b <==> Times(a, c) < Times(b, c)
  {
    if a < b {
      TimesLt(a, b, c);
    } else if b < a {
      TimesLt(b, a, c);
    }
  }

  lemma TimesCommutes(a: real, b: real)
    ensures Times(a, b) == Times(b, a)
  {
  }

  lemma TimesAssociates(a: real, b: real, c: real)
    ensures Times(Times(a, b), c) == Times(a, Times(b, c)) == Times(b, Times(a, c))
  {
    assert a * b * c == a * (b * c) == b * (a * c);
  }

  lemma TimesAdds(a: real, b: real, c: real)
    ensures Times(a + b, c) == Times(a, c) + Times(b, c)
    ensures Times(a - b, c) == Times(a, c) - Times(b, c)
  {
  }

  lemma TimesNegates(a: real, c: real)
    ensures Times(-a, c) == -Times(a, c)
  {
  }

  lemma TimesPositive(a: real, b: real)
    requires a > 0.0 && b > 0.0
    ensures Times(a, b) > 0.0
  {
  }

  lemma TimesOne(a: real)
    ensures Times(a, 1.0) == Times(1.0, a) == a && Times(a, 0.0) == Times(0.0, a) == 0.0
  {
  }

  lemma OverTimes(a: real, b: real)
    requires b != 0.0
    ensures Times(Over(a, b), b) == a
  {
  }
}
