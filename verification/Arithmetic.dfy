/** Partial sums, and facts about products and quotients, one at a time. */
module Arithmetic {

  /** Mass of the first `n` bins; the CDF at price `k` is `Mass(p, k + 1)`. */
  function Mass(p: seq<real>, n: nat): real
    requires n <= |p|
  {
    if n == 0 then 0.0 else Mass(p, n - 1) + p[n - 1]
  }

  // ---------- products of reals ----------

  function Times(a: real, b: real): real {
    a * b
  }

  lemma TimesUnits(a: real)
    ensures Times(0.0, a) == Times(a, 0.0) == 0.0
    ensures Times(1.0, a) == Times(a, 1.0) == a
  {
  }

  lemma TimesCommutes(a: real, b: real)
    ensures Times(a, b) == Times(b, a)
  {
  }

  lemma TimesAdds(a: real, b: real, c: real)
    ensures Times(a + b, c) == Times(a, c) + Times(b, c)
    ensures Times(c, a + b) == Times(c, a) + Times(c, b)
  {
  }

  lemma TimesSign(a: real, b: real)
    ensures a >= 0.0 && b >= 0.0 ==> Times(a, b) >= 0.0
    ensures a > 0.0 && b > 0.0 ==> Times(a, b) > 0.0
    ensures a <= 0.0 <= b ==> Times(a, b) <= 0.0 && Times(b, a) <= 0.0
    ensures a < 0.0 < b ==> Times(a, b) < 0.0 && Times(b, a) < 0.0
  {
  }

  lemma TimesGrows(a: real, b: real, c: real)
    requires a <= b && c >= 0.0
    ensures Times(a, c) <= Times(b, c) && Times(c, a) <= Times(c, b)
  {
    hide Times;
    TimesAdds(a, b - a, c);
    TimesSign(b - a, c);
    TimesSign(c, b - a);
  }

  lemma TimesAssociate(a: real, b: real, c: real)
    ensures Times(Times(a, b), c) == Times(a, Times(b, c))
  {
  }

  lemma TimesCompare(a: real, b: real, c: real)
    requires c > 0.0
    ensures Times(a, c) < Times(b, c) <==> a < b
  {
    hide Times;
    TimesAdds(a, b - a, c);
    TimesSign(b - a, c);
    TimesUnits(c);
    assert a + (b - a) == b;
  }

  // ---------- quotients of reals ----------

  function Over(a: real, w: real): real
    requires w != 0.0
  {
    a / w
  }

  lemma OverTimes(a: real, w: real)
    requires w != 0.0
    ensures Times(Over(a, w), w) == a
  {
  }

  lemma OverIsUnique(x: real, a: real, w: real)
    requires w != 0.0 && Times(x, w) == a
    ensures x == Over(a, w)
  {
  }

  lemma OverUnits(w: real)
    requires w != 0.0
    ensures Over(0.0, w) == 0.0 && Over(w, w) == 1.0
  {
    hide Over, Times;
    TimesUnits(w);
    OverIsUnique(0.0, 0.0, w);
    OverIsUnique(1.0, w, w);
  }

  lemma OverAdds(a: real, b: real, w: real)
    requires w != 0.0
    ensures Over(a + b, w) == Over(a, w) + Over(b, w)
  {
    hide Over, Times;
    OverTimes(a, w);
    OverTimes(b, w);
    TimesAdds(Over(a, w), Over(b, w), w);
    OverIsUnique(Over(a, w) + Over(b, w), a + b, w);
  }

  lemma OverSign(a: real, w: real)
    requires w > 0.0
    ensures a > 0.0 ==> Over(a, w) > 0.0
    ensures a == 0.0 <==> Over(a, w) == 0.0
    ensures a < 0.0 ==> Over(a, w) < 0.0
  {
    hide Over, Times;
    OverTimes(a, w);
    OverUnits(w);
    TimesSign(-Over(a, w), w);
    TimesSign(Over(a, w), w);
    TimesUnits(w);
  }

  lemma OverCompares(a: real, b: real, w: real)
    requires w > 0.0
    ensures Over(a, w) < Over(b, w) <==> a < b
    ensures Over(a, w) == Over(b, w) <==> a == b
  {
    hide Over;
    OverAdds(a, b - a, w);
    OverSign(b - a, w);
    assert a + (b - a) == b;
  }

  // ---------- quotients of integers ----------

  lemma MultipleIsFar(d: int, n: int)
    requires n > 0
    ensures d >= 1 ==> d * n >= n
    ensures d <= -1 ==> d * n <= -n
  {
  }

  lemma DivisionIsUnique(a: int, n: int, q: int, r: int)
    requires n > 0 && 0 <= r < n && a == q * n + r
    ensures a / n == q && a % n == r
  {
    var d := a / n - q;
    assert d * n == r - a % n;
    MultipleIsFar(d, n);
  }
}
