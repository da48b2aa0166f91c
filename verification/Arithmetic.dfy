/** The few facts of products and quotients the other modules need. */
module Arithmetic {

  lemma MultipleHasNoRemainder(k: int, step: int)
    requires step > 0
    ensures (k * step) % step == 0
  {
    var r := (k * step) % step;
    var q := (k * step) / step;
    assert (k - q) * step == r;
    ProductBounds(k - q, step);
  }

  lemma ProductBounds(k: int, step: int)
    requires step > 0
    ensures k >= 1 ==> k * step >= step
    ensures k <= -1 ==> k * step <= -step
  {
  }

  lemma DivAscends(a: int, b: int, m: int)
    requires m > 0 && a <= b
    ensures a / m <= b / m
  {
    assert a == a / m * m + a % m && b == b / m * m + b % m;
    if a / m > b / m {
      TimesAscends(b / m + 1, a / m, m);
    }
  }

  lemma TimesAscends(a: int, b: int, m: int)
    requires m >= 0 && a <= b
    ensures a * m <= b * m
  {
  }

  lemma DivUnique(a: int, m: int, q: int, r: int)
    requires m > 0 && a == q * m + r && 0 <= r < m
    ensures a / m == q
  {
    assert a == a / m * m + a % m;
    if a / m < q {
      TimesAscends(a / m + 1, q, m);
    } else if a / m > q {
      TimesAscends(q + 1, a / m, m);
    }
  }
}
