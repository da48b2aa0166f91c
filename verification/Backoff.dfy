/** Retry delays (`backoff` in internal/usecases/notify/webhook_dispatcher/usecase.go) in the 64-bit arithmetic of
    time.Duration, under the configuration bounds of internal/usecases/notify/webhook_dispatcher/config.go. */
module Backoff {
  import opened Query
  import opened Arithmetic

  const TWO_63: int := 0x8000_0000_0000_0000
  const TWO_64: int := 0x1_0000_0000_0000_0000

  /** Two's-complement wrap-around of an int64 product. */
  function Wrap64(n: int): int {
    (n + TWO_63) % TWO_64 - TWO_63
  }

  function Pow2(n: nat): (p: int)
    ensures p >= 1
  {
    if n == 0 then 1 else 2 * Pow2(n - 1)
  }

  datatype Config = Config(base: int, max: int, batch: int, concurrency: int, maxAttempts: int, retention: int,
      timeout: int)

  /** What LoadConfig accepts, durations being int64 nanoseconds. */
  predicate Accepted(c: Config) {
    && 0 < c.base <= c.max < TWO_63
    && c.batch > 0 && c.concurrency > 0 && c.maxAttempts > 0 && c.retention > 0
  }

  /** The delay the doubling is meant to give. */
  function Ideal(c: Config, attempt: int): int
    requires attempt >= 1
  {
    Min(c.max, Pow2(attempt - 1) * c.base)
  }

  function Delay(c: Config, attempt: int): int {
    var a := if attempt < 1 then 1 else attempt;
    if a > 40 then c.max
    else
      var d := Wrap64(Pow2(a - 1) * c.base);
      if d <= 0 || d > c.max then c.max else d
  }

  /** Whatever the attempt and the accepted configuration, wrap-around included, a retry is in the future and no later
      than the cap. */
  lemma DelayIsBounded(c: Config, attempt: int)
    requires Accepted(c)
    ensures 0 < Delay(c, attempt) <= c.max
  {
  }

  /** Two's complement: the one int64 that differs from the product by a multiple of 2^64. */
  lemma WrapIsIdentityIff(n: int)
    ensures Wrap64(n) == n <==> -0x8000_0000_0000_0000 <= n < 0x8000_0000_0000_0000
    ensures -0x8000_0000_0000_0000 <= Wrap64(n) < 0x8000_0000_0000_0000
    ensures (n - Wrap64(n)) % 0x1_0000_0000_0000_0000 == 0
  {
    assert n - Wrap64(n) == (n + TWO_63) / TWO_64 * TWO_64;
    MultipleHasNoRemainder((n + TWO_63) / TWO_64, TWO_64);
  }

  /** The delay of an attempt, without the 64-bit arithmetic: the doubling up to the cap while the product does no harm,
      and the cap after 40 attempts. */
  predicate Delays(c: Config, attempt: int, delay: int) {
    && 0 < delay <= c.max
    && (attempt > 40 ==> delay == c.max)
    && (1 <= attempt <= 40 && WrapsHarmlessly(c, attempt) ==> delay == Min(c.max, Pow2(attempt - 1) * c.base))
  }

  lemma DelayDelays(c: Config, attempt: int)
    requires Accepted(c)
    ensures Delays(c, attempt, Delay(c, attempt))
  {
    DelayIsBounded(c, attempt);
    if 1 <= attempt <= 40 {
      DelayIsIdealIff(c, attempt);
    }
  }

  lemma ProductAtLeast(c: Config, attempt: int)
    requires Accepted(c) && attempt >= 1
    ensures Pow2(attempt - 1) * c.base >= c.base
  {
    assert (Pow2(attempt - 1) - 1) * c.base >= 0;
  }

  /** The delay is the intended one if and only if, in the first 40 attempts, the product does not wrap around or wraps
      to a value the guard catches; and later, if the doubling has reached the cap. */
  lemma DelayIsIdealIff(c: Config, attempt: int)
    requires Accepted(c) && attempt >= 1
    ensures var product := Pow2(attempt - 1) * c.base;
            Delay(c, attempt) == Ideal(c, attempt)
            <==> if attempt <= 40 then WrapsHarmlessly(c, attempt) else product >= c.max
  {
    var product := Pow2(attempt - 1) * c.base;
    ProductAtLeast(c, attempt);
    WrapIsIdentityIff(product);
  }

  lemma {:induction false} Pow2Ascends(m: nat, n: nat)
    requires m <= n
    ensures Pow2(m) <= Pow2(n)
  {
    if m < n {
      Pow2Ascends(m, n - 1);
    }
  }

  /** The product of this attempt stays an int64, or wraps around to a value the guard replaces by the cap. */
  predicate WrapsHarmlessly(c: Config, attempt: int)
    requires attempt >= 1
  {
    var product := Pow2(attempt - 1) * c.base;
    product < TWO_63 || Wrap64(product) <= 0 || Wrap64(product) >= c.max
  }

  /** Up to a harmless attempt the delay has not decreased. */
  lemma HarmlessDoesNotFall(c: Config, a: int, b: int)
    requires Accepted(c) && 1 <= a <= b && (a <= 40 ==> WrapsHarmlessly(c, a)) && (b <= 40 ==> WrapsHarmlessly(c, b))
    ensures Delay(c, a) <= Delay(c, b)
  {
    DelayIsBounded(c, a);
    if b <= 40 {
      Pow2Ascends(a - 1, b - 1);
      TimesAscends(Pow2(a - 1), Pow2(b - 1), c.base);
      DelayIsIdealIff(c, a);
      DelayIsIdealIff(c, b);
      hide Delay, Pow2, Wrap64;
    }
  }

  /** The first harmful attempt comes after one that was delayed by the cap already, and is delayed by less. */
  lemma {:induction false} FirstHarmFalls(c: Config, attempt: int) returns (a: int)
    requires Accepted(c) && 1 <= attempt <= 40 && !WrapsHarmlessly(c, attempt)
    ensures 2 <= a <= attempt && Delay(c, a) < Delay(c, a - 1) == c.max
  {
    assert attempt > 1 by {
      assert Pow2(0) * c.base == c.base;
    }
    var before, product := Pow2(attempt - 2) * c.base, Pow2(attempt - 1) * c.base;
    assert product == 2 * before by {
      assert Pow2(attempt - 1) == 2 * Pow2(attempt - 2);
    }
    hide Pow2;
    if WrapsHarmlessly(c, attempt - 1) {
      assert before >= TWO_63;
      DelayIsIdealIff(c, attempt - 1);
      a := attempt;
    } else {
      a := FirstHarmFalls(c, attempt - 1);
    }
  }

  /** Over the attempts an event can reach, the delay never decreases if and only if no product wraps around to a
      positive value below the cap; past attempt 40 nothing can go wrong any more. */
  lemma DelayNeverDecreasesIff(c: Config, attempts: int)
    requires Accepted(c)
    ensures (forall a, b :: 1 <= a <= b <= attempts ==> Delay(c, a) <= Delay(c, b))
            <==> (forall a :: 1 <= a <= Min(attempts, 40) ==> WrapsHarmlessly(c, a))
  {
    hide Accepted, Delay, WrapsHarmlessly;
    if forall a :: 1 <= a <= Min(attempts, 40) ==> WrapsHarmlessly(c, a) {
      forall a, b | 1 <= a <= b <= attempts ensures Delay(c, a) <= Delay(c, b) {
        HarmlessDoesNotFall(c, a, b);
      }
    } else {
      var h :| 1 <= h <= Min(attempts, 40) && !WrapsHarmlessly(c, h);
      var a := FirstHarmFalls(c, h);
      assert 1 <= a - 1 <= a <= attempts;
    }
  }

  /** In particular not as long as the product stays below 2^63. */
  lemma DelayNeverDecreases(c: Config, a: int, b: int)
    requires Accepted(c) && 1 <= a <= b <= 40 && Pow2(b - 1) * c.base < TWO_63
    ensures Delay(c, a) <= Delay(c, b)
  {
    hide Delay, Pow2, Wrap64;
    Pow2Ascends(a - 1, b - 1);
    TimesAscends(Pow2(a - 1), Pow2(b - 1), c.base);
    HarmlessDoesNotFall(c, a, b);
  }

  /** And it does happen: a base of 2^61 + 1 ns wraps to 8 ns on the fourth attempt. */
  lemma WrapAroundShortensTheDelay()
    ensures exists c: Config :: Accepted(c) && Delay(c, 4) < Delay(c, 1)
  {
    var c := Config(0x2000_0000_0000_0001, 0x4000_0000_0000_0000, 50, 4, 10, 1, 1);
    assert Pow2(3) == 8 && Pow2(2) == 4 && Pow2(1) == 2 && Pow2(0) == 1;
    assert Delay(c, 4) == 8 && Delay(c, 1) == c.base;
    assert Accepted(c);
  }

  /** The default settings: 10 s doubling up to an hour, ten attempts. */
  const DEFAULTS: Config := Config(10_000_000_000, 3_600_000_000_000, 50, 4, 10, 604_800_000_000_000, 10_000_000_000)

  /** With the defaults every attempt an event can reach is delayed by the intended time. */
  lemma DefaultsAreIdeal(attempt: int)
    requires 1 <= attempt <= DEFAULTS.maxAttempts
    ensures Accepted(DEFAULTS) && Delay(DEFAULTS, attempt) == Ideal(DEFAULTS, attempt)
    ensures Ideal(DEFAULTS, attempt) == Min(3_600_000_000_000, Pow2(attempt - 1) * 10_000_000_000)
    ensures DEFAULTS.maxAttempts == 10
  {
    Pow2Ascends(attempt - 1, 9);
    assert Pow2(9) == 512 by {
      assert Pow2(8) == 256 && Pow2(7) == 128 && Pow2(6) == 64 && Pow2(5) == 32 && Pow2(4) == 16 && Pow2(3) == 8;
    }
    assert Pow2(attempt - 1) * DEFAULTS.base <= 512 * DEFAULTS.base;
    DelayIsIdealIff(DEFAULTS, attempt);
  }
}
