/** Decimal strings and smallest units (pkg/cryptoamount/cryptoamount.go). */
module CryptoAmount {
  import opened Query

  const MAX_DECIMALS: int := 36
  const TWO_31: int := 0x8000_0000
  const TWO_32: int := 0x1_0000_0000

  /** The int32 conversion of a length. */
  function Int32(n: int): int {
    (n + TWO_31) % TWO_32 - TWO_31
  }

  function Pow10(n: nat): (p: int)
    ensures p >= 1
  {
    if n == 0 then 1 else 10 * Pow10(n - 1)
  }

  // ------------------------------------------------------------------ strings

  /** Unicode White_Space. */
  predicate IsSpace(c: char) {
    || '\t' <= c <= '\r' || c == ' ' || c == '\U{85}' || c == '\U{A0}' || c == '\U{1680}'
    || '\U{2000}' <= c <= '\U{200A}' || c == '\U{2028}' || c == '\U{2029}' || c == '\U{202F}' || c == '\U{205F}'
    || c == '\U{3000}'
  }

  function TrimLeft(s: string): string {
    if s != "" && IsSpace(s[0]) then TrimLeft(s[1..]) else s
  }

  function TrimRight(s: string): string {
    if s != "" && IsSpace(s[|s| - 1]) then TrimRight(s[..|s| - 1]) else s
  }

  function TrimSpace(s: string): string {
    TrimRight(TrimLeft(s))
  }

  function TrimZeros(s: string): (t: string)
    ensures t <= s
  {
    if s != "" && s[|s| - 1] == '0' then TrimZeros(s[..|s| - 1]) else s
  }

  function Repeat(c: char, n: nat): (s: string)
    ensures |s| == n && forall k | 0 <= k < n :: s[k] == c
  {
    seq(n, _ => c)
  }

  predicate IsDigit(c: char) {
    '0' <= c <= '9'
  }

  predicate IsDigits(s: string) {
    forall k | 0 <= k < |s| :: IsDigit(s[k])
  }

  /** Up to the first point, what follows it, and whether there is one. */
  function Cut(s: string): (string, string, bool) {
    if s == "" then ("", "", false)
    else if s[0] == '.' then ("", s[1..], true)
    else
      var (before, after, found) := Cut(s[1..]);
      ([s[0]] + before, after, found)
  }

  /** The number a digit string writes. */
  function Value(s: string): nat
    requires IsDigits(s)
  {
    if s == "" then 0 else Value(s[..|s| - 1]) * 10 + (s[|s| - 1] - '0') as nat
  }

  // ------------------------------------------------------------------ Parse and Format

  datatype Error = DecimalsInvalid | Empty | Negative | Malformed | TooPrecise

  datatype Result = Ok(units: int) | Err(error: Error)

  /** `big.Int.SetString` in base 10, on a string of digits. */
  function SetString(s: string): Result
    requires IsDigits(s)
  {
    if s == "" then Err(Malformed) else Ok(Value(s))
  }

  /** The fraction brought to the token's scale. */
  function Padded(fraction: string, decimals: nat): string {
    var padded := fraction + Repeat('0', decimals - Min(|fraction|, decimals));
    if Int32(|padded|) > decimals then padded[..decimals] else padded
  }

  function Parse(text: string, decimals: int): Result {
    if decimals < 0 || decimals > MAX_DECIMALS then Err(DecimalsInvalid)
    else
      var trimmed := TrimSpace(text);
      if trimmed == "" then Err(Empty)
      else if trimmed[0] == '-' then Err(Negative)
      else
        var s := if trimmed[0] == '+' then trimmed[1..] else trimmed;
        var (whole, fraction, point) := Cut(s);
        if point && '.' in fraction then Err(Malformed)
        else if whole == "" && fraction == "" then Err(Malformed)
        else if !IsDigits(whole) || !IsDigits(fraction) then Err(Malformed)
        else if Int32(|TrimZeros(fraction)|) > decimals then Err(TooPrecise)
        else SetString(whole + Padded(fraction, decimals))
  }

  function Digit(n: nat): char
    requires n < 10
  {
    '0' + n as char
  }

  /** `big.Int.String` of a natural number. */
  function Decimal(n: nat): string {
    if n < 10 then [Digit(n)] else Decimal(n / 10) + [Digit(n % 10)]
  }

  function Signed(n: int): string {
    if n < 0 then "-" + Decimal(-n) else Decimal(n)
  }

  function QuoRem(a: nat, b: int): (qr: (nat, nat))
    requires b >= 1
    ensures a == qr.0 * b + qr.1 && qr.1 < b
  {
    (a / b, a % b)
  }

  function Format(units: Option<int>, decimals: int): string {
    if units.None? then "0"
    else if decimals < 0 || decimals > MAX_DECIMALS || decimals == 0 then Signed(units.value)
    else
      var abs := if units.value < 0 then -units.value else units.value;
      var (whole, rest) := QuoRem(abs, Pow10(decimals));
      var written := Decimal(rest);
      var fraction := TrimZeros(Repeat('0', Max(0, decimals - |written|)) + written);
      var out := if fraction != "" then Decimal(whole) + "." + fraction else Decimal(whole);
      if units.value < 0 then "-" + out else out
  }

  // ------------------------------------------------------------------ what a string writes

  /** `text` is a number with these digits before and after the point, perhaps among spaces, perhaps after a plus. */
  predicate Writes(text: string, whole: string, fraction: string) {
    var s := TrimSpace(text);
    && IsDigits(whole) && IsDigits(fraction) && (whole != "" || fraction != "")
    && (Unsigned(s, whole, fraction) || (s != "" && s[0] == '+' && Unsigned(s[1..], whole, fraction)))
  }

  predicate Unsigned(s: string, whole: string, fraction: string) {
    s == whole + "." + fraction || (fraction == "" && s == whole)
  }

  lemma {:induction false} CutWhole(s: string)
    requires '.' !in s
    ensures Cut(s) == (s, "", false)
  {
    if s != "" {
      CutWhole(s[1..]);
      assert [s[0]] + s[1..] == s;
    }
  }

  lemma {:induction false} CutAtPoint(whole: string, fraction: string)
    requires '.' !in whole
    ensures Cut(whole + "." + fraction) == (whole, fraction, true)
  {
    var s := whole + "." + fraction;
    if whole == "" {
      assert s[1..] == fraction;
    } else {
      CutAtPoint(whole[1..], fraction);
      assert s[1..] == whole[1..] + "." + fraction;
      assert s[0] == whole[0] && [whole[0]] + whole[1..] == whole;
    }
  }

  lemma {:induction false} CutRejoins(s: string)
    ensures var (whole, fraction, point) := Cut(s);
            && '.' !in whole && s == (if point then whole + "." + fraction else whole)
            && (!point ==> fraction == "")
  {
    if s != "" && s[0] != '.' {
      CutRejoins(s[1..]);
      assert s == [s[0]] + s[1..];
    } else if s != "" {
      assert s == "." + s[1..];
    }
  }

  /** Cutting at the first point finds the digits a string writes, if it writes a number. */
  lemma UnsignedIffCut(s: string, whole: string, fraction: string)
    requires IsDigits(whole) && IsDigits(fraction)
    ensures Unsigned(s, whole, fraction) <==> Cut(s).0 == whole && Cut(s).1 == fraction
  {
    assert '.' !in whole;
    CutRejoins(s);
    if s == whole + "." + fraction {
      CutAtPoint(whole, fraction);
    } else if fraction == "" && s == whole {
      CutWhole(whole);
    }
  }

  // ------------------------------------------------------------------ digits

  lemma {:induction false} ValueOfJoin(a: string, b: string)
    requires IsDigits(a) && IsDigits(b)
    ensures IsDigits(a + b) && Value(a + b) == Value(a) * Pow10(|b|) + Value(b)
  {
    if b == "" {
      assert a + b == a;
    } else {
      var front, last := b[..|b| - 1], b[|b| - 1];
      ValueOfJoin(a, front);
      assert (a + b)[..|a + b| - 1] == a + front;
      assert Value(a + b) == Value(a + front) * 10 + (last - '0') as nat;
      TenTimes(Value(a), Pow10(|front|), Value(front), (last - '0') as nat);
    }
  }

  lemma TenTimes(a: int, p: int, v: int, d: int)
    ensures (a * p + v) * 10 + d == a * (10 * p) + (v * 10 + d)
  {
  }

  lemma {:induction false} ValueOfZeros(n: nat)
    ensures Value(Repeat('0', n)) == 0
  {
    if n > 0 {
      assert Repeat('0', n)[..n - 1] == Repeat('0', n - 1);
      ValueOfZeros(n - 1);
    }
  }

  lemma {:induction false} ZerosTrimmed(s: string)
    ensures s == TrimZeros(s) + Repeat('0', |s| - |TrimZeros(s)|)
  {
    if s != "" && s[|s| - 1] == '0' {
      var front := s[..|s| - 1];
      ZerosTrimmed(front);
      assert s == front + ['0'];
    }
  }

  lemma {:induction false} PowersAdd(m: nat, n: nat)
    ensures Pow10(m + n) == Pow10(m) * Pow10(n)
  {
    if m > 0 {
      PowersAdd(m - 1, n);
      Regroup(10, Pow10(m - 1), Pow10(n));
      assert Pow10(m + n) == 10 * Pow10(m - 1 + n);
    }
  }

  /** Bringing a fraction to the scale keeps the value it writes, if no digit but trailing zeros is cut. */
  lemma PaddedIsExact(whole: string, fraction: string, decimals: nat)
    requires IsDigits(whole) && IsDigits(fraction) && decimals <= MAX_DECIMALS
    requires |TrimZeros(fraction)| <= decimals && (|fraction| <= decimals || Int32(|fraction|) > decimals)
    ensures IsDigits(whole + Padded(fraction, decimals)) && |Padded(fraction, decimals)| == decimals
    ensures Value(whole + Padded(fraction, decimals)) * Pow10(|fraction|) == Value(whole + fraction) * Pow10(decimals)
  {
    var n := |fraction|;
    hide Value, Pow10, TrimZeros;
    if n <= decimals {
      PaddedIsFilled(fraction, decimals);
      assert whole + (fraction + Repeat('0', decimals - n)) == (whole + fraction) + Repeat('0', decimals - n);
      ZerosScale(whole + fraction, decimals - n, n);
    } else {
      PaddedIsCut(fraction, decimals);
      var padded := fraction[..decimals];
      assert (whole + padded) + Repeat('0', n - decimals) == whole + fraction;
      ZerosScale(whole + padded, n - decimals, decimals);
    }
  }

  lemma PaddedIsFilled(fraction: string, decimals: nat)
    requires |fraction| <= decimals <= MAX_DECIMALS
    ensures Padded(fraction, decimals) == fraction + Repeat('0', decimals - |fraction|)
  {
  }

  lemma PaddedIsCut(fraction: string, decimals: nat)
    requires |TrimZeros(fraction)| <= decimals <= |fraction| && Int32(|fraction|) > decimals
    ensures Padded(fraction, decimals) == fraction[..decimals]
    ensures fraction == fraction[..decimals] + Repeat('0', |fraction| - decimals)
  {
    hide TrimZeros;
    ZerosTrimmed(fraction);
    assert fraction + Repeat('0', 0) == fraction;
  }

  lemma ZerosScale(s: string, zeros: nat, n: nat)
    requires IsDigits(s)
    ensures IsDigits(s + Repeat('0', zeros))
    ensures Value(s + Repeat('0', zeros)) * Pow10(n) == Value(s) * Pow10(zeros + n)
  {
    hide Value, Pow10;
    ValueOfJoin(s, Repeat('0', zeros));
    ValueOfZeros(zeros);
    PowersAdd(zeros, n);
    Regroup(Value(s), Pow10(zeros), Pow10(n));
  }

  lemma Regroup(a: int, p: int, q: int)
    ensures a * p * q == a * (p * q)
  {
  }

  // ------------------------------------------------------------------ Parse is exact

  /** The digits Parse works on. */
  function Digits(text: string): (string, string) {
    var s := TrimSpace(text);
    var body := if s != "" && s[0] == '+' then s[1..] else s;
    (Cut(body).0, Cut(body).1)
  }

  lemma WritesIffDigits(text: string, whole: string, fraction: string)
    requires IsDigits(whole) && IsDigits(fraction) && (whole != "" || fraction != "")
    ensures Writes(text, whole, fraction) <==> Digits(text) == (whole, fraction)
  {
    var s := TrimSpace(text);
    hide TrimSpace, Cut, Unsigned;
    UnsignedIffCut(s, whole, fraction);
    if s != "" && s[0] == '+' {
      UnsignedIffCut(s[1..], whole, fraction);
      PlusIsNoDigit(s, whole, fraction);
    }
  }

  lemma PlusIsNoDigit(s: string, whole: string, fraction: string)
    requires IsDigits(whole) && s != "" && s[0] == '+'
    ensures !Unsigned(s, whole, fraction)
  {
    assert whole != "" ==> IsDigit(whole[0]);
  }

  /** Beyond the token's scale there are only zeros. */
  predicate FitsScale(fraction: string, decimals: nat) {
    forall k | decimals <= k < |fraction| :: fraction[k] == '0'
  }

  lemma {:induction false} FitsIffTrimmed(fraction: string, decimals: nat)
    ensures FitsScale(fraction, decimals) <==> |TrimZeros(fraction)| <= decimals
  {
    if fraction != "" && fraction[|fraction| - 1] == '0' {
      var front := fraction[..|fraction| - 1];
      FitsIffTrimmed(front, decimals);
      assert FitsScale(fraction, decimals) <==> FitsScale(front, decimals) by {
        if FitsScale(front, decimals) {
          forall k | decimals <= k < |fraction| ensures fraction[k] == '0' {
            if k < |front| {
              assert front[k] == '0';
            }
          }
        }
      }
    }
  }

  /** What Parse is for: of the strings that write a number it accepts exactly what the token can express, except a
      missing whole part when there are no decimals; the units it returns are exactly the value written,
      `units * 10^|fraction| = value(whole fraction) * 10^decimals`; and the error tells the two reasons apart. */
  predicate MeetsPromise(text: string, decimals: nat, whole: string, fraction: string)
    requires IsDigits(whole) && IsDigits(fraction)
  {
    var r := Parse(text, decimals);
    && (r.Ok? <==> FitsScale(fraction, decimals) && (decimals > 0 || whole != ""))
    && (r.Ok? ==> r.units * Pow10(|fraction|) == Value(Joined(whole, fraction)) * Pow10(decimals))
    && (r.Err? ==> r.error == if FitsScale(fraction, decimals) then Malformed else TooPrecise)
  }

  /** Its two int32 digit counts do no harm: a fraction longer than the scale is seen to be cut, or is worth nothing,
      and one that does not fit is seen not to. */
  predicate CountsRight(decimals: nat, whole: string, fraction: string)
    requires IsDigits(whole) && IsDigits(fraction)
  {
    || |fraction| <= decimals
    || if FitsScale(fraction, decimals)
       then Int32(|fraction|) > decimals || (Value(Joined(whole, fraction)) == 0 && (decimals > 0 || whole != ""))
       else Int32(|TrimZeros(fraction)|) > decimals
  }

  /** For every string that writes a number, of any length: Parse keeps its promise if and only if neither count wraps
      around to a harmful value. */
  lemma ParseIsExactIff(text: string, decimals: nat, whole: string, fraction: string)
    requires decimals <= 36 && Writes(text, whole, fraction)
    ensures MeetsPromise(text, decimals, whole, fraction) <==> CountsRight(decimals, whole, fraction)
  {
    hide Writes, MeetsPromise, Value, FitsScale, TrimZeros;
    if !FitsScale(fraction, decimals) {
      UnfitPromise(text, decimals, whole, fraction);
    } else if |fraction| <= decimals || Int32(|fraction|) > decimals {
      ScaledPromise(text, decimals, whole, fraction);
    } else {
      KeptPromise(text, decimals, whole, fraction);
    }
  }

  lemma UnfitPromise(text: string, decimals: nat, whole: string, fraction: string)
    requires decimals <= MAX_DECIMALS && Writes(text, whole, fraction) && !FitsScale(fraction, decimals)
    ensures |fraction| > decimals
    ensures MeetsPromise(text, decimals, whole, fraction) <==> Int32(|TrimZeros(fraction)|) > decimals
  {
    hide Parse, TrimZeros, Value, Pow10, Padded;
    WritesIffDigits(text, whole, fraction);
    ParseOfNumber(text, decimals, whole, fraction);
    PaddedIsKept(fraction, decimals);
  }

  lemma ScaledPromise(text: string, decimals: nat, whole: string, fraction: string)
    requires decimals <= MAX_DECIMALS && Writes(text, whole, fraction) && FitsScale(fraction, decimals)
    requires |fraction| <= decimals || Int32(|fraction|) > decimals
    ensures MeetsPromise(text, decimals, whole, fraction)
  {
    hide Parse, TrimZeros, Value, Pow10, Padded, FitsScale;
    WritesIffDigits(text, whole, fraction);
    ParseOfNumber(text, decimals, whole, fraction);
    FitsIffTrimmed(fraction, decimals);
    PaddedIsExact(whole, fraction, decimals);
    assert Joined(whole, fraction) == whole + fraction;
    hide Writes;
  }

  lemma KeptPromise(text: string, decimals: nat, whole: string, fraction: string)
    requires decimals <= MAX_DECIMALS && Writes(text, whole, fraction) && FitsScale(fraction, decimals)
    requires |fraction| > decimals && Int32(|fraction|) <= decimals
    ensures MeetsPromise(text, decimals, whole, fraction)
            <==> Value(Joined(whole, fraction)) == 0 && (decimals > 0 || whole != "")
  {
    hide Parse, TrimZeros, Value, Pow10, Padded, FitsScale;
    WritesIffDigits(text, whole, fraction);
    ParseOfNumber(text, decimals, whole, fraction);
    FitsIffTrimmed(fraction, decimals);
    PaddedIsKept(fraction, decimals);
    assert Joined(whole, fraction) == whole + fraction;
    assert Parse(text, decimals) == Ok(Value(Joined(whole, fraction)));
    SameOnlyIfZero(Value(Joined(whole, fraction)), |fraction|, decimals);
    hide Writes;
  }

  /** A fraction longer than the scale whose count wraps around is not cut. */
  lemma PaddedIsKept(fraction: string, decimals: nat)
    requires |fraction| > decimals
    ensures Int32(|fraction|) <= decimals ==> Padded(fraction, decimals) == fraction
    ensures |Padded(fraction, decimals)| >= decimals
    ensures IsDigits(fraction) ==> IsDigits(Padded(fraction, decimals))
  {
    assert fraction + Repeat('0', 0) == fraction;
  }

  lemma {:induction false} PowersGrow(m: nat, n: nat)
    requires m < n
    ensures Pow10(m) < Pow10(n)
  {
    if m + 1 < n {
      PowersGrow(m, n - 1);
    }
  }

  lemma SameOnlyIfZero(v: nat, n: nat, decimals: nat)
    requires n > decimals
    ensures v * Pow10(n) == v * Pow10(decimals) <==> v == 0
  {
    PowersGrow(decimals, n);
    hide Pow10;
    if v > 0 {
      assert v * (Pow10(n) - Pow10(decimals)) > 0;
    }
  }

  lemma ShortCountsRight(decimals: nat, whole: string, fraction: string)
    requires IsDigits(whole) && IsDigits(fraction) && |fraction| < TWO_31
    ensures CountsRight(decimals, whole, fraction)
  {
    hide FitsScale, Value, TrimZeros;
    FitsIffTrimmed(fraction, decimals);
    assert TrimZeros(fraction) <= fraction;
  }

  /** For fractions an int32 can count, unconditionally. */
  lemma ParseIsExact(text: string, decimals: int, whole: string, fraction: string)
    requires 0 <= decimals <= 36 && Writes(text, whole, fraction) && |fraction| < TWO_31
    ensures Parse(text, decimals).Ok? <==> FitsScale(fraction, decimals) && (decimals > 0 || whole != "")
    ensures Parse(text, decimals).Ok? ==>
              Parse(text, decimals).units * Pow10(|fraction|) == Value(whole + fraction) * Pow10(decimals)
    ensures Parse(text, decimals).Err? ==>
              Parse(text, decimals).error == if FitsScale(fraction, decimals) then Malformed else TooPrecise
  {
    assert Joined(whole, fraction) == whole + fraction;
    ShortCountsRight(decimals, whole, fraction);
    hide Parse, Writes, TrimZeros, Value, FitsScale, Pow10, CountsRight;
    ParseIsExactIff(text, decimals, whole, fraction);
  }

  lemma ParseOfNumber(text: string, decimals: int, whole: string, fraction: string)
    requires 0 <= decimals <= 36 && Writes(text, whole, fraction)
    requires Digits(text) == (whole, fraction)
    ensures Int32(|TrimZeros(fraction)|) > decimals ==> Parse(text, decimals) == Err(TooPrecise)
    ensures Int32(|TrimZeros(fraction)|) <= decimals && IsDigits(whole + Padded(fraction, decimals)) ==>
              Parse(text, decimals) == SetString(whole + Padded(fraction, decimals))
  {
    var s := TrimSpace(text);
    hide TrimSpace, TrimZeros, Padded, Value, Cut;
    assert s != "" && s[0] != '-' by {
      if Unsigned(s, whole, fraction) && whole != "" {
        assert IsDigit(whole[0]);
      }
    }
    assert '.' !in fraction;
  }

  /** The other errors: decimals out of range, nothing but spaces, a minus sign, and everything that writes no
      number. */
  lemma ParseRejects(text: string, decimals: int)
    ensures Parse(text, decimals) == Err(DecimalsInvalid) <==> !(0 <= decimals <= 36)
    ensures 0 <= decimals <= 36 ==>
              && (Parse(text, decimals) == Err(Empty) <==> TrimSpace(text) == "")
              && (Parse(text, decimals) == Err(Negative) <==> TrimSpace(text) != "" && TrimSpace(text)[0] == '-')
              && (Parse(text, decimals).Ok? ==> exists whole, fraction :: Writes(text, whole, fraction))
  {
    if Parse(text, decimals).Ok? {
      var (whole, fraction) := Digits(text);
      WritesIffDigits(text, whole, fraction);
    }
  }

  /** Only the value counts: two ways of writing one value, whatever leading zeros, trailing zeros, spaces or plus they
      carry, give the same units. */
  lemma SameValueSameUnits(s: string, t: string, decimals: int, ws: string, fs: string, wt: string, ft: string)
    requires Writes(s, ws, fs) && Writes(t, wt, ft) && |fs| < TWO_31 && |ft| < TWO_31
    requires Value(Joined(ws, fs)) * Pow10(|ft|) == Value(Joined(wt, ft)) * Pow10(|fs|)
    requires Parse(s, decimals).Ok? && Parse(t, decimals).Ok?
    ensures Parse(s, decimals) == Parse(t, decimals)
  {
    ParseIsExact(s, decimals, ws, fs);
    ParseIsExact(t, decimals, wt, ft);
    var u, v := Parse(s, decimals).units, Parse(t, decimals).units;
    hide Parse, Writes, Value, Pow10;
    CrossMultiply(u, v, Pow10(|fs|), Pow10(|ft|), Value(ws + fs), Value(wt + ft), Pow10(decimals));
  }

  function Joined(whole: string, fraction: string): (s: string)
    requires IsDigits(whole) && IsDigits(fraction)
    ensures IsDigits(s)
  {
    whole + fraction
  }

  lemma CrossMultiply(u: int, v: int, p: int, q: int, a: int, b: int, scale: int)
    requires p > 0 && q > 0 && u * p == a * scale && v * q == b * scale && a * q == b * p
    ensures u == v
  {
    assert u * p * q == a * scale * q == (a * q) * scale == (b * p) * scale == (b * scale) * p == v * q * p;
    assert u * (p * q) == v * (p * q);
    assert p * q > 0;
    Cancel(u, v, p * q);
  }

  lemma Cancel(u: int, v: int, m: int)
    requires m > 0 && u * m == v * m
    ensures u == v
  {
  }

  // ------------------------------------------------------------------ spaces

  /** The code points of the Unicode property White_Space. */
  const WHITE_SPACE: set<int> := {
    9, 10, 11, 12, 13, 32, 133, 160, 5760, 8192, 8193, 8194, 8195, 8196, 8197, 8198, 8199, 8200, 8201, 8202, 8232, 8233,
    8239, 8287, 12288 }

  lemma SpaceIff(c: char)
    ensures IsSpace(c) <==> c as int in WHITE_SPACE
  {
  }

  predicate AllSpace(s: string) {
    forall k | 0 <= k < |s| :: s[k] as int in WHITE_SPACE
  }

  lemma {:induction false} LeadingSpaces(l: string, s: string)
    requires AllSpace(l)
    ensures TrimLeft(l + s) == TrimLeft(s)
  {
    hide IsSpace;
    if l == "" {
      assert l + s == s;
    } else {
      SpaceIff(l[0]);
      assert (l + s)[1..] == l[1..] + s;
      LeadingSpaces(l[1..], s);
    }
  }

  lemma {:induction false} TrailingSpaces(s: string, r: string)
    requires AllSpace(r)
    ensures TrimRight(s + r) == TrimRight(s)
  {
    hide IsSpace;
    if r == "" {
      assert s + r == s;
    } else {
      SpaceIff(r[|r| - 1]);
      assert (s + r)[..|s + r| - 1] == s + r[..|r| - 1];
      TrailingSpaces(s, r[..|r| - 1]);
    }
  }

  lemma {:induction false} TrimLeftOfJoin(s: string, r: string)
    requires AllSpace(r)
    ensures TrimRight(TrimLeft(s + r)) == TrimRight(TrimLeft(s))
  {
    hide IsSpace;
    if s == "" {
      assert s + r == r + "";
      LeadingSpaces(r, "");
    } else if IsSpace(s[0]) {
      assert (s + r)[1..] == s[1..] + r;
      TrimLeftOfJoin(s[1..], r);
    } else {
      TrailingSpaces(s, r);
    }
  }

  /** Surrounding spaces never matter. */
  lemma SpacesDoNotCount(l: string, s: string, r: string, decimals: int)
    requires AllSpace(l) && AllSpace(r)
    ensures Parse(l + s + r, decimals) == Parse(s, decimals)
  {
    assert l + s + r == l + (s + r);
    LeadingSpaces(l, s + r);
    TrimLeftOfJoin(s, r);
    assert TrimSpace(l + s + r) == TrimSpace(s);
    hide TrimSpace;
  }

  lemma NothingToTrim(s: string)
    requires s != "" && !IsSpace(s[0]) && !IsSpace(s[|s| - 1])
    ensures TrimSpace(s) == s
  {
  }

  // ------------------------------------------------------------------ Format and back

  lemma {:induction false} DecimalWrites(n: nat)
    ensures Decimal(n) != "" && IsDigits(Decimal(n)) && Value(Decimal(n)) == n
    ensures Decimal(n)[0] == '0' ==> n == 0
  {
    if n >= 10 {
      DecimalWrites(n / 10);
      assert Decimal(n)[..|Decimal(n)| - 1] == Decimal(n / 10);
    } else {
      assert Decimal(n)[..0] == "";
    }
  }

  lemma {:induction false} DecimalIsShort(n: nat, k: nat)
    requires k >= 1 && n < Pow10(k)
    ensures |Decimal(n)| <= k
  {
    if n >= 10 {
      assert Pow10(k) == 10 * Pow10(k - 1);
      DecimalIsShort(n / 10, k - 1);
    }
  }

  /** The fraction Format writes: the remainder, filled up to the scale, without its trailing zeros. */
  function FractionOf(rest: nat, decimals: nat): string {
    TrimZeros(Repeat('0', Max(0, decimals - |Decimal(rest)|)) + Decimal(rest))
  }

  lemma FractionIsExact(rest: nat, decimals: nat)
    requires decimals >= 1 && rest < Pow10(decimals)
    ensures var f := FractionOf(rest, decimals);
            && |f| <= decimals && IsDigits(f) && (f != "" ==> f[|f| - 1] != '0')
            && Value(f) * Pow10(decimals - |f|) == rest
  {
    hide Value, Pow10, Decimal, TrimZeros;
    DecimalWrites(rest);
    DecimalIsShort(rest, decimals);
    var lead := Repeat('0', decimals - |Decimal(rest)|);
    var full := lead + Decimal(rest);
    ValueOfJoin(lead, Decimal(rest));
    ValueOfZeros(|lead|);
    var f := TrimZeros(full);
    ZerosTrimmed(full);
    assert IsDigits(f) by {
      assert f <= full;
    }
    ValueOfJoin(f, Repeat('0', decimals - |f|));
    ValueOfZeros(decimals - |f|);
    TrimmedEndsInNoZero(full);
  }

  lemma {:induction false} TrimmedEndsInNoZero(s: string)
    ensures TrimZeros(s) != "" ==> TrimZeros(s)[|TrimZeros(s)| - 1] != '0'
  {
    if s != "" && s[|s| - 1] == '0' {
      TrimmedEndsInNoZero(s[..|s| - 1]);
    }
  }

  /** What Format writes is canonical: a whole part without leading zeros, and a fraction, if any, within the scale and
      without trailing zeros. */
  lemma FormatWrites(units: nat, decimals: nat) returns (whole: string, fraction: string)
    requires decimals <= 36
    ensures Format(Some(units), decimals) == if fraction != "" then whole + "." + fraction else whole
    ensures whole != "" && IsDigits(whole) && IsDigits(fraction)
    ensures whole[0] == '0' ==> whole == "0"
    ensures |fraction| <= decimals && (fraction != "" ==> fraction[|fraction| - 1] != '0')
    ensures Value(whole + fraction) * Pow10(decimals - |fraction|) == units
  {
    hide Value, Pow10, Decimal, TrimZeros;
    if decimals == 0 {
      whole, fraction := Decimal(units), "";
      DecimalWrites(units);
      assert whole + fraction == whole;
      PowerOfZero();
      DecimalOfZero();
    } else {
      var (w, rest) := QuoRem(units, Pow10(decimals));
      whole, fraction := Decimal(w), FractionOf(rest, decimals);
      DecimalWrites(w);
      DecimalOfZero();
      FractionIsExact(rest, decimals);
      ValueOfJoin(whole, fraction);
      var gap := decimals - |fraction|;
      PowersAdd(|fraction|, gap);
      Recombine(w, Pow10(|fraction|), Pow10(gap), Value(fraction));
    }
  }

  /** Without an amount `Format` writes a zero; on a scale it does not support, the smallest units themselves. */
  lemma FormatWithoutScale(units: int, decimals: int)
    requires decimals < 0 || decimals > 36
    ensures Format(None, decimals) == "0"
    ensures units >= 0 ==>
              IsDigits(Format(Some(units), decimals)) && Value(Format(Some(units), decimals)) == units
    ensures units < 0 ==> Format(Some(units), decimals) == "-" + Format(Some(-units), decimals)
  {
    if units >= 0 {
      DecimalWrites(units);
    }
  }

  lemma DecimalOfZero()
    ensures Decimal(0) == "0"
  {
  }

  lemma PowerOfZero()
    ensures Pow10(0) == 1
  {
  }

  lemma Recombine(w: int, p: int, q: int, v: int)
    ensures (w * p + v) * q == w * (p * q) + v * q
  {
  }

  lemma FormatIsNumber(units: nat, decimals: nat, whole: string, fraction: string)
    requires whole != "" && IsDigits(whole) && IsDigits(fraction)
    ensures Writes(if fraction != "" then whole + "." + fraction else whole, whole, fraction)
  {
    var s := if fraction != "" then whole + "." + fraction else whole;
    assert IsDigit(s[0]) && IsDigit(s[|s| - 1]) by {
      assert s[0] == whole[0];
      assert s[|s| - 1] == if fraction != "" then fraction[|fraction| - 1] else whole[|whole| - 1];
    }
    NothingToTrim(s);
  }

  /** What Format writes, Parse reads back: for every amount and every scale. */
  lemma FormatRoundTrips(units: nat, decimals: int)
    requires 0 <= decimals <= 36
    ensures Parse(Format(Some(units), decimals), decimals) == Ok(units)
  {
    hide Parse, Format, Value, Pow10, TrimZeros, Writes;
    var whole, fraction := FormatWrites(units, decimals);
    FormatIsNumber(units, decimals, whole, fraction);
    var text := Format(Some(units), decimals);
    ParseIsExact(text, decimals, whole, fraction);
    var gap := decimals - |fraction|;
    PowersAdd(gap, |fraction|);
    Regroup(Value(whole + fraction), Pow10(gap), Pow10(|fraction|));
    Cancel(Parse(text, decimals).units, units, Pow10(|fraction|));
  }

  /** A negative amount is written with a sign, and refused. */
  lemma NegativeIsRefused(units: int, decimals: int)
    requires units < 0 && 0 <= decimals <= 36
    ensures Format(Some(units), decimals) == "-" + Format(Some(-units), decimals)
    ensures Parse(Format(Some(units), decimals), decimals) == Err(Negative)
  {
    hide Value, Pow10, TrimZeros, Decimal;
    var positive := Format(Some(-units), decimals);
    var whole, fraction := FormatWrites(-units, decimals);
    var text := "-" + positive;
    assert Format(Some(units), decimals) == text;
    assert !IsSpace(text[|text| - 1]) by {
      assert text[|text| - 1] == positive[|positive| - 1];
      assert IsDigit(positive[|positive| - 1]) by {
        assert positive[|positive| - 1] == if fraction != "" then fraction[|fraction| - 1] else whole[|whole| - 1];
      }
    }
    NothingToTrim(text);
    hide Format;
  }

  lemma OnesDoNotFit(n: nat)
    requires n > 0
    ensures !FitsScale(Repeat('1', n), 0) && TrimZeros(Repeat('1', n)) == Repeat('1', n) && IsDigits(Repeat('1', n))
  {
    assert Repeat('1', n)[0] != '0';
  }

  lemma WrappedCountIsAccepted(fraction: string)
    requires |fraction| == TWO_31
    ensures Padded(fraction, 0) == fraction && Int32(|fraction|) < 0
  {
    assert fraction + Repeat('0', 0) == fraction;
  }

  /** The bound on the length is needed: an int32 cannot count 2^31 significant digits, so a fraction that long is not
      refused as too precise. */
  lemma LongFractionsAreNotRefused()
    ensures exists text, whole, fraction ::
              Writes(text, whole, fraction) && !FitsScale(fraction, 0) && Parse(text, 0).Ok?
  {
    hide TrimSpace, TrimZeros, Cut, Value, FitsScale, Padded, Int32;
    var fraction := Repeat('1', TWO_31);
    var text := "." + fraction;
    OnesDoNotFit(TWO_31);
    WrappedCountIsAccepted(fraction);
    assert text == "" + "." + fraction;
    assert !IsSpace(text[|text| - 1]) by {
      assert text[|text| - 1] == fraction[TWO_31 - 1];
    }
    NothingToTrim(text);
    CutAtPoint("", fraction);
    assert Writes(text, "", fraction);
    assert "" + fraction == fraction;
  }
}
