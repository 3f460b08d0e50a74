/**
 * Decimal numerals as the Go standard library writes and reads them: `%d` in
 * fmt, the zero-padded fields of time.Format, and strconv.ParseInt(s, 10, 64).
 */
module Decimal {
  import opened GoTypes

  const Zero: byte := 0x30
  const Plus: byte := 0x2B
  const Minus: byte := 0x2D

  predicate IsDigit(b: byte) {
    0x30 <= b <= 0x39
  }

  predicate AllDigits(s: GoString) {
    forall i :: 0 <= i < |s| ==> IsDigit(s[i])
  }

  /** The number a string of decimal digits denotes, most significant digit first. */
  function Value(s: GoString): nat
    requires AllDigits(s)
    decreases |s|
  {
    if |s| == 0 then 0 else Value(s[..|s| - 1]) * 10 + (s[|s| - 1] as int - 0x30)
  }

  /** The shortest decimal numeral of `n`: what `%d` prints for a non-negative int. */
  function Digits(n: nat): (r: GoString)
    ensures 0 < |r| && AllDigits(r)
    ensures |r| > 1 ==> r[0] != Zero
    decreases n
  {
    if n < 10 then [0x30 + n] else Digits(n / 10) + [0x30 + n % 10]
  }

  /** `%d` of any integer: a minus sign before the digits of a negative one. */
  function FormatInt(x: int): (r: GoString)
    ensures 0 < |r|
  {
    if x < 0 then [Minus] + Digits(-x) else Digits(x)
  }

  /** `k` zero digits. */
  function Zeros(k: nat): (r: GoString)
    ensures |r| == k && AllDigits(r)
  {
    seq(k, _ => Zero)
  }

  /**
   * `n` written with at least `w` digits, zero-padded on the left: the "02"
   * (two digits) and "2006" (four digits) fields of a time.Format layout.
   */
  function Pad(n: nat, w: nat): (r: GoString)
    ensures AllDigits(r)
    ensures |r| == if w > |Digits(n)| then w else |Digits(n)|
  {
    Zeros(if w > |Digits(n)| then w - |Digits(n)| else 0) + Digits(n)
  }

  /**
   * strconv.ParseInt(s, 10, 64): an optional sign, then one or more decimal
   * digits (no underscores, no spaces), whose value must lie in the int64 range.
   * Only success or failure is modelled, not which error Go reports.
   */
  function ParseInt64(s: GoString): (r: Option<int64>)
  {
    if |s| == 0 then None
    else
      var body := if s[0] == Plus || s[0] == Minus then s[1..] else s;
      if |body| == 0 || !AllDigits(body) then None
      else
        var v: int := Value(body);
        if s[0] == Minus then
          if v <= 0x8000_0000_0000_0000 then Some(-v) else None
        else
          if v <= MaxInt64 then Some(v) else None
  }

  /** Reading back the shortest numeral of `n` gives `n`. */
  lemma {:induction false} ValueOfDigits(n: nat)
    ensures Value(Digits(n)) == n
  {
    if n >= 10 {
      var d := Digits(n);
      assert d[..|d| - 1] == Digits(n / 10);
      ValueOfDigits(n / 10);
    }
  }

  /** Leading zeros do not change the value of a numeral. */
  lemma {:induction false} ValueIgnoresZeros(k: nat, s: GoString)
    requires AllDigits(s)
    ensures Value(Zeros(k) + s) == Value(s)
    decreases |s|, k
  {
    if |s| == 0 {
      assert Zeros(k) + s == Zeros(k);
      if k > 0 {
        assert Zeros(k)[..k - 1] == Zeros(k - 1) + [];
        ValueIgnoresZeros(k - 1, []);
      }
    } else {
      var t := Zeros(k) + s;
      assert t[..|t| - 1] == Zeros(k) + s[..|s| - 1];
      ValueIgnoresZeros(k, s[..|s| - 1]);
    }
  }

  /** A zero-padded field reads back as the number it was written from. */
  lemma PadValue(n: nat, w: nat)
    ensures Value(Pad(n, w)) == n
  {
    ValueIgnoresZeros(if w > |Digits(n)| then w - |Digits(n)| else 0, Digits(n));
    ValueOfDigits(n);
  }

  function Pow10(w: nat): (p: nat)
    ensures p >= 1
  {
    if w == 0 then 1 else 10 * Pow10(w - 1)
  }

  /** A number below 10^w has a shortest numeral of at most `w` digits. */
  lemma {:induction false} DigitsFit(n: nat, w: nat)
    requires 1 <= w && n < Pow10(w)
    ensures |Digits(n)| <= w
  {
    if n >= 10 {
      DigitsFit(n / 10, w - 1);
    }
  }

  /** A field width the number fits in is the exact width of its padded form. */
  lemma PadExact(n: nat, w: nat)
    requires 1 <= w && n < Pow10(w)
    ensures |Pad(n, w)| == w
  {
    DigitsFit(n, w);
  }

  /** ParseInt64 reads back every int64 that `%d` prints. */
  lemma ParseFormat(x: int64)
    ensures ParseInt64(FormatInt(x)) == Some(x)
  {
    if x < 0 {
      var n: nat := -(x as int);
      ValueOfDigits(n);
      assert ([Minus] + Digits(n))[1..] == Digits(n);
    } else {
      ValueOfDigits(x);
    }
  }

  /** An explicit plus sign and leading zeros are accepted, as strconv.ParseInt accepts them. */
  lemma ParsePlusZeros(k: nat, n: nat)
    requires n <= MaxInt64
    ensures ParseInt64([Plus] + Zeros(k) + Digits(n)) == Some(n)
  {
    var s := [Plus] + Zeros(k) + Digits(n);
    assert s[1..] == Zeros(k) + Digits(n);
    ValueIgnoresZeros(k, Digits(n));
    ValueOfDigits(n);
  }

  /** The int64 range is enforced: one past either end is rejected. */
  lemma ParseRejectsOutOfRange()
    ensures ParseInt64(Digits(MaxInt64 + 1)) == None
    ensures ParseInt64([Minus] + Digits(-MinInt64 + 1)) == None
  {
    ValueOfDigits(MaxInt64 + 1);
    ValueOfDigits(-MinInt64 + 1);
    assert ([Minus] + Digits(-MinInt64 + 1))[1..] == Digits(-MinInt64 + 1);
  }
}
