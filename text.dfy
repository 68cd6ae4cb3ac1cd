/** Decimal rendering as the calculator's `snprintf` calls do it: `%d`,
    `%Nd` (padded with spaces) and `%0Nd` (padded with zeros), and the
    truncation `snprintf` applies when the text does not fit its buffer.
    Reading decimal text back (`DecimalValue`) is the partner that says
    what a rendering means. */
module Text {

  /** The padding a printf conversion uses up to its field width. */
  datatype Pad = SpacePad | ZeroPad

  predicate IsDigit(c: char) {
    '0' <= c <= '9'
  }

  predicate AllDigits(s: string) {
    forall i :: 0 <= i < |s| ==> IsDigit(s[i])
  }

  function DigitChar(d: int): (c: char)
    requires 0 <= d <= 9
    ensures IsDigit(c)
  {
    ('0' as int + d) as char
  }

  function DigitValue(c: char): (d: int)
    requires IsDigit(c)
    ensures 0 <= d <= 9
  {
    c as int - '0' as int
  }

  /** The number a string of decimal digits denotes (the empty string
      denotes 0). */
  function DecimalValue(s: string): (v: nat)
    requires AllDigits(s)
  {
    if s == [] then 0 else 10 * DecimalValue(s[..|s| - 1]) + DigitValue(s[|s| - 1])
  }

  function Pow10(k: nat): (p: nat)
    ensures p >= 1
  {
    if k == 0 then 1 else 10 * Pow10(k - 1)
  }

  /** The decimal digits of `n`, most significant first, without leading
      zeros: what `%d` prints for a non-negative number. */
  function Digits(n: nat): (r: string)
    ensures 1 <= |r| && AllDigits(r)
    ensures DecimalValue(r) == n
    ensures |r| > 1 ==> r[0] != '0'
    decreases n
  {
    if n < 10 then [DigitChar(n)] else Digits(n / 10) + [DigitChar(n % 10)]
  }

  /** A number has at most `k` digits exactly when it is below 10^k. */
  lemma {:induction false} DigitsLength(n: nat, k: nat)
    requires k >= 1
    ensures |Digits(n)| <= k <==> n < Pow10(k)
    decreases k
  {
    if n < 10 {
      Pow10AtLeastTen(k);
    } else if k == 1 {
      assert |Digits(n)| == |Digits(n / 10)| + 1;
    } else {
      DigitsLength(n / 10, k - 1);
      assert |Digits(n)| == |Digits(n / 10)| + 1;
      assert Pow10(k) == 10 * Pow10(k - 1);
    }
  }

  /** `DigitsLength` for a value that may be negative: it says nothing
      about a negative one. */
  lemma DigitsFit(n: int, k: nat)
    requires k >= 1
    ensures 0 <= n ==> (|Digits(n)| <= k <==> n < Pow10(k))
  {
    if 0 <= n {
      DigitsLength(n, k);
    }
  }

  /** `%<width>d` of a number with at most `width` digits fills the width
      exactly: blanks, then the digits. */
  lemma SpacePadded(n: int, width: nat)
    requires 0 <= n && |Digits(n)| <= width
    ensures FormatInt(n, width, SpacePad) == Repeat(' ', width - |Digits(n)|) + Digits(n)
  {
  }

  /** The same for a value that may lie outside [0, 10^width): it says
      nothing about such a value. */
  lemma SpacePaddedFits(n: int, width: nat)
    requires width >= 1
    ensures 0 <= n < Pow10(width) ==>
              && |Digits(n)| <= width
              && FormatInt(n, width, SpacePad) == Repeat(' ', width - |Digits(n)|) + Digits(n)
  {
    if 0 <= n < Pow10(width) {
      DigitsLength(n, width);
      SpacePadded(n, width);
    }
  }

  lemma {:induction false} Pow10AtLeastTen(k: nat)
    requires k >= 1
    ensures Pow10(k) >= 10
  {
    if k > 1 {
      Pow10AtLeastTen(k - 1);
    }
  }

  function Repeat(c: char, n: nat): (r: string)
    ensures |r| == n && forall i :: 0 <= i < n ==> r[i] == c
  {
    seq(n, _ => c)
  }

  /** Zeros in front of a decimal number do not change its value. */
  lemma {:induction false} LeadingZeros(k: nat, s: string)
    requires AllDigits(s)
    ensures AllDigits(Repeat('0', k) + s)
    ensures DecimalValue(Repeat('0', k) + s) == DecimalValue(s)
    decreases |s|
  {
    var z := Repeat('0', k);
    if s == [] {
      assert z + s == z;
      ZerosValue(k);
    } else {
      var t := z + s;
      LeadingZeros(k, s[..|s| - 1]);
      assert t[..|t| - 1] == z + s[..|s| - 1];
      assert t[|t| - 1] == s[|s| - 1];
    }
  }

  lemma {:induction false} ZerosValue(k: nat)
    ensures DecimalValue(Repeat('0', k)) == 0
  {
    if k > 0 {
      ZerosValue(k - 1);
      assert Repeat('0', k)[..k - 1] == Repeat('0', k - 1);
    }
  }

  /** printf's `%d`, `%<width>d` (SpacePad) and `%0<width>d` (ZeroPad):
      the digits of |n|, a minus sign when n is negative, padded on the left
      up to `width` characters; zero padding goes after the sign. */
  function FormatInt(n: int, width: nat, pad: Pad): (r: string)
    ensures n >= 0 ==> |r| == (if |Digits(n)| < width then width else |Digits(n)|)
    ensures n >= 0 ==> r[|r| - |Digits(n)|..] == Digits(n)
    ensures n >= 0 && width <= |Digits(n)| ==> r == Digits(n)
    ensures n >= 0 && pad == SpacePad ==> r == Repeat(' ', |r| - |Digits(n)|) + Digits(n)
    ensures n >= 0 && pad == ZeroPad ==> AllDigits(r) && DecimalValue(r) == n
    ensures n < 0 ==> |r| >= 2 && '-' in r
  {
    if n >= 0 then
      var body := Digits(n);
      var fill := if |body| < width then width - |body| else 0;
      var c := if pad == ZeroPad then '0' else ' ';
      PadLeft(c, fill, body);
      LeadingZeros(fill, body);
      Repeat(c, fill) + body
    else
      var body := Digits(-n);
      var fill := if 1 + |body| < width then width - (1 + |body|) else 0;
      if pad == ZeroPad then
        assert ("-" + Repeat('0', fill) + body)[0] == '-';
        "-" + Repeat('0', fill) + body
      else
        assert (Repeat(' ', fill) + "-" + body)[fill] == '-';
        Repeat(' ', fill) + "-" + body
  }

  /** `%d` of a non-negative number is its digits. */
  lemma FormatPlain(n: int)
    ensures n >= 0 ==> FormatInt(n, 0, SpacePad) == Digits(n)
  {
  }

  /** `%02d` of a number in [0,99] is two digits that read back as it. */
  lemma FormatTwoDigits(n: int)
    ensures 0 <= n <= 99 ==>
              var c := FormatInt(n, 2, ZeroPad); |c| == 2 && AllDigits(c) && DecimalValue(c) == n
  {
    if 0 <= n <= 99 {
      DigitsLength(n, 2);
    }
  }

  /** `fill` copies of `c` in front of `body`: the text ends in `body`, and
      is `body` itself when there is nothing to fill. */
  lemma PadLeft(c: char, fill: nat, body: string)
    ensures var s := Repeat(c, fill) + body;
      && |s| == fill + |body| && s[fill..] == body && (fill == 0 ==> s == body)
  {
    var s := Repeat(c, fill) + body;
    assert s[fill..] == body;
    if fill == 0 {
      assert s == body;
    }
  }

  /** What `snprintf(buffer, size, ...)` leaves in a buffer of `size` bytes:
      the formatted text, cut to `size - 1` characters to leave room for the
      terminating NUL. */
  function Snprintf(s: string, size: nat): (r: string)
    requires size >= 1
    ensures |r| < size
    ensures r <= s
    ensures |s| < size <==> r == s
  {
    if |s| < size then s else s[..size - 1]
  }
}
