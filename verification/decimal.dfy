/** Decimal text as the C library produces and consumes it: `%d` and `%0Nd`
    rendering, and the `%Nd` conversion of a scanf-style reader. */
module Decimal {
  import opened Outcomes

  predicate IsDigit(ch: char) { '0' <= ch <= '9' }

  predicate AllDigits(s: string) { forall i :: 0 <= i < |s| ==> IsDigit(s[i]) }

  /** White space as C's isspace sees it in the "C" locale. */
  predicate IsSpace(ch: char) { ch == ' ' || ('\t' <= ch <= '\r') }

  function DigitChar(d: nat): (ch: char)
    requires d < 10
    ensures IsDigit(ch)
  {
    ('0' as int + d) as char
  }

  function DigitValue(ch: char): (d: nat)
    requires IsDigit(ch)
    ensures d < 10
  {
    ch as int - '0' as int
  }

  function Pow10(k: nat): (p: nat)
    ensures p >= 1
  {
    if k == 0 then 1 else 10 * Pow10(k - 1)
  }

  /** The shortest decimal rendering of `n`, as `%d` prints it. */
  function NatDigits(n: nat): (s: string)
    ensures 1 <= |s| && AllDigits(s)
    decreases n
  {
    if n < 10 then [DigitChar(n)] else NatDigits(n / 10) + [DigitChar(n % 10)]
  }

  /** The value of a run of decimal digits, most significant first. */
  function Value(s: string): nat
    requires AllDigits(s)
  {
    if |s| == 0 then 0 else 10 * Value(s[..|s| - 1]) + DigitValue(s[|s| - 1])
  }

  function Zeros(k: nat): (s: string)
    ensures |s| == k && AllDigits(s)
  {
    seq(k, _ => '0')
  }

  /** Left-pads `s` with '0' to at least `width` characters. */
  function ZeroPad(s: string, width: nat): (r: string)
    ensures |r| == if |s| < width then width else |s|
    ensures AllDigits(s) ==> AllDigits(r)
  {
    if |s| < width then Zeros(width - |s|) + s else s
  }

  /** printf's `%0<width>d`: a minus sign counts towards the width. */
  function FormatInt(n: int, width: nat): (s: string)
    ensures |s| >= width
    ensures n >= 0 ==> AllDigits(s)
  {
    if n >= 0 then ZeroPad(NatDigits(n), width)
    else "-" + ZeroPad(NatDigits(-n), if width > 0 then width - 1 else 0)
  }

  function SkipSpace(s: string): (r: string)
    ensures |r| <= |s| && r == s[|s| - |r|..]
    ensures |r| == 0 || !IsSpace(r[0])
  {
    if |s| > 0 && IsSpace(s[0]) then SkipSpace(s[1..]) else s
  }

  /** Length of the run of digits that starts `s`, cut off at `max`. */
  function DigitRun(s: string, max: nat): (k: nat)
    ensures k <= max && k <= |s| && AllDigits(s[..k])
    ensures k < max && k < |s| ==> !IsDigit(s[k])
  {
    if max == 0 || |s| == 0 || !IsDigit(s[0]) then 0
    else
      var k := 1 + DigitRun(s[1..], max - 1);
      assert s[..k] == [s[0]] + s[1..][..k - 1];
      k
  }

  /** One `%<width>d` conversion of scanf: leading white space is skipped, an
      optional sign and then at least one digit are read, and at most `width`
      characters are consumed after the white space. None when the conversion
      fails; otherwise the value and the unread rest. */
  function ScanInt(s: string, width: nat): (r: Option<(int, string)>)
    ensures r.Some? ==> |r.value.1| < |s|
  {
    var t := SkipSpace(s);
    var signed := |t| > 0 && (t[0] == '+' || t[0] == '-');
    var skip := if signed then 1 else 0;
    if width <= skip then None
    else
      var body := t[skip..];
      var k := DigitRun(body, width - skip);
      if k == 0 then None
      else
        var v: int := Value(body[..k]);
        Some((if signed && t[0] == '-' then -v else v, body[k..]))
  }

  lemma {:induction false} ValueOfNatDigits(n: nat)
    ensures Value(NatDigits(n)) == n
    decreases n
  {
    if n >= 10 {
      var s := NatDigits(n);
      assert s[..|s| - 1] == NatDigits(n / 10);
      ValueOfNatDigits(n / 10);
    }
  }

  /** Distinct numbers print differently, so generated child names never collide. */
  lemma NatDigitsInjective(a: nat, b: nat)
    ensures NatDigits(a) == NatDigits(b) ==> a == b
  {
    ValueOfNatDigits(a);
    ValueOfNatDigits(b);
  }

  lemma {:induction false} NatDigitsFit(n: nat, width: nat)
    requires 1 <= width && n < Pow10(width)
    ensures |NatDigits(n)| <= width
    decreases width
  {
    if n >= 10 {
      NatDigitsFit(n / 10, width - 1);
    }
  }

  lemma {:induction false} ValueOfZeros(k: nat)
    ensures Value(Zeros(k)) == 0
  {
    if k > 0 {
      assert Zeros(k)[..k - 1] == Zeros(k - 1);
      ValueOfZeros(k - 1);
    }
  }

  lemma {:induction false} ValueIgnoresLeadingZeros(k: nat, s: string)
    requires AllDigits(s)
    ensures Value(Zeros(k) + s) == Value(s)
    decreases |s|
  {
    var z := Zeros(k) + s;
    if |s| == 0 {
      assert z == Zeros(k);
      ValueOfZeros(k);
    } else {
      assert z[..|z| - 1] == Zeros(k) + s[..|s| - 1];
      ValueIgnoresLeadingZeros(k, s[..|s| - 1]);
    }
  }

  /** A value below 10^width prints as exactly `width` digits worth that value. */
  lemma FormatIntExact(n: nat, width: nat)
    requires 1 <= width && n < Pow10(width)
    ensures |FormatInt(n, width)| == width
    ensures AllDigits(FormatInt(n, width))
    ensures Value(FormatInt(n, width)) == n
  {
    NatDigitsFit(n, width);
    ValueOfNatDigits(n);
    var d := NatDigits(n);
    if |d| < width {
      ValueIgnoresLeadingZeros(width - |d|, d);
    }
  }

  lemma {:induction false} DigitRunOfDigits(s: string, k: nat)
    requires k <= |s| && AllDigits(s[..k])
    ensures DigitRun(s, k) == k
    decreases k
  {
    if k > 0 {
      assert IsDigit(s[..k][0]);
      assert s[1..][..k - 1] == s[..k][1..];
      DigitRunOfDigits(s[1..], k - 1);
    }
  }

  /** A field that starts with `width` digits is read as exactly those digits. */
  lemma ScanDigitPrefix(s: string, width: nat)
    requires 1 <= width <= |s| && AllDigits(s[..width])
    ensures ScanInt(s, width) == Some((Value(s[..width]), s[width..]))
  {
    assert s[0] == s[..width][0];
    assert !IsSpace(s[0]) && s[0] != '+' && s[0] != '-';
    assert SkipSpace(s) == s;
    assert s[0..] == s;
    DigitRunOfDigits(s, width);
  }

  /** `%<width>d` reads back what `%0<width>d` printed, leaving the rest unread. */
  lemma ScanFormatted(n: nat, width: nat, rest: string)
    requires 1 <= width && n < Pow10(width)
    ensures ScanInt(FormatInt(n, width) + rest, width) == Some((n, rest))
  {
    FormatIntExact(n, width);
    var f := FormatInt(n, width);
    var s := f + rest;
    assert s[..width] == f;
    assert s[width..] == rest;
    ScanDigitPrefix(s, width);
  }
}
