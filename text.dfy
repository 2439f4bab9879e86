/**
 * The pieces of Python's string handling that the catalog logic relies on:
 * str.strip(), str.lower() (as far as ASCII unit names are concerned), int() of
 * a decimal string, str.split('-')[k] and the zero-padded format `{n:0Wd}`.
 */
module Text {
  import opened Wrappers

  predicate IsDigit(c: char) { '0' <= c <= '9' }

  predicate AllDigits(s: string) { forall i :: 0 <= i < |s| ==> IsDigit(s[i]) }

  function DigitChar(d: nat): (c: char)
    requires d < 10
    ensures IsDigit(c) && c as int - '0' as int == d
  {
    ('0' as int + d) as char
  }

  /** Decimal value of a string of ASCII digits (leading zeros allowed). */
  function DigitsValue(s: string): nat
    requires AllDigits(s)
    decreases |s|
  {
    if s == [] then 0 else 10 * DigitsValue(s[..|s| - 1]) + (s[|s| - 1] as int - '0' as int)
  }

  /** The shortest decimal representation of n, as `str(n)` gives it. */
  function NatToDigits(n: nat): (s: string)
    ensures |s| >= 1 && AllDigits(s)
    ensures DigitsValue(s) == n
    ensures |s| > 1 ==> s[0] != '0'
  {
    if n < 10 then [DigitChar(n)]
    else
      var s := NatToDigits(n / 10) + [DigitChar(n % 10)];
      assert s[..|s| - 1] == NatToDigits(n / 10);
      s
  }

  function Zeros(k: nat): (z: string)
    ensures |z| == k && AllDigits(z)
  {
    seq(k, _ => '0')
  }

  lemma {:induction false} LeadingZerosDoNotCount(k: nat, s: string)
    requires AllDigits(s)
    ensures AllDigits(Zeros(k) + s) && DigitsValue(Zeros(k) + s) == DigitsValue(s)
    decreases |s|
  {
    var z := Zeros(k) + s;
    if s == [] {
      assert z == Zeros(k);
      ZerosValue(k);
    } else {
      var init := s[..|s| - 1];
      assert z[..|z| - 1] == Zeros(k) + init;
      LeadingZerosDoNotCount(k, init);
    }
  }

  lemma {:induction false} ZerosValue(k: nat)
    ensures DigitsValue(Zeros(k)) == 0
  {
    if k > 0 {
      assert Zeros(k)[..k - 1] == Zeros(k - 1);
      ZerosValue(k - 1);
    }
  }

  /** Python's `f"{n:0{width}d}"` for a non-negative n: left-padded with '0' up to width. */
  function ZeroPad(n: nat, width: nat): (r: string)
    ensures AllDigits(r) && DigitsValue(r) == n
    ensures |r| >= width && |r| >= 1
    ensures |NatToDigits(n)| <= width ==> |r| == width
  {
    var d := NatToDigits(n);
    if |d| < width then
      LeadingZerosDoNotCount(width - |d|, d);
      Zeros(width - |d|) + d
    else d
  }

  /** Two paddings to the same width are equal exactly when the numbers are. */
  lemma ZeroPadInjective(m: nat, n: nat, width: nat)
    requires ZeroPad(m, width) == ZeroPad(n, width)
    ensures m == n
  {
  }

  // ---------------------------------------------------------------- strip / lower

  /** The characters for which Python's str.isspace() holds (str.strip() and int() remove them). */
  predicate IsPySpace(c: char) {
    var x := c as int;
    (9 <= x <= 13) || (28 <= x <= 32) || x == 0x85 || x == 0xA0 || x == 0x1680
    || (0x2000 <= x <= 0x200A) || x == 0x2028 || x == 0x2029 || x == 0x202F
    || x == 0x205F || x == 0x3000
  }

  function LStrip(s: string): string {
    if s != [] && IsPySpace(s[0]) then LStrip(s[1..]) else s
  }

  function RStrip(s: string): string {
    if s != [] && IsPySpace(s[|s| - 1]) then RStrip(s[..|s| - 1]) else s
  }

  /** Python's str.strip() with no argument. */
  function Strip(s: string): string { RStrip(LStrip(s)) }

  /** A text that neither starts nor ends with whitespace is left alone by strip(). */
  lemma StripUnpadded(s: string)
    requires s != [] ==> !IsPySpace(s[0]) && !IsPySpace(s[|s| - 1])
    ensures Strip(s) == s
  {
    assert LStrip(s) == s;
  }

  /**
   * Python's str.lower() as far as it can produce an ASCII letter: 'A'..'Z' and
   * U+212A KELVIN SIGN lower to ASCII; every other character is left alone, which
   * differs from Python only on characters whose lower case is not ASCII.
   */
  function LowerChar(c: char): char {
    if 'A' <= c <= 'Z' then (c as int + 32) as char
    else if c as int == 0x212A then 'k'
    else c
  }

  function Lower(s: string): (r: string)
    ensures |r| == |s| && forall i :: 0 <= i < |s| ==> r[i] == LowerChar(s[i])
  {
    seq(|s|, i requires 0 <= i < |s| => LowerChar(s[i]))
  }

  /** A text of lower-case ASCII letters is left alone by lower(). */
  lemma LowerOfLowercase(s: string)
    requires forall i :: 0 <= i < |s| ==> 'a' <= s[i] <= 'z'
    ensures Lower(s) == s
  {
  }

  // ---------------------------------------------------------------- int()

  /** Digit groups separated by single underscores, as int() accepts them. */
  predicate DigitGroups(b: string) {
    && |b| > 0 && IsDigit(b[0]) && IsDigit(b[|b| - 1])
    && (forall i :: 0 <= i < |b| ==> IsDigit(b[i]) || b[i] == '_')
    && (forall i :: 0 <= i < |b| - 1 ==> !(b[i] == '_' && b[i + 1] == '_'))
  }

  function DropUnderscores(b: string): (r: string)
    requires forall i :: 0 <= i < |b| ==> IsDigit(b[i]) || b[i] == '_'
    ensures AllDigits(r)
  {
    if b == [] then [] else (if b[0] == '_' then [] else [b[0]]) + DropUnderscores(b[1..])
  }

  lemma {:induction false} DropUnderscoresOfDigits(b: string)
    requires AllDigits(b)
    ensures DropUnderscores(b) == b
  {
    if b != [] {
      DropUnderscoresOfDigits(b[1..]);
    }
  }

  /**
   * Python's int() on a text without a '-' sign: surrounding whitespace, an
   * optional '+', then ASCII digit groups. None where int() raises ValueError.
   */
  function PyInt(s: string): Option<nat> {
    var t := Strip(s);
    var body := if |t| > 0 && t[0] == '+' then t[1..] else t;
    if DigitGroups(body) then Some(DigitsValue(DropUnderscores(body))) else None
  }

  /** int() reads back what the zero-padded format writes. */
  lemma PyIntOfPadded(n: nat, width: nat)
    ensures PyInt(ZeroPad(n, width)) == Some(n)
  {
    var d := ZeroPad(n, width);
    assert IsDigit(d[0]) && IsDigit(d[|d| - 1]);
    StripUnpadded(d);
    assert d[0] != '+';
    assert DigitGroups(d);
    DropUnderscoresOfDigits(d);
  }

  // ---------------------------------------------------------------- split('-')

  /** The text before the first '-' (all of s when there is none). */
  function BeforeDash(s: string): (r: string)
    ensures '-' !in s ==> r == s
  {
    if s == [] || s[0] == '-' then [] else [s[0]] + BeforeDash(s[1..])
  }

  /** The text after the first '-'. */
  function AfterDash(s: string): string
    requires '-' in s
  {
    if s[0] == '-' then s[1..] else AfterDash(s[1..])
  }

  /** `s.split('-')[k]`, or None where Python raises IndexError. */
  function Field(s: string, k: nat): Option<string>
    decreases k
  {
    if k == 0 then Some(BeforeDash(s))
    else if '-' in s then Field(AfterDash(s), k - 1)
    else None
  }

  lemma {:induction false} AfterDashSkipsDashFree(x: string, y: string)
    requires '-' !in x
    ensures '-' in x + "-" + y && AfterDash(x + "-" + y) == y
  {
    var s := x + "-" + y;
    assert s[|x|] == '-';
    if x != [] {
      assert s[1..] == x[1..] + "-" + y;
      AfterDashSkipsDashFree(x[1..], y);
    }
  }
}
