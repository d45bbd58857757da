/** Character-level helpers shared by the formatters, the error-message
    extraction and the URL builder: decimal digits, zero-padded rendering of
    naturals (the `%02d` / `%04d` fields of `strftime`), reading digits back,
    Python's substring test `p in s`, and Python's `str.strip()`. */
module Text {

  predicate IsDigit(c: char) { '0' <= c <= '9' }

  predicate AllDigits(s: string) { forall i :: 0 <= i < |s| ==> IsDigit(s[i]) }

  function DigitValue(c: char): (n: nat)
    requires IsDigit(c)
    ensures n < 10
  {
    c as int - '0' as int
  }

  function DigitChar(n: nat): (c: char)
    requires n < 10
    ensures IsDigit(c) && DigitValue(c) == n
  {
    (n + '0' as int) as char
  }

  function Pow10(k: nat): (p: nat)
    ensures p >= 1
  {
    if k == 0 then 1 else 10 * Pow10(k - 1)
  }

  /** k zero characters. */
  function Zeros(k: nat): (z: string)
    ensures |z| == k && forall i :: 0 <= i < k ==> z[i] == '0'
  {
    seq(k, _ => '0')
  }

  /** The value of a string of decimal digits, most significant first. */
  function ParseDigits(s: string): nat
    requires AllDigits(s)
  {
    if s == [] then 0 else ParseDigits(s[..|s| - 1]) * 10 + DigitValue(s[|s| - 1])
  }

  lemma {:induction false} ParseDigitsZeros(k: nat)
    ensures ParseDigits(Zeros(k)) == 0
  {
    if k > 0 {
      assert Zeros(k)[..k - 1] == Zeros(k - 1);
      ParseDigitsZeros(k - 1);
    }
  }

  lemma ParseDigitsSnoc(s: string, c: char)
    requires AllDigits(s) && IsDigit(c)
    ensures AllDigits(s + [c]) && ParseDigits(s + [c]) == ParseDigits(s) * 10 + DigitValue(c)
  {
    assert (s + [c])[..|s|] == s;
  }

  /** The decimal rendering of n, left-padded with zeros to at least w
      characters: what `%0wd` (and so `%d`, `%m`, `%Y`, `%H`, `%M`) writes. */
  function Pad(n: nat, w: nat): (r: string)
    ensures AllDigits(r) && ParseDigits(r) == n
    ensures 1 <= |r| && w <= |r|
    ensures 1 <= w && n < Pow10(w) ==> |r| == w
    decreases n
  {
    var w' := if w > 0 then w - 1 else 0;
    if n < 10 then
      ParseDigitsZeros(w');
      ParseDigitsSnoc(Zeros(w'), DigitChar(n));
      Zeros(w') + [DigitChar(n)]
    else
      var r := Pad(n / 10, w');
      ParseDigitsSnoc(r, DigitChar(n % 10));
      r + [DigitChar(n % 10)]
  }

  /** Plain decimal rendering of a natural, as `str(n)` writes it. */
  function Decimal(n: nat): (r: string)
    ensures AllDigits(r) && ParseDigits(r) == n && |r| >= 1
  {
    Pad(n, 1)
  }

  /** `str(i)` for a Python int: a minus sign before the digits of a negative value. */
  function IntToString(i: int): (r: string)
    ensures |r| >= 1
    ensures i >= 0 ==> AllDigits(r) && ParseDigits(r) == i
    ensures i < 0 ==> r[0] == '-' && AllDigits(r[1..]) && ParseDigits(r[1..]) == -i
  {
    if i < 0 then "-" + Decimal(-i) else Decimal(i)
  }

  lemma {:induction false} ParseDigitsBound(s: string)
    requires AllDigits(s)
    ensures ParseDigits(s) < Pow10(|s|)
  {
    if s != [] {
      ParseDigitsBound(s[..|s| - 1]);
    }
  }

  lemma {:induction false} ParseDigitsZeroIsZeros(s: string)
    requires AllDigits(s) && ParseDigits(s) == 0
    ensures s == Zeros(|s|)
  {
    if s != [] {
      var init := s[..|s| - 1];
      assert ParseDigits(init) == 0 && DigitValue(s[|s| - 1]) == 0;
      ParseDigitsZeroIsZeros(init);
      forall i | 0 <= i < |s| ensures s[i] == '0' {
        if i < |s| - 1 { assert s[i] == init[i]; }
      }
    }
  }

  /** Reading a non-empty digit string and padding the value back to the
      same width gives the string back: a fixed-width digit field is exactly
      the zero-padded rendering of its value. */
  lemma {:induction false} PadOfParse(s: string)
    requires AllDigits(s) && |s| >= 1
    ensures Pad(ParseDigits(s), |s|) == s
  {
    var n := ParseDigits(s);
    var init, last := s[..|s| - 1], s[|s| - 1];
    assert s == init + [last];
    if n < 10 {
      assert ParseDigits(init) == 0;
      ParseDigitsZeroIsZeros(init);
      assert DigitValue(last) == n;
    } else {
      assert init != [];
      assert n / 10 == ParseDigits(init) && n % 10 == DigitValue(last);
      PadOfParse(init);
    }
  }

  /** Python's substring test `p in s`. */
  predicate Contains(s: string, p: string) {
    exists i | 0 <= i <= |s| :: OccursAt(s, p, i)
  }

  /** p occurs in s starting at index i. */
  predicate OccursAt(s: string, p: string, i: int) {
    0 <= i && i + |p| <= |s| && s[i..i + |p|] == p
  }

  /** The characters for which Python's `str.isspace()` holds. */
  predicate IsSpace(c: char) {
    c in {' ', '\t', '\n', '\r', '\U{0B}', '\U{0C}', '\U{1C}', '\U{1D}', '\U{1E}', '\U{1F}',
          '\U{85}', '\U{A0}', '\U{1680}', '\U{2000}', '\U{2001}', '\U{2002}', '\U{2003}',
          '\U{2004}', '\U{2005}', '\U{2006}', '\U{2007}', '\U{2008}', '\U{2009}', '\U{200A}',
          '\U{2028}', '\U{2029}', '\U{202F}', '\U{205F}', '\U{3000}'}
  }

  /** The length of the run of whitespace that starts s. */
  function LeadingSpace(s: string): (k: nat)
    ensures k <= |s|
    ensures forall i :: 0 <= i < k ==> IsSpace(s[i])
    ensures k < |s| ==> !IsSpace(s[k])
  {
    if s == [] || !IsSpace(s[0]) then 0 else 1 + LeadingSpace(s[1..])
  }

  /** The length of the run of whitespace that ends s. */
  function TrailingSpace(s: string): (k: nat)
    ensures k <= |s|
    ensures forall i :: |s| - k <= i < |s| ==> IsSpace(s[i])
    ensures k < |s| ==> !IsSpace(s[|s| - 1 - k])
  {
    if s == [] || !IsSpace(s[|s| - 1]) then 0 else 1 + TrailingSpace(s[..|s| - 1])
  }

  /** Python's `str.strip()` with no argument: s without its leading and
      trailing whitespace. */
  function Strip(s: string): (r: string)
    ensures r == [] || (!IsSpace(r[0]) && !IsSpace(r[|r| - 1]))
    ensures exists i :: OccursAt(s, r, i)
                        && (forall k :: 0 <= k < i ==> IsSpace(s[k]))
                        && (forall k :: i + |r| <= k < |s| ==> IsSpace(s[k]))
  {
    var a := LeadingSpace(s);
    var t := s[a..];
    var b := TrailingSpace(t);
    var r := t[..|t| - b];
    assert OccursAt(s, r, a);
    r
  }
}
