/** The part of JavaScript's number semantics that the users page relies on: decimal
    rendering by a template literal and `parseInt` of a search-parameter value. */
module JsNumber {

  /** A number as the page sees it: an integer, or `NaN` when `parseInt` finds no digits. */
  datatype Num = Int(i: int) | NaN

  predicate IsDigit(c: char) { '0' <= c <= '9' }

  function DigitChar(d: nat): (c: char)
    requires d < 10
    ensures IsDigit(c)
  {
    ('0' as int + d) as char
  }

  function DigitValue(c: char): nat
    requires IsDigit(c)
  {
    (c as int - '0' as int)
  }

  /** Decimal digits of `n`, most significant first, without leading zeros. */
  function Digits(n: nat): (ds: string)
    ensures |ds| > 0 && AllDigits(ds)
    decreases n
  {
    if n < 10 then [DigitChar(n)] else Digits(n / 10) + [DigitChar(n % 10)]
  }

  /** The value of a string of decimal digits. */
  predicate AllDigits(ds: string) { forall i :: 0 <= i < |ds| ==> IsDigit(ds[i]) }

  function DigitsValue(ds: string): nat
    requires AllDigits(ds)
  {
    if |ds| == 0 then 0 else DigitsValue(ds[..|ds| - 1]) * 10 + DigitValue(ds[|ds| - 1])
  }

  /** `${x}`: an integer in decimal with a leading '-' when negative; NaN as "NaN". */
  function Render(x: Num): (r: string)
    ensures |r| > 0
    ensures x.Int? && x.i >= 0 ==> AllDigits(r)
    ensures x.Int? && x.i < 0 ==> r[0] == '-' && AllDigits(r[1..])
  {
    match x
    case NaN => "NaN"
    case Int(i) => if i < 0 then "-" + Digits(-i) else Digits(i)
  }

  /** The white space that `parseInt` skips before the number: tab, vertical tab, form
      feed, the byte-order mark, the line terminators and every space separator (Unicode
      category Zs). */
  predicate IsBlank(c: char)
  {
    c in {'\t', '\n', '\U{000B}', '\U{000C}', '\r', '\U{FEFF}', '\U{2028}', '\U{2029}'}
    || c in {' ', '\U{00A0}', '\U{1680}', '\U{202F}', '\U{205F}', '\U{3000}'}
    || '\U{2000}' <= c <= '\U{200A}'
  }

  function SkipBlanks(s: string): (r: string)
    ensures |r| == 0 || !IsBlank(r[0])
  {
    if |s| > 0 && IsBlank(s[0]) then SkipBlanks(s[1..]) else s
  }

  /** Skipping blanks keeps a digit-free string digit-free. */
  lemma {:induction false} SkipBlanksNoDigits(s: string)
    ensures (forall i :: 0 <= i < |s| ==> !IsDigit(s[i])) ==>
      forall i :: 0 <= i < |SkipBlanks(s)| ==> !IsDigit(SkipBlanks(s)[i])
  {
    if |s| > 0 && IsBlank(s[0]) {
      assert forall i :: 0 <= i < |s[1..]| ==> s[1..][i] == s[i + 1];
      SkipBlanksNoDigits(s[1..]);
    }
  }

  /** Length of the run of decimal digits that starts `s`. */
  function DigitPrefixLen(s: string): (n: nat)
    ensures n <= |s|
    ensures forall i :: 0 <= i < n ==> IsDigit(s[i])
  {
    if |s| > 0 && IsDigit(s[0]) then 1 + DigitPrefixLen(s[1..]) else 0
  }

  /** `parseInt(s)` in base ten: blanks skipped, an optional sign, then the longest run of
      decimal digits; NaN when that run is empty. */
  function ParseInt(s: string): (r: Num)
    ensures (forall i :: 0 <= i < |s| ==> !IsDigit(s[i])) ==> r == NaN
  {
    SkipBlanksNoDigits(s);
    var t := SkipBlanks(s);
    var negative := |t| > 0 && t[0] == '-';
    var body := if |t| > 0 && (t[0] == '-' || t[0] == '+') then t[1..] else t;
    var n := DigitPrefixLen(body);
    if n == 0 then NaN
    else
      var v: int := DigitsValue(body[..n]);
      Int(if negative then -v else v)
  }

  lemma {:induction false} DigitsValueOfDigits(n: nat)
    ensures DigitsValue(Digits(n)) == n
    decreases n
  {
    if n >= 10 {
      DigitsValueOfDigits(n / 10);
      var d := Digits(n);
      assert d[..|d| - 1] == Digits(n / 10);
    }
  }

  lemma {:induction false} DigitPrefixAll(s: string)
    requires AllDigits(s)
    ensures DigitPrefixLen(s) == |s|
  {
    if |s| > 0 {
      DigitPrefixAll(s[1..]);
    }
  }

  /** `parseInt` of a run of digits is its value. */
  lemma ParseDigits(d: string)
    requires |d| > 0 && AllDigits(d)
    ensures ParseInt(d) == Int(DigitsValue(d))
  {
    DigitPrefixAll(d);
    assert d[..|d|] == d;
    assert SkipBlanks(d) == d by {
      assert !IsBlank(d[0]);
    }
  }

  /** `parseInt` of '-' and a run of digits is the negated value. */
  lemma ParseNegatedDigits(d: string)
    requires |d| > 0 && AllDigits(d)
    ensures ParseInt("-" + d) == Int(-(DigitsValue(d) as int))
  {
    DigitPrefixAll(d);
    assert d[..|d|] == d;
    var m := "-" + d;
    assert SkipBlanks(m) == m by {
      assert !IsBlank(m[0]);
    }
    assert m[0] == '-' && m[1..] == d;
  }

  /** "NaN" has no digits, so `parseInt` gives NaN back. */
  lemma ParseNaN()
    ensures ParseInt("NaN") == NaN
  {
    assert !IsBlank('N') && !IsDigit('N');
  }

  /** A non-negative integer renders as its digits and parses back. */
  lemma ParseRenderNonNegative(n: nat)
    ensures ParseInt(Render(Int(n))) == Int(n)
  {
    var d := Digits(n);
    assert Render(Int(n)) == d;
    DigitsValueOfDigits(n);
    ParseDigits(d);
  }

  /** A negative integer renders as '-' and the digits of its magnitude, and parses back. */
  lemma ParseRenderNegative(i: int)
    requires i < 0
    ensures ParseInt(Render(Int(i))) == Int(i)
  {
    var n: nat := -i;
    var d := Digits(n);
    assert Render(Int(i)) == "-" + d;
    DigitsValueOfDigits(n);
    ParseNegatedDigits(d);
    assert -(DigitsValue(d) as int) == i;
  }

  /** Reading back what was rendered gives the same number: `parseInt(`${x}`) == x`
      (with NaN standing for itself, as "NaN" parses to NaN). */
  lemma ParseRender(x: Num)
    ensures ParseInt(Render(x)) == x
  {
    match x
    case NaN => ParseNaN();
    case Int(i) =>
      if i < 0 {
        ParseRenderNegative(i);
      } else {
        ParseRenderNonNegative(i);
      }
  }
}
