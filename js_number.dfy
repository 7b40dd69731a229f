/** The JavaScript built-ins the page script relies on, restated over
    unbounded integers: `parseInt(s, 10)`, `Math.floor` of a quotient,
    `Math.round` of a quotient, `Math.max`, `Math.min` and the `%` operator.
    A JavaScript `NaN` is modelled as `None`. */
module JsNumber {
  import opened Wrappers

  function Max(a: int, b: int): (r: int)
    ensures r >= a && r >= b && (r == a || r == b)
  {
    if a >= b then a else b
  }

  function Min(a: int, b: int): (r: int)
    ensures r <= a && r <= b && (r == a || r == b)
  {
    if a <= b then a else b
  }

  /** `Math.floor(p / q)`: the quotient rounded toward minus infinity. Dafny's
      own `/` is Euclidean, which differs from it when `q` is negative. */
  function FloorDiv(p: int, q: int): (r: int)
    requires q != 0
    ensures q > 0 ==> q * r <= p < q * r + q
    ensures q < 0 ==> q * r >= p > q * r + q
  {
    if q > 0 then p / q else (-p) / (-q)
  }

  /** `Math.round(a / b)`: the nearest integer, halves rounded up (toward plus
      infinity), computed as `floor((2a + b) / 2b)`. */
  function Round(a: int, b: int): (r: int)
    requires b != 0
    ensures b > 0 ==> 2 * b * r - b <= 2 * a < 2 * b * r + b
    ensures b < 0 ==> 2 * b * r - b >= 2 * a > 2 * b * r + b
  {
    FloorDiv(2 * a + b, 2 * b)
  }

  /** JavaScript's `a % n`: the remainder of the quotient truncated toward
      zero, so it takes the sign of `a`. */
  function Rem(a: int, n: int): (r: int)
    requires n > 0
    ensures a >= 0 ==> 0 <= r < n
    ensures a < 0 ==> -n < r <= 0
    ensures a >= 0 ==> r == a % n
  {
    if a >= 0 then a % n else -((-a) % n)
  }

  /** `StrWhiteSpaceChar` of ECMAScript: the white space and line terminators
      `parseInt` skips before the number. */
  predicate IsStrWhiteSpace(c: char) {
    c == '\t' || c == '\n' || c == '\U{B}' || c == '\U{C}' || c == '\r' || c == ' '
    || c == '\U{A0}' || c == '\U{1680}' || ('\U{2000}' <= c <= '\U{200A}')
    || c == '\U{2028}' || c == '\U{2029}' || c == '\U{202F}' || c == '\U{205F}'
    || c == '\U{3000}' || c == '\U{FEFF}'
  }

  predicate IsDigit(c: char) {
    '0' <= c <= '9'
  }

  predicate AllDigits(d: string) {
    forall i :: 0 <= i < |d| ==> IsDigit(d[i])
  }

  function DigitValue(c: char): (v: nat)
    requires IsDigit(c)
    ensures v < 10
  {
    c as int - '0' as int
  }

  function DigitChar(v: nat): (c: char)
    requires v < 10
    ensures IsDigit(c) && DigitValue(c) == v
  {
    ('0' as int + v) as char
  }

  /** The number a run of decimal digits denotes (most significant first). */
  function DigitsValue(d: string): nat
    requires AllDigits(d)
  {
    if |d| == 0 then 0 else DigitsValue(d[..|d| - 1]) * 10 + DigitValue(d[|d| - 1])
  }

  /** The shortest decimal numeral of `n`, as CSS serialises a length. */
  function Decimal(n: nat): (d: string)
    ensures |d| >= 1 && AllDigits(d)
    ensures DigitsValue(d) == n
  {
    if n < 10 then [DigitChar(n)]
    else
      var prefix := Decimal(n / 10);
      var d := prefix + [DigitChar(n % 10)];
      assert d[..|d| - 1] == prefix;
      d
  }

  /** What is left of `s` once the leading white space is skipped. */
  function SkipWhiteSpace(s: string): (r: string)
    ensures |r| <= |s| && r == s[|s| - |r|..]
    ensures forall i :: 0 <= i < |s| - |r| ==> IsStrWhiteSpace(s[i])
    ensures r == [] || !IsStrWhiteSpace(r[0])
  {
    if |s| > 0 && IsStrWhiteSpace(s[0]) then SkipWhiteSpace(s[1..]) else s
  }

  /** The length of the run of decimal digits `s` starts with. */
  function DigitRun(s: string): (k: nat)
    ensures k <= |s| && AllDigits(s[..k])
    ensures k < |s| ==> !IsDigit(s[k])
  {
    if |s| > 0 && IsDigit(s[0]) then
      var k := 1 + DigitRun(s[1..]);
      assert forall i :: 1 <= i < k ==> s[..k][i] == s[1..][..k - 1][i - 1];
      k
    else 0
  }

  /** `parseInt(s, 10)`: skip leading white space, read an optional sign, then
      the longest run of decimal digits; `None` (NaN) when there is no digit. */
  function ParseInt(s: string): (r: Option<int>)
    ensures r.Some? ==> exists i :: 0 <= i < |s| && IsDigit(s[i])
  {
    var t := SkipWhiteSpace(s);
    var r := ParseSigned(t);
    assert r.Some? ==> IsDigit(s[|s| - |t| + SignLength(t)]);
    r
  }

  /** 1 when `t` starts with a sign character, 0 otherwise. */
  function SignLength(t: string): (k: nat)
    ensures k <= |t|
  {
    if |t| > 0 && (t[0] == '-' || t[0] == '+') then 1 else 0
  }

  /** The optional sign and the digit run, once white space is skipped. */
  function ParseSigned(t: string): (r: Option<int>)
    ensures r.Some? ==> SignLength(t) < |t| && IsDigit(t[SignLength(t)])
  {
    var body := t[SignLength(t)..];
    var k := DigitRun(body);
    if k == 0 then None
    else
      var v: int := DigitsValue(body[..k]);
      Some(if SignLength(t) == 1 && t[0] == '-' then -v else v)
  }

  lemma {:induction false} SkipLeadingWhiteSpace(lead: string, rest: string)
    requires forall i :: 0 <= i < |lead| ==> IsStrWhiteSpace(lead[i])
    requires rest == [] || !IsStrWhiteSpace(rest[0])
    ensures SkipWhiteSpace(lead + rest) == rest
  {
    if |lead| > 0 {
      assert (lead + rest)[1..] == lead[1..] + rest;
      SkipLeadingWhiteSpace(lead[1..], rest);
    } else {
      assert lead + rest == rest;
    }
  }

  lemma DigitRunOfNumeral(d: string, rest: string)
    requires |d| >= 1 && AllDigits(d)
    requires rest == [] || !IsDigit(rest[0])
    ensures DigitRun(d + rest) == |d| && (d + rest)[..|d|] == d
  {
    assert (d + rest)[..|d|] == d;
    if |rest| > 0 {
      assert (d + rest)[|d|] == rest[0];
    }
  }

  /** `parseInt` reads back every decimal numeral, whatever white space comes
      before it and whatever non-digit text (a unit such as `px`) follows. */
  lemma ParseIntOfNumeral(lead: string, n: nat, unit: string)
    requires forall i :: 0 <= i < |lead| ==> IsStrWhiteSpace(lead[i])
    requires unit == [] || !IsDigit(unit[0])
    ensures ParseInt(lead + Decimal(n) + unit) == Some(n)
  {
    var d := Decimal(n);
    assert !IsStrWhiteSpace(d[0]);
    assert lead + d + unit == lead + (d + unit);
    SkipLeadingWhiteSpace(lead, d + unit);
    UnsignedNumeral(d, unit);
  }

  /** The instance of `ParseIntOfNumeral` with nothing before the numeral,
      the shape of a computed CSS length such as `16px`. */
  lemma ParseIntOfBareNumeral(n: nat, unit: string)
    requires unit == [] || !IsDigit(unit[0])
    ensures ParseInt(Decimal(n) + unit).Some?
    ensures ParseInt(Decimal(n) + unit).value == n
  {
    var d := Decimal(n);
    assert !IsStrWhiteSpace(d[0]);
    SkipLeadingWhiteSpace([], d + unit);
    assert [] + (d + unit) == d + unit;
    UnsignedNumeral(d, unit);
  }

  lemma UnsignedNumeral(d: string, unit: string)
    requires |d| >= 1 && AllDigits(d)
    requires unit == [] || !IsDigit(unit[0])
    ensures ParseSigned(d + unit) == Some(DigitsValue(d))
  {
    assert (d + unit)[0] == d[0];
    assert SignLength(d + unit) == 0;
    assert (d + unit)[0..] == d + unit;
    DigitRunOfNumeral(d, unit);
  }

  /** The same for a negative numeral: the minus sign is read as the sign. */
  lemma ParseIntOfNegativeNumeral(lead: string, n: nat, unit: string)
    requires forall i :: 0 <= i < |lead| ==> IsStrWhiteSpace(lead[i])
    requires unit == [] || !IsDigit(unit[0])
    ensures ParseInt(lead + "-" + Decimal(n) + unit).Some?
    ensures ParseInt(lead + "-" + Decimal(n) + unit).value == 0 - n
  {
    var d := Decimal(n);
    var t := ['-'] + (d + unit);
    assert lead + "-" + d + unit == lead + t;
    SkipLeadingWhiteSpace(lead, t);
    NegativeNumeral(d, unit);
  }

  lemma NegativeNumeral(d: string, unit: string)
    requires |d| >= 1 && AllDigits(d)
    requires unit == [] || !IsDigit(unit[0])
    ensures ParseSigned(['-'] + (d + unit)).Some?
    ensures ParseSigned(['-'] + (d + unit)).value == 0 - DigitsValue(d)
  {
    var t := ['-'] + (d + unit);
    assert t[0] == '-' && SignLength(t) == 1;
    var body := t[SignLength(t)..];
    assert body == d + unit;
    DigitRunOfNumeral(d, unit);
    assert body[..DigitRun(body)] == d;
  }
}
