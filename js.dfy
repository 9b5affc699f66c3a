/** The JavaScript value semantics the back end relies on: `undefined`, and
    the conversion `Number(string)` that turns a backend error message into
    an HTTP status code, together with the `code || 500` fallback. */
module Js {

  /** A value that may be JavaScript's `undefined`. */
  datatype Option<+T> = None | Some(value: T)

  /** A JavaScript number, as far as the handlers use one: an integer or NaN. */
  datatype JsNumber = Num(value: int) | NaN

  predicate IsSpace(c: char) {
    c == ' ' || c == '\t' || c == '\n' || c == '\r'
  }

  predicate IsDigit(c: char) {
    '0' <= c <= '9'
  }

  predicate AllDigits(s: string) {
    forall i :: 0 <= i < |s| ==> IsDigit(s[i])
  }

  predicate AllSpace(s: string) {
    forall i :: 0 <= i < |s| ==> IsSpace(s[i])
  }

  /** `s` without its leading white space. */
  function TrimStart(s: string): (r: string)
    ensures |r| <= |s| && r == s[|s| - |r|..]
    ensures r == [] || !IsSpace(r[0])
    ensures forall i :: 0 <= i < |s| - |r| ==> IsSpace(s[i])
  {
    if s != [] && IsSpace(s[0]) then
      var r := TrimStart(s[1..]);
      assert forall i :: 1 <= i < |s| ==> s[1..][i - 1] == s[i];
      r
    else s
  }

  /** `s` without its trailing white space. */
  function TrimEnd(s: string): (r: string)
    ensures |r| <= |s| && r == s[..|r|]
    ensures r == [] || !IsSpace(r[|r| - 1])
    ensures forall i :: |r| <= i < |s| ==> IsSpace(s[i])
  {
    if s != [] && IsSpace(s[|s| - 1]) then
      var r := TrimEnd(s[..|s| - 1]);
      assert forall i :: 0 <= i < |s| - 1 ==> s[..|s| - 1][i] == s[i];
      r
    else s
  }

  function Trim(s: string): string {
    TrimEnd(TrimStart(s))
  }

  /** A string with no white space at either end is its own trim. */
  lemma TrimUnpadded(s: string)
    requires s != [] && !IsSpace(s[0]) && !IsSpace(s[|s| - 1])
    ensures Trim(s) == s
  {
  }

  /** The value of a string of decimal digits, most significant first. */
  function DigitsValue(s: string): nat
    requires AllDigits(s)
  {
    if s == [] then 0 else DigitsValue(s[..|s| - 1]) * 10 + (s[|s| - 1] as int - '0' as int)
  }

  function DigitChar(d: nat): (c: char)
    requires d < 10
    ensures IsDigit(c) && c as int - '0' as int == d
  {
    ('0' as int + d) as char
  }

  /** The decimal notation of `n`, as `String(n)` writes it. */
  function Decimal(n: nat): (s: string)
    ensures s != [] && AllDigits(s)
  {
    if n < 10 then [DigitChar(n)] else Decimal(n / 10) + [DigitChar(n % 10)]
  }

  /** What trimming keeps: nothing of a blank string, all of a string of
      digits, and a first character taken from `s`. */
  lemma TrimBounds(s: string)
    ensures AllSpace(s) ==> Trim(s) == []
    ensures s != [] && AllDigits(s) ==> Trim(s) == s
    ensures Trim(s) != [] ==> Trim(s)[0] in s
  {
    var front := TrimStart(s);
    if front != [] {
      assert front[0] == s[|s| - |front|];
    }
    if s != [] && AllDigits(s) {
      TrimUnpadded(s);
    }
  }

  /** `Number(s)` for a string: white space around the text is ignored, the
      empty string is 0, an optional sign followed by decimal digits is that
      integer, and everything else is NaN. */
  function ToNumber(s: string): (r: JsNumber)
    ensures AllSpace(s) ==> r == Num(0)
    ensures s != [] && AllDigits(s) ==> r == Num(DigitsValue(s))
    ensures r.Num? && r.value < 0 ==> '-' in s
  {
    TrimBounds(s);
    NumberOfText(Trim(s))
  }

  /** The number that trimmed text denotes. */
  function NumberOfText(t: string): (r: JsNumber)
    ensures r.Num? && r.value < 0 ==> t != [] && t[0] == '-'
  {
    if t == [] then Num(0)
    else if (t[0] == '+' || t[0] == '-') && |t| > 1 && AllDigits(t[1..]) then
      Num(if t[0] == '-' then -(DigitsValue(t[1..]) as int) else DigitsValue(t[1..]))
    else if AllDigits(t) then Num(DigitsValue(t))
    else NaN
  }

  lemma {:induction false} DecimalValue(n: nat)
    ensures DigitsValue(Decimal(n)) == n
  {
    if n >= 10 {
      DecimalValue(n / 10);
      var s := Decimal(n);
      assert s[..|s| - 1] == Decimal(n / 10);
    }
  }

  /** Parsing the decimal notation of a status code gives the code back. */
  lemma ToNumberDecimal(n: nat)
    ensures ToNumber(Decimal(n)) == Num(n)
  {
    var s := Decimal(n);
    TrimUnpadded(s);
    DecimalValue(n);
  }

  /** A minus sign in front of the digits negates the value. */
  lemma ToNumberNegated(n: nat)
    ensures ToNumber("-" + Decimal(n)) == Num(-(n as int))
  {
    var s := "-" + Decimal(n);
    TrimUnpadded(s);
    assert s[1..] == Decimal(n);
    DecimalValue(n);
  }

  /** `Number()` looks at nothing but the trimmed text. */
  lemma ToNumberOfTrim(s: string, t: string)
    requires Trim(s) == Trim(t)
    ensures ToNumber(s) == ToNumber(t)
  {
  }

  /** Leading white space is dropped whatever follows it. */
  lemma {:induction false} TrimStartSkipsSpace(p: string, x: string)
    requires AllSpace(p)
    ensures TrimStart(p + x) == TrimStart(x)
    decreases |p|
  {
    if p == [] {
      assert p + x == x;
    } else {
      assert IsSpace((p + x)[0]);
      assert (p + x)[1..] == p[1..] + x;
      assert TrimStart(p + x) == TrimStart(p[1..] + x);
      TrimStartSkipsSpace(p[1..], x);
    }
  }

  /** Trailing white space is dropped whatever precedes it. */
  lemma {:induction false} TrimEndSkipsSpace(x: string, q: string)
    requires AllSpace(q)
    ensures TrimEnd(x + q) == TrimEnd(x)
    decreases |q|
  {
    if q == [] {
      assert x + q == x;
    } else {
      var s := x + q;
      assert IsSpace(s[|s| - 1]);
      assert s[..|s| - 1] == x + q[..|q| - 1];
      assert TrimEnd(s) == TrimEnd(x + q[..|q| - 1]);
      TrimEndSkipsSpace(x, q[..|q| - 1]);
    }
  }

  /** Text that neither starts nor ends with white space is what remains
      after trimming any white space around it. */
  lemma TrimSurrounded(p: string, d: string, q: string)
    requires AllSpace(p) && AllSpace(q)
    requires d != [] && !IsSpace(d[0]) && !IsSpace(d[|d| - 1])
    ensures Trim(p + d + q) == d
  {
    assert p + d + q == p + (d + q);
    TrimStartSkipsSpace(p, d + q);
    assert (d + q)[0] == d[0];
    assert TrimStart(d + q) == d + q;
    TrimEndSkipsSpace(d, q);
    TrimUnpadded(d);
  }

  /** White space of any kind and length around a message does not change
      the number it denotes. */
  lemma ToNumberPadded(p: string, n: nat, q: string)
    requires AllSpace(p) && AllSpace(q)
    ensures ToNumber(p + Decimal(n) + q) == Num(n)
  {
    var d := Decimal(n);
    TrimSurrounded(p, d, q);
    TrimUnpadded(d);
    ToNumberOfTrim(p + d + q, d);
    ToNumberDecimal(n);
  }

  /** JavaScript `code || 500` on a number: 0 and NaN are falsy. */
  function OrElse500(code: JsNumber): (status: int)
    ensures status != 0
    ensures code.Num? && code.value != 0 ==> status == code.value
    ensures code == NaN || code == Num(0) ==> status == 500
  {
    if code.Num? && code.value != 0 then code.value else 500
  }
}
