/**
 * JavaScript's `parseInt(text, 10)` on a string (section 19.2.5 of ECMA-262):
 * skip leading white space, read an optional sign, then the longest run of
 * decimal digits; no digits gives NaN, written here as `None`.
 */
module IntParsing {
  import opened Wrappers

  predicate IsDigit(c: char) {
    '0' <= c <= '9'
  }

  function DigitValue(c: char): (d: nat)
    requires IsDigit(c)
    ensures d < 10
  {
    (c as int) - ('0' as int)
  }

  function DigitChar(d: nat): (c: char)
    requires d < 10
    ensures IsDigit(c) && DigitValue(c) == d
  {
    (('0' as int) + d) as char
  }

  /** The ECMAScript WhiteSpace and LineTerminator code points that `parseInt` skips. */
  predicate IsJsSpace(c: char) {
    c == '\t' || c == '\n' || c == '\U{000B}' || c == '\U{000C}' || c == '\r' || c == ' ' ||
    c == '\U{00A0}' || c == '\U{1680}' || ('\U{2000}' <= c <= '\U{200A}') ||
    c == '\U{2028}' || c == '\U{2029}' || c == '\U{202F}' || c == '\U{205F}' ||
    c == '\U{3000}' || c == '\U{FEFF}'
  }

  /** `s` without its leading white space. */
  function TrimStart(s: string): (r: string)
    ensures |r| <= |s|
    ensures r == [] || !IsJsSpace(r[0])
  {
    if |s| > 0 && IsJsSpace(s[0]) then TrimStart(s[1..]) else s
  }

  /** Skipping white space drops exactly a white-space prefix: the result is a suffix of `s` and what precedes it is all white space. */
  lemma {:induction false} TrimStartIsSuffix(s: string)
    ensures var r := TrimStart(s);
            r == s[|s| - |r|..] && forall i :: 0 <= i < |s| - |r| ==> IsJsSpace(s[i])
  {
    if |s| > 0 && IsJsSpace(s[0]) {
      TrimStartIsSuffix(s[1..]);
      var r := TrimStart(s);
      assert s[1..][|s| - 1 - |r|..] == s[|s| - |r|..];
      forall i | 0 <= i < |s| - |r| ensures IsJsSpace(s[i]) {
        if i > 0 { assert s[i] == s[1..][i - 1]; }
      }
    }
  }

  /** Length of the run of decimal digits that starts `s`. */
  function DigitRunLength(s: string): (n: nat)
    ensures n <= |s|
    ensures forall i :: 0 <= i < n ==> IsDigit(s[i])
    ensures n < |s| ==> !IsDigit(s[n])
  {
    if |s| > 0 && IsDigit(s[0]) then 1 + DigitRunLength(s[1..]) else 0
  }

  predicate AllDigits(s: string) {
    forall i :: 0 <= i < |s| ==> IsDigit(s[i])
  }

  /** The number a string of decimal digits denotes, most significant digit first. */
  function DigitsValue(ds: string): nat
    requires AllDigits(ds)
  {
    if ds == [] then 0 else DigitsValue(ds[..|ds| - 1]) * 10 + DigitValue(ds[|ds| - 1])
  }

  /** The digits at the front of `body`, read as a number; `None` when there are none. */
  function ParseDigits(body: string): Option<nat> {
    var n := DigitRunLength(body);
    if n == 0 then None else Some(DigitsValue(body[..n]))
  }

  /** `t` without one leading sign character. */
  function Unsigned(t: string): string {
    if |t| > 0 && (t[0] == '-' || t[0] == '+') then t[1..] else t
  }

  /** The digits `parseInt` reads: the digit run after the white space and the optional sign. */
  function DigitsRead(s: string): (ds: string)
    ensures AllDigits(ds)
  {
    var u := Unsigned(TrimStart(s));
    u[..DigitRunLength(u)]
  }

  /** `parseInt(s, 10)`; `None` is NaN. */
  function ParseInt(s: string): (r: Option<int>)
    ensures r.None? <==> DigitsRead(s) == []
    ensures r.Some? ==>
              r.value == if TrimStart(s)[0] == '-' then -(DigitsValue(DigitsRead(s)) as int) else DigitsValue(DigitsRead(s))
  {
    ParseSigned(TrimStart(s))
  }

  /** An optional sign followed by digits; what `parseInt` reads once white space is skipped. */
  function ParseSigned(t: string): Option<int> {
    if |t| > 0 && t[0] == '-' then
      match ParseDigits(t[1..])
      case None => None
      case Some(v) => Some(-(v as int))
    else if |t| > 0 && t[0] == '+' then ParseDigits(t[1..])
    else ParseDigits(t)
  }

  /**
   * `parseInt(s, 10) || 0`: NaN and zero (also negative zero) are falsy and
   * become 0, so the result is 0 exactly when the digits read are none or
   * all '0'.
   */
  function ParseIntOrZero(s: string): (r: int)
    ensures r == 0 <==> forall i :: 0 <= i < |DigitsRead(s)| ==> DigitsRead(s)[i] == '0'
    ensures r != 0 ==> ParseInt(s) == Some(r)
  {
    DigitsValueZero(DigitsRead(s));
    match ParseInt(s)
    case None => 0
    case Some(v) => v
  }

  /** A digit string denotes zero exactly when every digit is '0'. */
  lemma {:induction false} DigitsValueZero(ds: string)
    requires AllDigits(ds)
    ensures DigitsValue(ds) == 0 <==> forall i :: 0 <= i < |ds| ==> ds[i] == '0'
  {
    if ds != [] {
      var init := ds[..|ds| - 1];
      DigitsValueZero(init);
      assert forall i :: 0 <= i < |init| ==> init[i] == ds[i];
    }
  }

  /** Decimal text of a natural number, without leading zeros. */
  function Decimal(n: nat): (s: string)
    ensures |s| > 0 && AllDigits(s)
    ensures |s| > 1 ==> s[0] != '0'
  {
    if n < 10 then [DigitChar(n)] else Decimal(n / 10) + [DigitChar(n % 10)]
  }

  lemma {:induction false} DecimalValue(n: nat)
    ensures DigitsValue(Decimal(n)) == n
  {
    if n >= 10 {
      var s := Decimal(n);
      assert s[..|s| - 1] == Decimal(n / 10);
      DecimalValue(n / 10);
    }
  }

  lemma {:induction false} DigitRunOfPrefix(ds: string, rest: string)
    requires AllDigits(ds)
    requires rest == [] || !IsDigit(rest[0])
    ensures DigitRunLength(ds + rest) == |ds|
  {
    if ds != [] {
      assert (ds + rest)[1..] == ds[1..] + rest;
      DigitRunOfPrefix(ds[1..], rest);
    }
  }

  lemma ParseDigitsOfDigits(ds: string, rest: string)
    requires |ds| > 0 && AllDigits(ds)
    requires rest == [] || !IsDigit(rest[0])
    ensures ParseDigits(ds + rest) == Some(DigitsValue(ds))
  {
    DigitRunOfPrefix(ds, rest);
    assert (ds + rest)[..|ds|] == ds;
  }

  lemma ParseDigitsOfDecimal(n: nat, rest: string)
    requires rest == [] || !IsDigit(rest[0])
    ensures ParseDigits(Decimal(n) + rest) == Some(n)
  {
    DecimalValue(n);
    ParseDigitsOfDigits(Decimal(n), rest);
  }

  /**
   * Any unsigned digit string, leading zeros included ("007"), followed by
   * anything that does not start with a digit, parses to the number it denotes.
   */
  lemma ParseIntOfDigits(ds: string, rest: string)
    requires |ds| > 0 && AllDigits(ds)
    requires rest == [] || !IsDigit(rest[0])
    ensures ParseInt(ds + rest) == Some(DigitsValue(ds) as int)
  {
    var t := ds + rest;
    ParseDigitsOfDigits(ds, rest);
    assert t[0] == ds[0] && IsDigit(t[0]);
    TrimStartOfNonSpace(t);
    assert ParseSigned(t) == ParseDigits(t);
  }

  lemma TrimStartOfNonSpace(t: string)
    requires |t| > 0 && !IsJsSpace(t[0])
    ensures TrimStart(t) == t
  {
  }

  /**
   * Reading stops at the first character that is not a digit: the decimal
   * text of `n` followed by anything that does not start with a digit
   * (".5", "e3", "abc", nothing) parses to `n`.
   */
  lemma ParseIntOfDecimal(n: nat, rest: string)
    requires rest == [] || !IsDigit(rest[0])
    ensures ParseInt(Decimal(n) + rest) == Some(n as int)
  {
    DecimalValue(n);
    ParseIntOfDigits(Decimal(n), rest);
  }

  lemma ParseIntWithSign(sign: char, t: string, m: nat)
    requires sign == '-' || sign == '+'
    requires ParseDigits(t) == Some(m)
    ensures ParseInt([sign] + t) == Some(if sign == '-' then -(m as int) else m as int)
  {
    var u := [sign] + t;
    assert u[0] == sign && u[1..] == t;
    TrimStartOfNonSpace(u);
  }

  /** The same with a sign in front: `-` negates, `+` does not. */
  lemma ParseIntOfSignedDecimal(n: nat, rest: string)
    requires rest == [] || !IsDigit(rest[0])
    ensures ParseInt("-" + Decimal(n) + rest) == Some(-(n as int))
    ensures ParseInt("+" + Decimal(n) + rest) == Some(n as int)
  {
    var t := Decimal(n) + rest;
    ParseDigitsOfDecimal(n, rest);
    ConcatAssoc("-", Decimal(n), rest);
    ConcatAssoc("+", Decimal(n), rest);
    ParseIntWithSign('-', t, n);
    ParseIntWithSign('+', t, n);
  }

  /** Associativity of `+` on strings, stated for the solver. */
  lemma ConcatAssoc(a: string, b: string, c: string)
    ensures a + b + c == a + (b + c)
  {
  }

  lemma {:induction false} TrimStartSkipsSpace(ws: string, s: string)
    requires forall i :: 0 <= i < |ws| ==> IsJsSpace(ws[i])
    ensures TrimStart(ws + s) == TrimStart(s)
  {
    if ws != [] {
      assert (ws + s)[0] == ws[0] && (ws + s)[1..] == ws[1..] + s;
      TrimStartSkipsSpace(ws[1..], s);
      assert TrimStart(ws + s) == TrimStart(ws[1..] + s);
    } else {
      assert ws + s == s;
    }
  }

  /** Leading white space does not change the result. */
  lemma ParseIntSkipsSpace(ws: string, s: string)
    requires forall i :: 0 <= i < |ws| ==> IsJsSpace(ws[i])
    ensures ParseInt(ws + s) == ParseInt(s)
  {
    TrimStartSkipsSpace(ws, s);
  }

  /** Text with no digit after its white space and sign is NaN. */
  lemma ParseIntOfNonNumeric(s: string)
    requires |s| > 0 && !IsDigit(s[0]) && !IsJsSpace(s[0]) && s[0] != '-' && s[0] != '+'
    ensures ParseInt(s) == None
  {
  }
}
