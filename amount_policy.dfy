/** The amount field's bounds and the clamp its `onChange` applies. */
module AmountPolicy {
  import IntParsing

  const Min: int := 1
  const Max: int := 499000000

  /** What the field starts with. */
  const InitialAmount: int := 100000

  predicate InRange(v: int) {
    Min <= v <= Max
  }

  /** Saturation into `[Min, Max]`: first `> Max` becomes `Max`, then `< Min` becomes `Min`. */
  function Clamp(v: int): (r: int)
    ensures InRange(r)
    ensures InRange(v) ==> r == v
    ensures v < Min ==> r == Min
    ensures v > Max ==> r == Max
  {
    var capped := if v > Max then Max else v;
    if capped < Min then Min else capped
  }

  /** The clamp picks the point of the range nearest to its input. */
  lemma ClampIsNearest(v: int, w: int)
    requires InRange(w)
    ensures (if Clamp(v) >= v then Clamp(v) - v else v - Clamp(v)) <= (if w >= v then w - v else v - w)
  {
  }

  lemma ClampIdempotent(v: int)
    ensures Clamp(Clamp(v)) == Clamp(v)
  {
  }

  /** The amount stored once the field's text is `text`. */
  function AmountFromText(text: string): (r: int)
    ensures InRange(r)
    ensures IntParsing.ParseInt(text).None? ==> r == Min
  {
    Clamp(IntParsing.ParseIntOrZero(text))
  }

  /**
   * Digits denoting an in-range amount, leading zeros allowed, possibly
   * followed by a fraction or exponent, are stored as that amount.
   */
  lemma AmountOfDigitText(ds: string, rest: string)
    requires |ds| > 0 && IntParsing.AllDigits(ds) && InRange(IntParsing.DigitsValue(ds))
    requires rest == [] || !IntParsing.IsDigit(rest[0])
    ensures AmountFromText(ds + rest) == IntParsing.DigitsValue(ds)
  {
    IntParsing.ParseIntOfDigits(ds, rest);
  }

  /** In particular the canonical decimal text of an in-range amount is stored as that amount. */
  lemma AmountOfInRangeText(n: nat, rest: string)
    requires InRange(n)
    requires rest == [] || !IntParsing.IsDigit(rest[0])
    ensures AmountFromText(IntParsing.Decimal(n) + rest) == n
  {
    IntParsing.DecimalValue(n);
    AmountOfDigitText(IntParsing.Decimal(n), rest);
  }

  /** Zero, negative amounts and amounts above the maximum saturate. */
  lemma AmountOfOutOfRangeText(n: nat)
    ensures AmountFromText(IntParsing.Decimal(n)) == if n == 0 then Min else if n > Max then Max else n
    ensures AmountFromText("-" + IntParsing.Decimal(n)) == Min
  {
    IntParsing.ParseIntOfDecimal(n, "");
    IntParsing.ParseIntOfSignedDecimal(n, "");
    assert IntParsing.Decimal(n) + "" == IntParsing.Decimal(n);
    assert "-" + IntParsing.Decimal(n) + "" == "-" + IntParsing.Decimal(n);
  }

  /** Example: the text "500000000" stores the maximum, 499000000. */
  lemma AmountAboveMaxExample()
    ensures AmountFromText("500000000") == 499000000
  {
    assert IntParsing.Decimal(500000000) == "500000000";
    AmountOfOutOfRangeText(500000000);
  }

  /** Examples: 0 gives 1, -5 gives 1, non-numeric text gives 1, "007" gives 7. */
  lemma AmountExamples()
    ensures AmountFromText("0") == 1
    ensures AmountFromText("-5") == 1
    ensures AmountFromText("abc") == 1
    ensures AmountFromText("") == 1
    ensures AmountFromText("007") == 7
  {
    assert "007"[..2] == "00" && "00"[..1] == "0" && "0"[..0] == "";
    assert IntParsing.DigitsValue("007") == 7;
    AmountOfDigitText("007", "");
    assert "007" + "" == "007";
    AmountOfOutOfRangeText(0);
    AmountOfOutOfRangeText(5);
    IntParsing.ParseIntOfNonNumeric("abc");
  }
}
