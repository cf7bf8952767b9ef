/** The older helpers of src/assets/lib/utils.ts: a cruder `normalizeNumber`
    that keeps digits, `,` and `.` only, turns the first comma into a point and
    hands the rest to `parseFloat` with no finiteness guard, and the fallback
    text of `formatCurrency`. */
module AssetsUtils {
  import opened Wrappers
  import opened Seqs
  import opened Text
  import opened Normalize

  /** An argument of `string | number | undefined`, or a stray `null`. */
  datatype Value = Undefined | Null | Number(x: real) | Text(s: string)

  predicate IsKeptChar(c: char) {
    IsDigit(c) || c == ',' || c == '.'
  }

  /** The text handed to `parseFloat`, before the empty-text fallback. */
  function Cleaned(s: string): string {
    ReplaceFirstComma(Filter(s, IsKeptChar))
  }

  /** `parseFloat(cleaned || '0')`; `None` stands for `NaN`. */
  function ParseCleaned(s: string): (r: Option<real>)
    ensures Cleaned(s) == "" ==> r == Some(0.0)
  {
    var t := Cleaned(s);
    ParseDigits("0", "0", "");
    assert "0"[..0] == "";
    match ParseFloat(if t == "" then "0" else t)
    case None => None
    case Some(d) => Some(DecimalValue(d))
  }

  /** The alternate normaliser. A number argument goes through its own
      `toString`, which is the parameter `render`. */
  function AltNormalizeNumber(v: Value, render: real -> string): (r: Option<real>)
    ensures v.Undefined? || v.Null? ==> r == Some(0.0)
  {
    match v
    case Undefined => Some(0.0)
    case Null => Some(0.0)
    case Number(x) => ParseCleaned(render(x))
    case Text(s) => ParseCleaned(s)
  }

  /** A text that does not start with a minus sign never parses negative. */
  lemma UnsignedTextParsesUnsigned(u: string)
    requires u == [] || u[0] != '-'
    ensures ParseFloat(u).Some? ==> !ParseFloat(u).value.negative
  {
    var j := LiteralEnd(u);
    if j > 0 {
      assert u[..j][0] == u[0];
    }
  }

  lemma UnsignedValue(d: Decimal)
    requires !d.negative
    ensures DecimalValue(d) >= 0.0
  {
  }

  /** The kept characters carry no minus sign, so no input, not even a
      negative number rendered with its sign, yields a negative result. */
  lemma AltNeverNegative(v: Value, render: real -> string)
    ensures AltNormalizeNumber(v, render).Some? ==> AltNormalizeNumber(v, render).value >= 0.0
  {
    var s := match v case Number(x) => render(x) case Text(s) => s case _ => "";
    if v.Number? || v.Text? {
      var f := Filter(s, IsKeptChar);
      FilterSpec(s, IsKeptChar);
      ReplaceFirstCommaSpec(f);
      var t := Cleaned(s);
      assert t == [] || t[0] != '-' by {
        if t != [] {
          assert f[0] != '-';
        }
      }
      var u := if t == "" then "0" else t;
      UnsignedTextParsesUnsigned(u);
      match ParseFloat(u)
      case None =>
      case Some(d) => UnsignedValue(d);
    }
  }

  /** A text with no digit, comma or point reads as 0, not `NaN`. */
  lemma NothingKeptReadsAsZero(s: string)
    requires forall i :: 0 <= i < |s| ==> !IsKeptChar(s[i])
    ensures ParseCleaned(s) == Some(0.0)
  {
    FilterNoneKept(s, IsKeptChar);
    ParseDigits("0", "0", "");
    assert "0"[..0] == "";
  }

  /** `NaN` exactly when the cleaned text is not empty and none of its
      prefixes is a decimal literal. */
  lemma AltNaNIffNoLiteral(s: string)
    ensures ParseCleaned(s).None? <==>
              Cleaned(s) != "" &&
              forall k :: 0 <= k <= |Cleaned(s)| ==> !IsDecimalLiteral(Cleaned(s)[..k])
  {
    var t := Cleaned(s);
    ParseDigits("0", "0", "");
    if t != "" {
      ParseFloatSpec(t);
    }
  }

  /** A lone point has no digit to read: the result is `NaN`. */
  lemma LonePointIsNaN()
    ensures ParseCleaned(".") == None
  {
    assert "."[1..] == "";
    assert Filter(".", IsKeptChar) == ".";
    assert Cleaned(".") == ".";
    assert LeadingDigits(".") == 0;
    assert "."[0..] == ".";
    assert LeadingDigits("."[1..]) == 0;
  }

  /** The thousands point is kept and the comma becomes a second point, so
      `a.b,c` reads as the decimal `a.b`. */
  lemma PointThenCommaReadsFirstGroup(s: string, a: string, b: string, c: string)
    requires AllDigits(a) && AllDigits(b) && AllDigits(c) && |a| > 0
    requires s == a + "." + b + "," + c
    ensures ParseCleaned(s) == Some(DecimalValue(Decimal(false, a, b)))
  {
    PointThenCommaParses(s, a, b, c);
    ReadsParsedValue(s, Decimal(false, a, b));
  }

  lemma ReadsParsedValue(s: string, d: Decimal)
    requires Cleaned(s) != "" && ParseFloat(Cleaned(s)) == Some(d)
    ensures ParseCleaned(s) == Some(DecimalValue(d))
  {
  }

  lemma PointThenCommaParses(s: string, a: string, b: string, c: string)
    requires AllDigits(a) && AllDigits(b) && AllDigits(c) && |a| > 0
    requires s == a + "." + b + "," + c
    ensures Cleaned(s) == a + "." + b + "." + c
    ensures ParseFloat(Cleaned(s)) == Some(Decimal(false, a, b))
  {
    var t := a + "." + b + "." + c;
    CleanedPointThenComma(s, a, b, c);
    ParseSecondPoint(t, a, b, c);
  }

  lemma CleanedPointThenComma(s: string, a: string, b: string, c: string)
    requires AllDigits(a) && AllDigits(b) && AllDigits(c)
    requires s == a + "." + b + "," + c
    ensures Cleaned(s) == a + "." + b + "." + c
  {
    assert forall i :: 0 <= i < |s| ==> IsKeptChar(s[i]);
    FilterKeepsAll(s, IsKeptChar);
    ReplaceCommaAfter(a + "." + b, c);
  }

  /** So `"1.234,56"` reads as 1.234, not 1234.56. */
  lemma ThousandsReadAsDecimal()
    ensures ParseCleaned("1.234,56") == Some(1.234)
  {
    assert "1" + "." + "234" + "," + "56" == "1.234,56";
    PointThenCommaReadsFirstGroup("1.234,56", "1", "234", "56");
    DigitsOf1();
    FractionOf234();
  }

  /** The minus sign is dropped: `"-5"` reads as 5. */
  lemma MinusIsDropped()
    ensures ParseCleaned("-5") == Some(5.0)
  {
    var s := "-5";
    assert s[1..] == "5";
    assert "5"[1..] == "";
    assert Filter(s, IsKeptChar) == "5";
    ParseDigits("5", "5", "");
    assert "5"[..0] == "";
  }

  /** `formatCurrency`: a missing amount (undefined or null) shows the literal
      zero; a present one is rendered by the locale formatter `intl`. */
  function FormatCurrency(amount: Option<real>, intl: real -> string): (r: string)
    ensures amount.None? ==> r == "R$ 0,00"
    ensures amount.Some? ==> r == intl(amount.value)
  {
    match amount
    case None => "R$ 0,00"
    case Some(x) => intl(x)
  }
}
