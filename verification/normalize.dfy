/** `normalizeNumber` of src/lib/utils.ts: pt-BR money text to a number.
    The pipeline keeps digits, `,`, `.` and `-`, deletes every `.` that has a
    later `.`, turns the first `,` into `.`, and reads the longest leading
    decimal literal the way `parseFloat` does; no literal gives 0. */
module Normalize {
  import opened Wrappers
  import opened Seqs
  import opened Text

  /** The argument of `normalizeNumber`: `string | number`. */
  datatype Input = Num(x: real) | Str(s: string)

  // ---------------------------------------------------------------------------
  // Text clean-up
  // ---------------------------------------------------------------------------

  predicate IsNumericChar(c: char) {
    IsDigit(c) || c == ',' || c == '.' || c == '-'
  }

  predicate IsNotDot(c: char) {
    c != '.'
  }

  /** `.replace(/[^\d.,-]/g, "")`. */
  function KeepNumeric(s: string): string {
    Filter(s, IsNumericChar)
  }

  /** `.replace(/\.(?=.*\.)/g, "")`: drop each `.` that a later `.` follows. */
  function CollapseDots(s: string): string {
    if |s| == 0 then []
    else if s[0] == '.' && '.' in s[1..] then CollapseDots(s[1..])
    else [s[0]] + CollapseDots(s[1..])
  }

  /** The collapse keeps exactly one `.` when there was any, and every
      other character in its place and order; it adds no new character. */
  lemma {:induction false} CollapseDotsSpec(s: string)
    ensures multiset(CollapseDots(s))['.'] == if '.' in s then 1 else 0
    ensures Filter(CollapseDots(s), IsNotDot) == Filter(s, IsNotDot)
    ensures forall i :: 0 <= i < |CollapseDots(s)| ==> CollapseDots(s)[i] in s
  {
    if |s| > 0 {
      CollapseDotsSpec(s[1..]);
      assert s == [s[0]] + s[1..];
      var r := CollapseDots(s);
      if !(s[0] == '.' && '.' in s[1..]) {
        assert r == [s[0]] + CollapseDots(s[1..]);
        assert r[1..] == CollapseDots(s[1..]);
      }
    }
  }

  /** Text without a `.` goes through the collapse untouched. */
  lemma {:induction false} CollapseWithoutDots(s: string)
    requires '.' !in s
    ensures CollapseDots(s) == s
  {
    if |s| > 0 {
      assert s[0] in s;
      CollapseWithoutDots(s[1..]);
      assert s == [s[0]] + s[1..];
    }
  }

  /** The `.` that survives is the last one: everything before it loses its
      dots and everything after it is kept as it was. */
  lemma {:induction false} CollapseKeepsLastDot(a: string, b: string)
    requires '.' !in b
    ensures CollapseDots(a + "." + b) == Filter(a, IsNotDot) + "." + b
  {
    if |a| == 0 {
      assert a + "." + b == "." + b;
      assert ("." + b)[1..] == b;
      CollapseWithoutDots(b);
    } else {
      var s := a + "." + b;
      var tail := a[1..] + "." + b;
      assert s == [a[0]] + tail;
      assert s[1..] == tail;
      assert tail[|a| - 1] == '.';
      CollapseKeepsLastDot(a[1..], b);
      assert a == [a[0]] + a[1..];
      if a[0] == '.' {
        assert CollapseDots(s) == CollapseDots(tail);
        assert Filter(a, IsNotDot) == Filter(a[1..], IsNotDot);
      } else {
        assert CollapseDots(s) == [a[0]] + CollapseDots(tail);
        assert Filter(a, IsNotDot) == [a[0]] + Filter(a[1..], IsNotDot);
      }
    }
  }

  /** `.replace(",", ".")`: only the first comma becomes a dot. */
  function ReplaceFirstComma(s: string): string {
    if |s| == 0 then []
    else if s[0] == ',' then ['.'] + s[1..]
    else [s[0]] + ReplaceFirstComma(s[1..])
  }

  /** The first comma, and nothing else, is turned into a dot. */
  lemma {:induction false} ReplaceFirstCommaSpec(s: string)
    ensures IndexOf(s, ',') == |s| ==> ReplaceFirstComma(s) == s
    ensures IndexOf(s, ',') < |s| ==> ReplaceFirstComma(s) == s[IndexOf(s, ',') := '.']
  {
    if |s| > 0 && s[0] != ',' {
      ReplaceFirstCommaSpec(s[1..]);
      assert s == [s[0]] + s[1..];
    }
  }

  /** The comma that follows a comma-free prefix is the one replaced. */
  lemma {:induction false} ReplaceCommaAfter(a: string, b: string)
    requires ',' !in a
    ensures ReplaceFirstComma(a + "," + b) == a + "." + b
  {
    if |a| == 0 {
      assert a + "," + b == "," + b;
      assert ("," + b)[1..] == b;
    } else {
      assert a[0] in a;
      assert (a + "," + b)[1..] == a[1..] + "," + b;
      ReplaceCommaAfter(a[1..], b);
      assert a == [a[0]] + a[1..];
    }
  }

  // ---------------------------------------------------------------------------
  // Decimal literals, as `parseFloat` reads them
  // ---------------------------------------------------------------------------

  /** The value of a decimal digit (0 for any other character). */
  function DigitOf(c: char): real {
    if IsDigit(c) then (c as int - '0' as int) as real else 0.0
  }

  /** The value of a string of decimal digits. */
  function DigitsValue(s: string): (r: real)
    ensures r >= 0.0
  {
    if |s| == 0 then 0.0 else 10.0 * DigitsValue(s[..|s| - 1]) + DigitOf(s[|s| - 1])
  }

  function Pow10(n: nat): (r: real)
    ensures r >= 1.0
  {
    if n == 0 then 1.0 else 10.0 * Pow10(n - 1)
  }

  /** `digits` read after a decimal point. */
  function FractionValue(digits: string): (r: real)
    ensures r >= 0.0
  {
    DigitsValue(digits) / Pow10(|digits|)
  }

  /** An unsigned literal: digits, optionally a single `.` and more digits,
      with at least one digit in all (`5`, `5.`, `.5`, `5.25`). */
  predicate IsUnsignedLiteral(q: string) {
    var k := IndexOf(q, '.');
    if k == |q| then |q| > 0 && AllDigits(q)
    else AllDigits(q[..k]) && AllDigits(q[k + 1..]) && |q| >= 2
  }

  /** A decimal literal over the alphabet left after clean-up: an optional
      `-` and an unsigned literal. */
  predicate IsDecimalLiteral(p: string) {
    if |p| > 0 && p[0] == '-' then IsUnsignedLiteral(p[1..]) else IsUnsignedLiteral(p)
  }

  /** A decimal literal taken apart: its sign, the digits before the point
      and the digits after it. */
  datatype Decimal = Decimal(negative: bool, whole: string, fraction: string)

  /** The number a decimal denotes. */
  function DecimalValue(x: Decimal): real {
    var magnitude := DigitsValue(x.whole) + FractionValue(x.fraction);
    if x.negative then -magnitude else magnitude
  }

  function UnsignedParts(q: string): (string, string) {
    var k := IndexOf(q, '.');
    (q[..k], if k < |q| then q[k + 1..] else "")
  }

  /** The parts of a decimal literal. */
  function LiteralOf(p: string): Decimal {
    if |p| > 0 && p[0] == '-' then
      var (w, f) := UnsignedParts(p[1..]); Decimal(true, w, f)
    else
      var (w, f) := UnsignedParts(p); Decimal(false, w, f)
  }

  /** The number of leading digits of `s`. */
  function LeadingDigits(s: string): (n: nat)
    ensures n <= |s|
    ensures AllDigits(s[..n])
    ensures n < |s| ==> !IsDigit(s[n])
  {
    if |s| == 0 || !IsDigit(s[0]) then 0
    else
      assert s[..1 + LeadingDigits(s[1..])] == [s[0]] + s[1..][..LeadingDigits(s[1..])];
      1 + LeadingDigits(s[1..])
  }

  /** The length of the longest unsigned literal at the start of `t`, or 0. */
  function UnsignedEnd(t: string): nat {
    var n := LeadingDigits(t);
    if n < |t| && t[n] == '.' then
      var m := LeadingDigits(t[n + 1..]);
      if n + m == 0 then 0 else n + 1 + m
    else n
  }

  /** The length of the longest decimal literal at the start of `s`, or 0. */
  function LiteralEnd(s: string): nat {
    var sign := if |s| > 0 && s[0] == '-' then 1 else 0;
    var e := UnsignedEnd(s[sign..]);
    if e == 0 then 0 else sign + e
  }

  /** The first `.` of a text whose first `n` characters are digits and
      whose character `n` is a `.` sits at `n`. */
  lemma DotAfterDigits(u: string, n: nat)
    requires n < |u| && u[n] == '.' && AllDigits(u[..n])
    ensures IndexOf(u, '.') == n
  {
  }

  /** `UnsignedEnd` measures the longest unsigned literal prefix. */
  lemma UnsignedEndIsLongest(t: string)
    ensures UnsignedEnd(t) <= |t|
    ensures UnsignedEnd(t) > 0 ==> IsUnsignedLiteral(t[..UnsignedEnd(t)])
    ensures forall k :: UnsignedEnd(t) < k <= |t| ==> !IsUnsignedLiteral(t[..k])
  {
    var n := LeadingDigits(t);
    var e := UnsignedEnd(t);
    if n < |t| && t[n] == '.' {
      var m := LeadingDigits(t[n + 1..]);
      if e > 0 {
        LiteralThroughPoint(t, n, m);
      }
      forall k | e < k <= |t|
        ensures !IsUnsignedLiteral(t[..k])
      {
        if n + 1 + m < k {
          PastDigitsAfterPoint(t, n, m, k);
        } else {
          DotAfterDigits(t[..k], 0);
        }
      }
    } else {
      if e > 0 {
        assert t[..e] == t[..n];
      }
      forall k | e < k <= |t|
        ensures !IsUnsignedLiteral(t[..k])
      {
        StopsAtNonDigit(t, n, k);
      }
    }
  }

  /** Digits, a point and digits, with at least one digit, form a literal. */
  lemma LiteralThroughPoint(t: string, n: nat, m: nat)
    requires n == LeadingDigits(t) && n < |t| && t[n] == '.'
    requires m == LeadingDigits(t[n + 1..]) && n + m > 0
    ensures IsUnsignedLiteral(t[..n + 1 + m])
  {
    var u := t[..n + 1 + m];
    assert u[..n] == t[..n];
    DotAfterDigits(u, n);
    assert u[n + 1..] == t[n + 1..][..m];
  }

  /** A prefix that reaches past the digits after the point ends in a
      character that is not a digit, so it is no literal. */
  lemma PastDigitsAfterPoint(t: string, n: nat, m: nat, k: nat)
    requires n == LeadingDigits(t) && n < |t| && t[n] == '.'
    requires m == LeadingDigits(t[n + 1..]) && n + 1 + m < k <= |t|
    ensures !IsUnsignedLiteral(t[..k])
  {
    var u := t[..k];
    var rest := t[n + 1..];
    assert u[..n] == t[..n];
    DotAfterDigits(u, n);
    assert u[n + 1..][m] == rest[m];
  }

  /** A prefix reaching past a character that is neither a digit nor a point,
      with only digits before it, is no unsigned literal. */
  lemma StopsAtNonDigit(t: string, n: nat, k: nat)
    requires n < k <= |t| && AllDigits(t[..n]) && !IsDigit(t[n]) && t[n] != '.'
    ensures !IsUnsignedLiteral(t[..k])
  {
    var u := t[..k];
    assert u[n] == t[n];
    var d := IndexOf(u, '.');
    if n <= d < |u| {
      assert u[..d][n] == t[n];
    } else if d == |u| {
      assert !IsDigit(u[n]);
    }
  }

  /** `s` has a decimal literal of length `j` at its start and none longer. */
  ghost predicate IsLongestLiteralPrefix(s: string, j: nat) {
    && 0 < j <= |s|
    && IsDecimalLiteral(s[..j])
    && forall k :: j < k <= |s| ==> !IsDecimalLiteral(s[..k])
  }

  /** `LiteralEnd` measures the longest decimal literal prefix, and 0 means
      that no prefix of `s` is a literal. */
  lemma LiteralEndIsLongest(s: string)
    ensures LiteralEnd(s) > 0 ==> IsLongestLiteralPrefix(s, LiteralEnd(s))
    ensures LiteralEnd(s) == 0 ==> forall k :: 0 <= k <= |s| ==> !IsDecimalLiteral(s[..k])
  {
    if |s| > 0 && s[0] == '-' {
      SignedLiteralEnd(s);
    } else {
      UnsignedLiteralEnd(s);
    }
  }

  /** After a leading minus sign, the literal is the unsigned one that follows. */
  lemma SignedLiteralEnd(s: string)
    requires |s| > 0 && s[0] == '-'
    ensures LiteralEnd(s) > 0 ==> IsLongestLiteralPrefix(s, LiteralEnd(s))
    ensures LiteralEnd(s) == 0 ==> forall k :: 0 <= k <= |s| ==> !IsDecimalLiteral(s[..k])
  {
    var t := s[1..];
    UnsignedEndIsLongest(t);
    forall k | 0 <= k <= |s|
      ensures IsDecimalLiteral(s[..k]) <==> k >= 1 && IsUnsignedLiteral(t[..k - 1])
    {
      if k > 0 {
        assert s[..k][1..] == t[..k - 1];
      }
    }
  }

  /** Without a leading minus sign, the literal is an unsigned one. */
  lemma UnsignedLiteralEnd(s: string)
    requires !(|s| > 0 && s[0] == '-')
    ensures LiteralEnd(s) > 0 ==> IsLongestLiteralPrefix(s, LiteralEnd(s))
    ensures LiteralEnd(s) == 0 ==> forall k :: 0 <= k <= |s| ==> !IsDecimalLiteral(s[..k])
  {
    assert s[0..] == s;
    UnsignedEndIsLongest(s);
    forall k | 0 <= k <= |s|
      ensures IsDecimalLiteral(s[..k]) <==> IsUnsignedLiteral(s[..k])
    {
      if k > 0 {
        assert s[..k][0] == s[0];
      }
    }
  }

  /** `parseFloat` applied to cleaned-up text (`None` stands for `NaN`). */
  function ParseFloat(s: string): Option<Decimal> {
    var j := LiteralEnd(s);
    if j == 0 then None else Some(LiteralOf(s[..j]))
  }

  /** `parseFloat` yields the value of the longest leading decimal literal,
      and `NaN` exactly when no prefix of the text is a literal. */
  lemma ParseFloatSpec(s: string)
    ensures ParseFloat(s).Some? ==>
              && IsLongestLiteralPrefix(s, LiteralEnd(s))
              && ParseFloat(s).value == LiteralOf(s[..LiteralEnd(s)])
    ensures ParseFloat(s).None? <==> forall k :: 0 <= k <= |s| ==> !IsDecimalLiteral(s[..k])
  {
    LiteralEndIsLongest(s);
  }

  /** Leading digits stop at the first non-digit. */
  lemma {:induction false} LeadingDigitsOf(d: string, rest: string)
    requires AllDigits(d)
    requires rest == [] || !IsDigit(rest[0])
    ensures LeadingDigits(d + rest) == |d|
  {
    if |d| > 0 {
      assert (d + rest)[1..] == d[1..] + rest;
      LeadingDigitsOf(d[1..], rest);
    } else {
      assert d + rest == rest;
    }
  }

  lemma EndOfDigitsPointDigits(d: string, f: string, rest: string)
    requires AllDigits(d) && AllDigits(f) && |d| + |f| > 0
    requires rest == [] || !IsDigit(rest[0])
    ensures LiteralEnd(d + "." + f + rest) == |d| + 1 + |f|
  {
    var s := d + "." + f + rest;
    assert s[0] != '-' by {
      if |d| > 0 { assert s[0] == d[0]; } else { assert s[0] == '.'; }
    }
    assert s[0..] == s;
    LeadingDigitsOf(d, "." + f + rest);
    assert s == d + ("." + f + rest);
    assert s[|d|] == '.';
    assert s[|d| + 1..] == f + rest;
    LeadingDigitsOf(f, rest);
  }

  lemma PartsOfDigitsPointDigits(d: string, f: string)
    requires AllDigits(d)
    ensures LiteralOf(d + "." + f) == Decimal(false, d, f)
  {
    var lit := d + "." + f;
    assert |lit| == 0 || lit[0] != '-' by {
      if |d| > 0 { assert lit[0] == d[0]; } else { assert lit[0] == '.'; }
    }
    assert lit[..|d|] == d;
    DotAfterDigits(lit, |d|);
    assert lit[|d| + 1..] == f;
  }

  /** Digits, a point and digits are read as one number, and reading stops
      at the next non-digit, a second point included. */
  lemma ParseDigitsPointDigits(s: string, d: string, f: string, rest: string)
    requires AllDigits(d) && AllDigits(f) && |d| + |f| > 0
    requires rest == [] || !IsDigit(rest[0])
    requires s == d + "." + f + rest
    ensures ParseFloat(s) == Some(Decimal(false, d, f))
  {
    var lit := d + "." + f;
    EndOfDigitsPointDigits(d, f, rest);
    PartsOfDigitsPointDigits(d, f);
    assert s[..LiteralEnd(s)] == lit;
  }

  /** Parsing `d.f.g` stops at the second point. */
  lemma ParseSecondPoint(s: string, d: string, f: string, g: string)
    requires AllDigits(d) && AllDigits(f) && |d| > 0
    requires s == d + "." + f + "." + g
    ensures ParseFloat(s) == Some(Decimal(false, d, f))
  {
    var rest := "." + g;
    assert rest[0] == '.';
    assert s == d + "." + f + rest;
    ParseDigitsPointDigits(s, d, f, rest);
  }

  /** Digits followed by neither a digit nor a point are read as an integer. */
  lemma ParseDigits(s: string, d: string, rest: string)
    requires AllDigits(d) && |d| > 0
    requires rest == [] || (!IsDigit(rest[0]) && rest[0] != '.')
    requires s == d + rest
    ensures ParseFloat(s) == Some(Decimal(false, d, ""))
  {
    assert s[0] == d[0];
    assert s[0..] == s;
    LeadingDigitsOf(d, rest);
    assert s[..|d|] == d;
    assert d[0] != '-';
    DigitsHaveNoDot(d);
    assert d[..|d|] == d;
  }

  /** A leading minus sign negates what follows it. */
  lemma ParseNegative(x: string)
    requires x == [] || x[0] != '-'
    ensures ParseFloat("-" + x) == match ParseFloat(x)
                                   case None => None
                                   case Some(v) => Some(v.(negative := true))
  {
    var s := "-" + x;
    assert s[1..] == x;
    assert x[0..] == x;
    var e := UnsignedEnd(x);
    if e > 0 {
      assert s[..1 + e][1..] == x[..e];
      assert s[..1 + e][0] == '-';
    }
  }

  // ---------------------------------------------------------------------------
  // normalizeNumber
  // ---------------------------------------------------------------------------

  /** The text handed to `parseFloat`. */
  function Clean(s: string): string {
    ReplaceFirstComma(CollapseDots(KeepNumeric(s)))
  }

  /** `normalizeNumber(value)`: numbers pass through, empty text is 0, other
      text is cleaned up and parsed, with a non-number read as 0. */
  function NormalizeNumber(v: Input): (r: real)
    ensures v.Num? ==> r == v.x
    ensures v == Str("") ==> r == 0.0
  {
    match v
    case Num(x) => x
    case Str(s) =>
      if s == "" then 0.0
      else match ParseFloat(Clean(s))
        case None => 0.0
        case Some(x) => DecimalValue(x)
  }

  /** Non-empty text normalises to the value of the longest decimal literal
      at the start of its cleaned-up form, and to 0 when there is none. */
  lemma NormalizeText(s: string)
    requires s != ""
    ensures LiteralEnd(Clean(s)) > 0 ==>
              && IsLongestLiteralPrefix(Clean(s), LiteralEnd(Clean(s)))
              && NormalizeNumber(Str(s)) == DecimalValue(LiteralOf(Clean(s)[..LiteralEnd(Clean(s))]))
    ensures (forall k :: 0 <= k <= |Clean(s)| ==> !IsDecimalLiteral(Clean(s)[..k])) ==>
              NormalizeNumber(Str(s)) == 0.0
  {
    ParseFloatSpec(Clean(s));
  }

  /** After the character filter and the dot collapse the text holds only
      digits, `,`, `.` and `-`, and at most one `.`, which is there exactly
      when the filtered text had one. */
  lemma FilteredAndCollapsed(s: string)
    ensures forall i :: 0 <= i < |CollapseDots(KeepNumeric(s))| ==>
              IsNumericChar(CollapseDots(KeepNumeric(s))[i])
    ensures multiset(CollapseDots(KeepNumeric(s)))['.'] <= 1
    ensures '.' in CollapseDots(KeepNumeric(s)) <==> '.' in KeepNumeric(s)
  {
    FilterSpec(s, IsNumericChar);
    CollapseDotsSpec(KeepNumeric(s));
  }

  /** Non-empty text whose clean-up parses to `v` normalises to `v`. */
  lemma NormalizeVia(s: string, c: string, v: Decimal)
    requires s != "" && Clean(s) == c && ParseFloat(c) == Some(v)
    ensures NormalizeNumber(Str(s)) == DecimalValue(v)
  {
  }

  /** Every character is one the normaliser's filter keeps. */
  predicate AllNumeric(s: string) {
    forall i :: 0 <= i < |s| ==> IsNumericChar(s[i])
  }

  lemma NumericConcat(x: string, y: string)
    requires AllNumeric(x) && AllNumeric(y)
    ensures AllNumeric(x + y)
  {
    forall i | 0 <= i < |x + y|
      ensures IsNumericChar((x + y)[i])
    {
      if i < |x| { assert (x + y)[i] == x[i]; } else { assert (x + y)[i] == y[i - |x|]; }
    }
  }

  /** Text built only from normaliser characters passes the filter unchanged. */
  lemma KeepNumericOfNumeric(s: string)
    requires AllNumeric(s)
    ensures KeepNumeric(s) == s
  {
    FilterKeepsAll(s, IsNumericChar);
  }

  lemma DigitsConcat(a: string, b: string)
    requires AllDigits(a) && AllDigits(b)
    ensures AllDigits(a + b)
  {
    assert forall i :: 0 <= i < |a + b| ==> IsDigit((a + b)[i]) by {
      forall i | 0 <= i < |a + b|
        ensures IsDigit((a + b)[i])
      {
        if i < |a| { assert (a + b)[i] == a[i]; } else { assert (a + b)[i] == b[i - |a|]; }
      }
    }
  }

  lemma DigitsHaveNoDot(d: string)
    requires AllDigits(d)
    ensures '.' !in d && ',' !in d && Filter(d, IsNotDot) == d
  {
    FilterKeepsAll(d, IsNotDot);
  }

  /** Digit groups joined by single separators pass the filter unchanged. */
  lemma NumericGroups(x: string, sep: string, y: string)
    requires AllNumeric(x) && AllDigits(y) && (sep == "." || sep == ",")
    ensures AllNumeric(x + sep + y)
  {
    NumericConcat(x, sep);
    NumericConcat(x + sep, y);
  }

  /** `a.b,c` with digit groups passes the character filter unchanged. */
  lemma KeepOneThousandsDot(a: string, b: string, c: string)
    requires AllDigits(a) && AllDigits(b) && AllDigits(c)
    ensures KeepNumeric(a + "." + b + "," + c) == a + "." + b + "," + c
  {
    NumericGroups(a, ".", b);
    NumericGroups(a + "." + b, ",", c);
    KeepNumericOfNumeric(a + "." + b + "," + c);
  }

  /** `a.b,c` with dot-free groups has one dot, so the collapse keeps it. */
  lemma CollapseOneThousandsDot(a: string, b: string, c: string)
    requires '.' !in a && '.' !in b && '.' !in c
    ensures CollapseDots(a + "." + b + "," + c) == a + "." + b + "," + c
  {
    FilterNoDots(a);
    CollapseKeepsLastDot(a, b + "," + c);
    assert a + "." + (b + "," + c) == a + "." + b + "," + c;
  }

  /** The clean-up of `a.b,c` with digit groups `a`, `b`, `c`: the lone
      thousands dot stays and the decimal comma becomes a second dot. */
  lemma CleanOneThousandsDot(a: string, b: string, c: string)
    requires AllDigits(a) && AllDigits(b) && AllDigits(c)
    ensures Clean(a + "." + b + "," + c) == a + "." + b + "." + c
  {
    KeepOneThousandsDot(a, b, c);
    DigitsHaveNoDot(a);
    DigitsHaveNoDot(b);
    DigitsHaveNoDot(c);
    CollapseOneThousandsDot(a, b, c);
    ReplaceCommaAfter(a + "." + b, c);
  }

  /** As written, `a.b,c` (one thousands dot, a decimal comma) normalises
      to `a.b`: parsing stops at the second dot, so `"1.234,56"` is 1.234. */
  lemma OneThousandsDotIsKept(a: string, b: string, c: string)
    requires AllDigits(a) && AllDigits(b) && AllDigits(c) && |a| > 0
    ensures NormalizeNumber(Str(a + "." + b + "," + c)) == DigitsValue(a) + FractionValue(b)
  {
    var cleaned := a + "." + b + "." + c;
    CleanOneThousandsDot(a, b, c);
    ParseSecondPoint(cleaned, a, b, c);
    NormalizeVia(a + "." + b + "," + c, cleaned, Decimal(false, a, b));
  }

  /** The dot collapse of `a.b.c,d` for dot-free groups: the first dot
      goes, the second stays. */
  lemma CollapseTwoThousandsDots(a: string, b: string, c: string, d: string)
    requires '.' !in a && '.' !in b && '.' !in c && '.' !in d
    ensures CollapseDots(a + "." + b + "." + c + "," + d) == a + b + "." + c + "," + d
  {
    var left := a + "." + b;
    var right := c + "," + d;
    assert a + "." + b + "." + c + "," + d == left + "." + right;
    CollapseKeepsLastDot(left, right);
    DropDot(a, b);
  }

  /** Removing the dots from `a.b` joins two dot-free groups. */
  lemma DropDot(a: string, b: string)
    requires '.' !in a && '.' !in b
    ensures Filter(a + "." + b, IsNotDot) == a + b
  {
    assert a + "." + b == a + ("." + b);
    FilterConcat(a, "." + b, IsNotDot);
    FilterConcat(".", b, IsNotDot);
    assert "."[1..] == [];
    FilterNoDots(a);
    FilterNoDots(b);
  }

  lemma {:induction false} FilterNoDots(s: string)
    requires '.' !in s
    ensures Filter(s, IsNotDot) == s
  {
    if |s| > 0 {
      assert s[0] in s;
      FilterNoDots(s[1..]);
      assert s == [s[0]] + s[1..];
    }
  }

  /** `a.b.c,d` with digit groups passes the character filter unchanged. */
  lemma KeepTwoThousandsDots(a: string, b: string, c: string, d: string)
    requires AllDigits(a) && AllDigits(b) && AllDigits(c) && AllDigits(d)
    ensures KeepNumeric(a + "." + b + "." + c + "," + d) == a + "." + b + "." + c + "," + d
  {
    NumericGroups(a, ".", b);
    NumericGroups(a + "." + b, ".", c);
    NumericGroups(a + "." + b + "." + c, ",", d);
    KeepNumericOfNumeric(a + "." + b + "." + c + "," + d);
  }

  /** The clean-up of `a.b.c,d`: the earlier dots are dropped. */
  lemma CleanTwoThousandsDots(a: string, b: string, c: string, d: string)
    requires AllDigits(a) && AllDigits(b) && AllDigits(c) && AllDigits(d)
    ensures Clean(a + "." + b + "." + c + "," + d) == a + b + "." + c + "." + d
  {
    KeepTwoThousandsDots(a, b, c, d);
    DigitsHaveNoDot(a);
    DigitsHaveNoDot(b);
    DigitsHaveNoDot(c);
    DigitsHaveNoDot(d);
    CollapseTwoThousandsDots(a, b, c, d);
    DigitsConcat(a, b);
    DigitsHaveNoDot(a + b);
    DigitsHaveNoDot(c);
    ReplaceCommaAfter(a + b + "." + c, d);
  }

  /** With two or more thousands dots the groups do merge, `a.b.c,d`
      normalising to `ab.c` (`"1.234.567,89"` is 1234.567). */
  lemma TwoThousandsDotsMerge(a: string, b: string, c: string, d: string)
    requires AllDigits(a) && AllDigits(b) && AllDigits(c) && AllDigits(d) && |a| > 0
    ensures NormalizeNumber(Str(a + "." + b + "." + c + "," + d)) ==
            DigitsValue(a + b) + FractionValue(c)
  {
    var cleaned := a + b + "." + c + "." + d;
    CleanTwoThousandsDots(a, b, c, d);
    DigitsConcat(a, b);
    ParseSecondPoint(cleaned, a + b, c, d);
    NormalizeVia(a + "." + b + "." + c + "," + d, cleaned, Decimal(false, a + b, c));
  }

  lemma CleanDecimalComma(a: string, c: string)
    requires AllDigits(a) && AllDigits(c)
    ensures Clean(a + "," + c) == a + "." + c
  {
    var s := a + "," + c;
    NumericGroups(a, ",", c);
    KeepNumericOfNumeric(s);
    DigitsHaveNoDot(a);
    DigitsHaveNoDot(c);
    CollapseWithoutDots(s);
    ReplaceCommaAfter(a, c);
  }

  /** Without thousands dots a decimal comma is read as intended. */
  lemma DecimalCommaIsRead(a: string, c: string)
    requires AllDigits(a) && AllDigits(c) && |a| > 0
    ensures NormalizeNumber(Str(a + "," + c)) == DigitsValue(a) + FractionValue(c)
  {
    CleanDecimalComma(a, c);
    ParseDigitsPointDigits(a + "." + c, a, c, "");
    NormalizeVia(a + "," + c, a + "." + c, Decimal(false, a, c));
  }

  // ---------------------------------------------------------------------------
  // Worked values
  // ---------------------------------------------------------------------------

  lemma DigitsOf100()
    ensures DigitsValue("100") == 100.0
  {
    assert "100"[..2] == "10";
    assert "10"[..1] == "1";
    assert "1"[..0] == "";
  }

  lemma FractionOf000()
    ensures FractionValue("000") == 0.0
  {
    assert "000"[..2] == "00";
    assert "00"[..1] == "0";
    assert "0"[..0] == "";
  }

  lemma DigitsOf1()
    ensures DigitsValue("1") == 1.0
  {
    assert "1"[..0] == "";
  }

  lemma DigitsOf2()
    ensures DigitsValue("2") == 2.0
  {
    assert "2"[..0] == "";
  }

  lemma FractionOf500()
    ensures FractionValue("500") == 0.5
  {
    assert "500"[..2] == "50";
    assert "50"[..1] == "5";
    assert "5"[..0] == "";
    assert Pow10(3) == 1000.0;
  }

  lemma FractionOf234()
    ensures FractionValue("234") == 0.234
  {
    assert "234"[..2] == "23";
    assert "23"[..1] == "2";
    assert "2"[..0] == "";
    assert Pow10(3) == 1000.0;
  }

  lemma DigitsOf1234()
    ensures DigitsValue("1234") == 1234.0
  {
    assert "1234"[..3] == "123";
    assert "123"[..2] == "12";
    assert "12"[..1] == "1";
    assert "1"[..0] == "";
  }

  lemma FractionOf56()
    ensures FractionValue("56") == 0.56
  {
    assert "56"[..1] == "5";
    assert "5"[..0] == "";
    assert Pow10(2) == 100.0;
  }

  /** The form's own placeholder `"100.000,00"` reads as 100, not 100000. */
  lemma PlaceholderReadsAsHundred()
    ensures NormalizeNumber(Str("100.000,00")) == 100.0
  {
    assert "100" + "." + "000" + "," + "00" == "100.000,00";
    OneThousandsDotIsKept("100", "000", "00");
    DigitsOf100();
    FractionOf000();
  }

  /** `"1.234,56"` reads as 1.234, not 1234.56. */
  lemma ThousandsExampleReadsAsDecimal()
    ensures NormalizeNumber(Str("1.234,56")) == 1.234
  {
    assert "1" + "." + "234" + "," + "56" == "1.234,56";
    OneThousandsDotIsKept("1", "234", "56");
    DigitsOf1();
    FractionOf234();
  }

  /** `"2.500,00"` reads as 2.5. */
  lemma ExampleAmountReadsAsTwoAndAHalf()
    ensures NormalizeNumber(Str("2.500,00")) == 2.5
  {
    assert "2" + "." + "500" + "," + "00" == "2.500,00";
    OneThousandsDotIsKept("2", "500", "00");
    DigitsOf2();
    FractionOf500();
  }

  /** `"1234,56"`, with no thousands dot, reads as 1234.56. */
  lemma DecimalCommaExample()
    ensures NormalizeNumber(Str("1234,56")) == 1234.56
  {
    assert "1234" + "," + "56" == "1234,56";
    DecimalCommaIsRead("1234", "56");
    DigitsOf1234();
    FractionOf56();
  }
}
