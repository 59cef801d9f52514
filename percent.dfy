/**
 * The numeric normaliser `clean_percentage`: turns a weight cell written with
 * a decimal comma ("12,34") into a number, and degrades to 0 instead of failing.
 *
 * A cell is `None` when the table has no value there. The accepted syntax is the
 * plain decimal subset of Python's `float`: an optional sign followed by digits
 * with at most one decimal point, and at least one digit in all.
 */
module Percent {
  import opened Wrappers

  /** The characters below 128 that `str.strip()` removes. */
  predicate IsSpace(c: char)
  {
    c == ' ' || '\t' <= c <= '\r' || '\U{1C}' <= c <= '\U{1F}'
  }

  predicate AllSpaces(s: string)
  {
    forall k :: 0 <= k < |s| ==> IsSpace(s[k])
  }

  function TrimStart(s: string): (r: string)
    ensures |r| <= |s| && r == s[|s| - |r|..]
  {
    if |s| > 0 && IsSpace(s[0]) then TrimStart(s[1..]) else s
  }

  function TrimEnd(s: string): (r: string)
    ensures |r| <= |s| && r == s[..|r|]
  {
    if |s| > 0 && IsSpace(s[|s| - 1]) then TrimEnd(s[..|s| - 1]) else s
  }

  /** `str.strip()`: leading and trailing whitespace removed. */
  function Strip(s: string): string
  {
    TrimEnd(TrimStart(s))
  }

  /** `.replace(',', '.')`: every comma becomes a point. */
  function ReplaceCommas(s: string): (r: string)
    ensures |r| == |s|
  {
    seq(|s|, k requires 0 <= k < |s| => if s[k] == ',' then '.' else s[k])
  }

  /** The text handed to `float` once the cell is present and non-empty. */
  function Normalize(s: string): string
  {
    ReplaceCommas(Strip(s))
  }

  predicate IsDigit(c: char)
  {
    '0' <= c <= '9'
  }

  predicate AllDigits(s: string)
  {
    forall k :: 0 <= k < |s| ==> IsDigit(s[k])
  }

  function DigitValue(c: char): nat
    requires IsDigit(c)
  {
    c as int - '0' as int
  }

  /** The value of a string of decimal digits, most significant first. */
  function DigitsValue(s: string): nat
    requires AllDigits(s)
  {
    if s == [] then 0 else DigitsValue(s[..|s| - 1]) * 10 + DigitValue(s[|s| - 1])
  }

  function Pow10(n: nat): (r: nat)
    ensures r > 0
  {
    if n == 0 then 1 else 10 * Pow10(n - 1)
  }

  /** The value of the digits after the decimal point. */
  function FractionValue(s: string): real
    requires AllDigits(s)
  {
    DigitsValue(s) as real / Pow10(|s|) as real
  }

  /** Length of the longest prefix of `s` made of digits. */
  function LeadingDigits(s: string): (n: nat)
    ensures n <= |s| && AllDigits(s[..n])
    ensures n < |s| ==> !IsDigit(s[n])
  {
    if s == [] || !IsDigit(s[0]) then 0
    else
      var n := 1 + LeadingDigits(s[1..]);
      assert s[..n] == [s[0]] + s[1..][..n - 1];
      n
  }

  /** A decimal literal as read: its sign, the digits before the point and those after it. */
  datatype Decimal = Decimal(negative: bool, whole: string, fraction: string)
  {
    /** At least one digit, and nothing but digits around the point. */
    predicate WellFormed()
    {
      AllDigits(whole) && AllDigits(fraction) && |whole| + |fraction| > 0
    }

    /** The number the literal denotes. */
    function Value(): real
      requires WellFormed()
    {
      (if negative then -1.0 else 1.0) * (DigitsValue(whole) as real + FractionValue(fraction))
    }
  }

  /** An unsigned decimal: `digits`, `digits.`, `digits.digits` or `.digits`. */
  function ParseUnsigned(s: string, negative: bool): Option<Decimal>
  {
    var n := LeadingDigits(s);
    if n == |s| then
      if n > 0 then Some(Decimal(negative, s, "")) else None
    else if s[n] == '.' && AllDigits(s[n + 1..]) && (n > 0 || n + 1 < |s|) then
      Some(Decimal(negative, s[..n], s[n + 1..]))
    else
      None
  }

  /** An optionally signed decimal; `None` when `float` would raise. */
  function ParseDecimal(s: string): (r: Option<Decimal>)
    ensures r.Some? ==> r.value.WellFormed()
    ensures r.Some? ==> (r.value.negative <==> |s| > 0 && s[0] == '-')
  {
    if |s| > 0 && (s[0] == '+' || s[0] == '-') then ParseUnsigned(s[1..], s[0] == '-')
    else ParseUnsigned(s, false)
  }

  /**
   * `clean_percentage`: never fails; a missing, empty or unparseable cell is 0,
   * so a non-zero weight comes only from a present cell that `float` accepts
   * once stripped and with its commas made points.
   */
  function CleanPercentage(value: Option<string>): (r: real)
    ensures value.None? || value == Some("") ==> r == 0.0
    ensures r != 0.0 ==> value.Some? && ParseDecimal(Normalize(value.value)).Some?
  {
    match value
    case None => 0.0
    case Some(s) =>
      if s == "" then 0.0
      else
        match ParseDecimal(Normalize(s))
        case None => 0.0
        case Some(d) => d.Value()
  }

  /** A literal written with a decimal comma, as the exported tables do. */
  function CommaText(d: Decimal): string
  {
    (if d.negative then "-" else "") + d.whole + "," + d.fraction
  }

  /** The literal in the syntax `float` reads. */
  function PointText(d: Decimal): string
  {
    (if d.negative then "-" else "") + d.whole + "." + d.fraction
  }

  predicate IsSeparator(c: char)
  {
    c == ',' || c == '.'
  }

  lemma {:induction false} TrimStartSkipsSpaces(lead: string, t: string)
    requires AllSpaces(lead)
    requires t == [] || !IsSpace(t[0])
    ensures TrimStart(lead + t) == t
  {
    if lead != [] {
      assert (lead + t)[1..] == lead[1..] + t;
      TrimStartSkipsSpaces(lead[1..], t);
    }
  }

  lemma {:induction false} TrimEndSkipsSpaces(t: string, trail: string)
    requires AllSpaces(trail)
    requires t == [] || !IsSpace(t[|t| - 1])
    ensures TrimEnd(t + trail) == t
  {
    if trail != [] {
      var u := trail[..|trail| - 1];
      assert (t + trail)[..|t + trail| - 1] == t + u;
      TrimEndSkipsSpaces(t, u);
    }
  }

  lemma {:induction false} LeadingDigitsStopsAt(w: string, rest: string)
    requires AllDigits(w)
    requires rest != [] && !IsDigit(rest[0])
    ensures LeadingDigits(w + rest) == |w|
  {
    if w != [] {
      assert (w + rest)[1..] == w[1..] + rest;
      LeadingDigitsStopsAt(w[1..], rest);
    }
  }

  lemma StripPadded(lead: string, text: string, trail: string)
    requires AllSpaces(lead) && AllSpaces(trail)
    requires text != [] && !IsSpace(text[0]) && !IsSpace(text[|text| - 1])
    ensures Strip(lead + text + trail) == text
  {
    assert lead + text + trail == lead + (text + trail);
    TrimStartSkipsSpaces(lead, text + trail);
    TrimEndSkipsSpaces(text, trail);
  }

  lemma ParseUnsignedPoint(whole: string, fraction: string, negative: bool)
    requires Decimal(negative, whole, fraction).WellFormed()
    ensures ParseUnsigned(whole + "." + fraction, negative) == Some(Decimal(negative, whole, fraction))
  {
    var u := whole + "." + fraction;
    var n := |whole|;
    assert u == whole + ("." + fraction);
    LeadingDigitsStopsAt(whole, "." + fraction);
    assert u[..n] == whole;
    assert u[n + 1..] == fraction;
  }

  /** Round trip: every well-formed literal, written out, is read back as itself. */
  lemma ParsePointText(d: Decimal)
    requires d.WellFormed()
    ensures ParseDecimal(PointText(d)) == Some(d)
  {
    var sign := if d.negative then "-" else "";
    ParsePointComplete(sign, d);
  }

  /** The sign a text starts with: `"-"`, `"+"` or nothing. */
  function SignOf(s: string): string
  {
    if |s| > 0 && (s[0] == '+' || s[0] == '-') then s[..1] else ""
  }

  /** An unsigned literal is accepted only as digits, optionally a point and more digits. */
  lemma ParseUnsignedSound(u: string, negative: bool, d: Decimal)
    requires ParseUnsigned(u, negative) == Some(d)
    ensures d.negative == negative
    ensures u == d.whole + "." + d.fraction || (d.fraction == "" && u == d.whole)
  {
    var n := LeadingDigits(u);
    if n < |u| {
      assert u == u[..n] + "." + u[n + 1..];
    }
  }

  /** Putting a sign in front of a literal's text keeps its shape. */
  lemma SignedShape(sign: string, u: string, d: Decimal)
    requires u == d.whole + "." + d.fraction || (d.fraction == "" && u == d.whole)
    ensures sign + u == sign + d.whole + "." + d.fraction || (d.fraction == "" && sign + u == sign + d.whole)
  {
    if u == d.whole + "." + d.fraction {
      assert sign + u == sign + d.whole + "." + d.fraction;
    }
  }

  /** An accepted literal is negative exactly when its text starts with a minus. */
  lemma ParseSignSound(s: string, d: Decimal)
    requires ParseDecimal(s) == Some(d)
    ensures d.negative <==> SignOf(s) == "-"
  {
    if |s| > 0 && (s[0] == '+' || s[0] == '-') {
      assert SignOf(s) == [s[0]];
      ParseUnsignedSound(s[1..], s[0] == '-', d);
    } else {
      ParseUnsignedSound(s, false, d);
    }
  }

  /** An accepted text is its sign, the integer digits and, if any, a point and the fraction digits. */
  lemma ParseShapeSound(s: string, d: Decimal)
    requires ParseDecimal(s) == Some(d)
    ensures s == SignOf(s) + d.whole + "." + d.fraction || (d.fraction == "" && s == SignOf(s) + d.whole)
  {
    if |s| > 0 && (s[0] == '+' || s[0] == '-') {
      assert s == SignOf(s) + s[1..];
      ParseUnsignedSound(s[1..], s[0] == '-', d);
      SignedShape(SignOf(s), s[1..], d);
    } else {
      ParseUnsignedSound(s, false, d);
      assert SignOf(s) + s == s;
    }
  }

  /**
   * Soundness of the grammar: a text is accepted only when it is a sign, the
   * integer digits, then either nothing or a point and the fraction digits;
   * the literal is negative exactly when the sign is a minus.
   */
  lemma ParseSound(s: string, d: Decimal)
    requires ParseDecimal(s) == Some(d)
    ensures d.WellFormed()
    ensures d.negative <==> SignOf(s) == "-"
    ensures s == SignOf(s) + d.whole + "." + d.fraction || (d.fraction == "" && s == SignOf(s) + d.whole)
  {
    ParseSignSound(s, d);
    ParseShapeSound(s, d);
  }

  /** The sign texts `float` accepts in front of a literal. */
  predicate IsSign(sign: string)
  {
    sign == "" || sign == "+" || sign == "-"
  }

  /** A sign in front of an unsigned text leaves only the sign's effect on the result. */
  lemma ParseSigned(sign: string, u: string, negative: bool)
    requires IsSign(sign) && (negative <==> sign == "-")
    requires u == [] || (u[0] != '+' && u[0] != '-')
    ensures ParseDecimal(sign + u) == ParseUnsigned(u, negative)
  {
    if sign == "" {
      assert sign + u == u;
    } else {
      assert (sign + u)[0] == sign[0];
      assert (sign + u)[1..] == u;
    }
  }

  /** The unsigned text of a literal starts with a digit or the point, never a sign. */
  lemma UnsignedStart(whole: string, fraction: string)
    requires AllDigits(whole)
    ensures (whole + "." + fraction)[0] != '+' && (whole + "." + fraction)[0] != '-'
  {
    assert (whole + "." + fraction)[0] == if whole != [] then whole[0] else '.';
  }

  lemma SignedPointText(sign: string, whole: string, fraction: string)
    ensures sign + whole + "." + fraction == sign + (whole + "." + fraction)
  {
  }

  lemma ParsePointComplete(sign: string, d: Decimal)
    requires IsSign(sign) && (d.negative <==> sign == "-") && d.WellFormed()
    ensures ParseDecimal(sign + d.whole + "." + d.fraction) == Some(d)
  {
    ParseUnsignedPoint(d.whole, d.fraction, d.negative);
    UnsignedStart(d.whole, d.fraction);
    ParseSigned(sign, d.whole + "." + d.fraction, d.negative);
    SignedPointText(sign, d.whole, d.fraction);
  }

  lemma ParseIntegerComplete(sign: string, d: Decimal)
    requires IsSign(sign) && (d.negative <==> sign == "-") && d.WellFormed() && d.fraction == ""
    ensures ParseDecimal(sign + d.whole) == Some(d)
  {
    assert LeadingDigits(d.whole) == |d.whole|;
    ParseSigned(sign, d.whole, d.negative);
  }

  /**
   * Completeness of the grammar: every well-formed literal, written with any
   * of the three signs and a point, or with no point when it has no fraction
   * digits, is read as itself.
   */
  lemma ParseComplete(sign: string, d: Decimal)
    requires IsSign(sign) && (d.negative <==> sign == "-") && d.WellFormed()
    ensures ParseDecimal(sign + d.whole + "." + d.fraction) == Some(d)
    ensures d.fraction == "" ==> ParseDecimal(sign + d.whole) == Some(d)
  {
    ParsePointComplete(sign, d);
    if d.fraction == "" {
      ParseIntegerComplete(sign, d);
    }
  }

  /** Commas in a signed literal's text become points, and nothing else changes. */
  lemma ReplaceSeparator(sign: string, d: Decimal, sep: char)
    requires IsSign(sign) && d.WellFormed() && (sep == ',' || sep == '.')
    ensures ReplaceCommas(sign + d.whole + [sep] + d.fraction) == sign + d.whole + "." + d.fraction
    ensures ReplaceCommas(sign + d.whole) == sign + d.whole
  {
    var c := sign + d.whole + [sep] + d.fraction;
    var p := sign + d.whole + "." + d.fraction;
    var o := |sign|;
    forall k | 0 <= k < |c|
      ensures ReplaceCommas(c)[k] == p[k]
    {
      if k < o {
        assert c[k] == sign[k] && p[k] == sign[k];
      } else if k < o + |d.whole| {
        assert c[k] == d.whole[k - o] && p[k] == d.whole[k - o];
      } else if k > o + |d.whole| {
        assert c[k] == d.fraction[k - o - |d.whole| - 1] && p[k] == d.fraction[k - o - |d.whole| - 1];
      }
    }
    var w := sign + d.whole;
    forall k | 0 <= k < |w|
      ensures ReplaceCommas(w)[k] == w[k]
    {
      if k >= o {
        assert w[k] == d.whole[k - o];
      }
    }
  }

  /**
   * A padded weight cell holding a well-formed literal, with any sign and
   * either separator, or with no separator when it has no fraction digits,
   * is read as the number the literal denotes.
   */
  lemma CleanSignedDecimal(lead: string, sign: string, d: Decimal, sep: char, trail: string)
    requires AllSpaces(lead) && AllSpaces(trail)
    requires IsSign(sign) && (d.negative <==> sign == "-") && d.WellFormed() && (sep == ',' || sep == '.')
    ensures CleanPercentage(Some(lead + sign + d.whole + [sep] + d.fraction + trail)) == d.Value()
    ensures d.fraction == "" ==> CleanPercentage(Some(lead + sign + d.whole + trail)) == d.Value()
  {
    ReplaceSeparator(sign, d, sep);
    ParseComplete(sign, d);
    CleanSeparated(lead, sign, d, sep, trail);
    if d.fraction == "" {
      CleanInteger(lead, sign, d, trail);
    }
  }

  lemma CleanSeparated(lead: string, sign: string, d: Decimal, sep: char, trail: string)
    requires AllSpaces(lead) && AllSpaces(trail)
    requires IsSign(sign) && d.WellFormed() && (sep == ',' || sep == '.')
    ensures Normalize(lead + sign + d.whole + [sep] + d.fraction + trail) == ReplaceCommas(sign + d.whole + [sep] + d.fraction)
  {
    var text := sign + d.whole + [sep] + d.fraction;
    assert text[0] == if sign != "" then sign[0] else if d.whole != [] then d.whole[0] else sep;
    assert text[|text| - 1] == if d.fraction != [] then d.fraction[|d.fraction| - 1] else sep;
    assert lead + sign + d.whole + [sep] + d.fraction + trail == lead + text + trail;
    StripPadded(lead, text, trail);
  }

  lemma CleanInteger(lead: string, sign: string, d: Decimal, trail: string)
    requires AllSpaces(lead) && AllSpaces(trail)
    requires IsSign(sign) && d.WellFormed() && d.fraction == ""
    ensures Normalize(lead + sign + d.whole + trail) == ReplaceCommas(sign + d.whole)
  {
    var text := sign + d.whole;
    assert text[|text| - 1] == d.whole[|d.whole| - 1];
    assert text[0] == if sign != "" then sign[0] else d.whole[0];
    assert lead + sign + d.whole + trail == lead + text + trail;
    StripPadded(lead, text, trail);
  }

  /**
   * Round trip: a weight written with a decimal comma, padded with any
   * whitespace, is read back as the number it denotes.
   */
  lemma CommaDecimalRoundTrip(lead: string, d: Decimal, trail: string)
    requires AllSpaces(lead) && AllSpaces(trail) && d.WellFormed()
    ensures CleanPercentage(Some(lead + CommaText(d) + trail)) == d.Value()
  {
    var sign := if d.negative then "-" else "";
    assert lead + CommaText(d) + trail == lead + sign + d.whole + [','] + d.fraction + trail;
    CleanSignedDecimal(lead, sign, d, ',', trail);
  }

  /** "12,34" is read as 12.34. */
  lemma CleanDecimalComma()
    ensures CleanPercentage(Some("12,34")) == 12.34
  {
    var d := Decimal(false, "12", "34");
    assert "12"[..1] == "1" && "34"[..1] == "3" && "1"[..0] == "" && "3"[..0] == "";
    assert DigitsValue("1") == 1 && DigitsValue("3") == 3;
    assert DigitsValue("12") == 12;
    assert DigitsValue("34") == 34;
    assert Pow10(2) == 100;
    assert d.WellFormed();
    assert d.Value() == 12.34;
    assert "12,34" == "" + CommaText(d) + "";
    CommaDecimalRoundTrip("", d, "");
  }

  /** "1,234,5" becomes "1.234.5", which `float` rejects, so it is read as 0. */
  lemma CleanThousandsSeparator()
    ensures CleanPercentage(Some("1,234,5")) == 0.0
  {
    assert TrimStart("1,234,5") == "1,234,5";
    assert TrimEnd("1,234,5") == "1,234,5";
    SecondSeparatorRejected("1,234,5", 1, 5);
  }

  /** Missing, empty and non-numeric cells are all read as 0. */
  lemma CleanMissingOrGarbage()
    ensures CleanPercentage(None) == 0.0
    ensures CleanPercentage(Some("")) == 0.0
    ensures CleanPercentage(Some("n/a")) == 0.0
  {
    assert TrimStart("n/a") == "n/a";
    assert TrimEnd("n/a") == "n/a";
    assert Normalize("n/a") == "n/a";
    assert LeadingDigits("n/a") == 0;
  }

  lemma {:induction false} UnsignedRejectsTwoPoints(t: string, negative: bool, i: nat, j: nat)
    requires i < j < |t| && t[i] == '.' && t[j] == '.'
    ensures ParseUnsigned(t, negative) == None
  {
  }

  /**
   * A cell with two separators (comma or point) in it, after trimming, is
   * unparseable once every comma is a point, so it is read as 0.
   */
  lemma SecondSeparatorRejected(s: string, i: nat, j: nat)
    requires i < j < |Strip(s)|
    requires IsSeparator(Strip(s)[i]) && IsSeparator(Strip(s)[j])
    ensures CleanPercentage(Some(s)) == 0.0
  {
    var t := Normalize(s);
    assert t[i] == '.' && t[j] == '.';
    if |t| > 0 && (t[0] == '+' || t[0] == '-') {
      UnsignedRejectsTwoPoints(t[1..], t[0] == '-', i - 1, j - 1);
    } else {
      UnsignedRejectsTwoPoints(t, false, i, j);
    }
  }

  lemma {:induction false} TrimStartCommutes(s: string)
    ensures TrimStart(ReplaceCommas(s)) == ReplaceCommas(TrimStart(s))
  {
    if |s| > 0 && IsSpace(s[0]) {
      assert ReplaceCommas(s)[1..] == ReplaceCommas(s[1..]);
      TrimStartCommutes(s[1..]);
    }
  }

  lemma {:induction false} TrimEndCommutes(s: string)
    ensures TrimEnd(ReplaceCommas(s)) == ReplaceCommas(TrimEnd(s))
  {
    if |s| > 0 && IsSpace(s[|s| - 1]) {
      assert ReplaceCommas(s)[..|s| - 1] == ReplaceCommas(s[..|s| - 1]);
      TrimEndCommutes(s[..|s| - 1]);
    }
  }

  lemma ReplaceCommasIdempotent(s: string)
    ensures ReplaceCommas(ReplaceCommas(s)) == ReplaceCommas(s)
  {
  }

  lemma NormalizeReplaceCommas(s: string)
    ensures Normalize(ReplaceCommas(s)) == Normalize(s)
  {
    TrimStartCommutes(s);
    TrimEndCommutes(TrimStart(s));
    ReplaceCommasIdempotent(Strip(s));
  }

  /**
   * Comma and point are interchangeable decimal separators: writing every
   * comma of a cell as a point does not change the number read from it.
   */
  lemma CommaAndPointAgree(s: string)
    ensures CleanPercentage(Some(ReplaceCommas(s))) == CleanPercentage(Some(s))
  {
    NormalizeReplaceCommas(s);
  }
}
