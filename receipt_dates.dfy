/** `formatDate` of the two receipt screens: the integer parts a "DD.MM.YY"
    date string hands to `new Date(year, month, day)`. The locale formatting of
    the resulting date is not part of this model. */
module ReceiptDates {
  import opened JsStrings

  datatype DateParts =
    | NotAvailable
    | DayMonthYear(day: Option<int>, month: Option<int>, year: Option<int>)
    | Unparsed(text: string)

  function MinusOne(v: Option<int>): Option<int> {
    match v
    case None => None
    case Some(n) => Some(n - 1)
  }

  /** "N/A" for the empty string; for three dot-separated parts, the day, the
      zero-based month and "20" followed by the year part; otherwise the text is
      handed to the date parser as it is. */
  function FormatDateParts(s: string): (d: DateParts)
    ensures d.NotAvailable? <==> s == ""
    ensures d.DayMonthYear? <==> s != "" && CountChar(s, '.') == 2
  {
    if s == "" then NotAvailable
    else
      var parts := SplitDots(s);
      if |parts| == 3 then DayMonthYear(ParseInt(parts[0]), MinusOne(ParseInt(parts[1])), ParseInt("20" + parts[2]))
      else Unparsed(s)
  }

  lemma {:induction false} DecimalHasNoDot(s: string)
    requires AllDecimal(s)
    ensures CountChar(s, '.') == 0
  {
    if s != [] {
      DecimalHasNoDot(s[1..]);
    }
  }

  lemma CenturyValue(yy: string)
    requires |yy| == 2 && AllDecimal(yy)
    ensures AllDecimal("20" + yy)
    ensures DigitsValue("20" + yy, 10) == 2000 + DigitsValue(yy, 10)
  {
    DigitsValueAppend("20", yy, 10);
    assert "20"[..1] == "2";
    assert DigitsValue("20", 10) == 20;
    assert Pow(10, |yy|) == 100;
  }

  /** `parseInt("20" + yy)` for a two-digit year part. */
  lemma CenturyYear(yy: string)
    requires |yy| == 2 && AllDecimal(yy)
    ensures ParseInt("20" + yy) == Some(2000 + DigitsValue(yy, 10))
  {
    CenturyValue(yy);
    ParseIntDecimal("20" + yy);
  }

  /** Three dot-free parts joined by dots are read as day, month and year. */
  lemma FormatDateThreeParts(a: string, b: string, c: string)
    requires CountChar(a, '.') == 0 && CountChar(b, '.') == 0 && CountChar(c, '.') == 0
    ensures FormatDateParts(a + "." + b + "." + c) ==
      DayMonthYear(ParseInt(a), MinusOne(ParseInt(b)), ParseInt("20" + c))
  {
    var s := a + "." + b + "." + c;
    SplitThree(a, b, c);
    assert s != "" by { assert |s| > |a|; }
  }

  /** "DD.MM.YY" with two-digit year gives day DD, month index MM - 1 and year 2000 + YY. */
  lemma FormatDateDDMMYY(dd: string, mm: string, yy: string)
    requires |dd| > 0 && AllDecimal(dd) && |mm| > 0 && AllDecimal(mm)
    requires |yy| == 2 && AllDecimal(yy)
    ensures FormatDateParts(dd + "." + mm + "." + yy) ==
      DayMonthYear(Some(DigitsValue(dd, 10)), Some(DigitsValue(mm, 10) - 1), Some(2000 + DigitsValue(yy, 10)))
  {
    DecimalHasNoDot(dd);
    DecimalHasNoDot(mm);
    DecimalHasNoDot(yy);
    FormatDateThreeParts(dd, mm, yy);
    DatePartValues(dd, mm, yy);
  }

  lemma DatePartValues(dd: string, mm: string, yy: string)
    requires |dd| > 0 && AllDecimal(dd) && |mm| > 0 && AllDecimal(mm)
    requires |yy| == 2 && AllDecimal(yy)
    ensures DayMonthYear(ParseInt(dd), MinusOne(ParseInt(mm)), ParseInt("20" + yy)) ==
      DayMonthYear(Some(DigitsValue(dd, 10)), Some(DigitsValue(mm, 10) - 1), Some(2000 + DigitsValue(yy, 10)))
  {
    ParseIntDecimal(dd);
    MonthIndex(mm);
    CenturyYear(yy);
  }

  /** `parseInt(mm) - 1` for a month part of decimal digits. */
  lemma MonthIndex(mm: string)
    requires |mm| > 0 && AllDecimal(mm)
    ensures MinusOne(ParseInt(mm)).Some? && MinusOne(ParseInt(mm)).value == DigitsValue(mm, 10) - 1
  {
    ParseIntDecimal(mm);
  }
}
