/**
 * The date parser of the tour log operations: `LocalDate.parse` with the
 * pattern "yyyy-MM-dd" (strict parsing, SMART resolver), then `atStartOfDay`.
 *
 * The parse phase reads the fields the way java.time's number parsers do:
 * "yyyy" reads a sign and then up to 19 digits greedily, needs at least four
 * of them, and takes a '+' exactly when more than four digits follow it;
 * "MM" and "dd" read exactly two digits. The resolve phase then checks the
 * ranges and moves a day past the end of its month back to its last day.
 */
module Dates {
  import opened Errors

  datatype LocalDate = LocalDate(year: int, month: int, day: int)

  datatype LocalDateTime = LocalDateTime(date: LocalDate, hour: int, minute: int, second: int)

  /** `LocalDate.atStartOfDay`: the same day at 00:00. */
  function AtStartOfDay(d: LocalDate): LocalDateTime {
    LocalDateTime(d, 0, 0, 0)
  }

  /** `Year.MAX_VALUE`, the largest year a `LocalDate` holds. */
  const MaxYear: int := 999_999_999

  /** The most digits the "yyyy" field reads. */
  const MaxYearWidth: nat := 19

  predicate IsDigit(c: char) {
    '0' <= c <= '9'
  }

  predicate AllDigits(s: string) {
    forall i :: 0 <= i < |s| ==> IsDigit(s[i])
  }

  function DigitValue(c: char): nat
    requires IsDigit(c)
  {
    c as int - '0' as int
  }

  /** The decimal number a digit string spells, most significant digit first. */
  function DigitsValue(s: string): nat
    requires AllDigits(s)
    decreases |s|
  {
    if s == [] then 0 else 10 * DigitsValue(s[..|s| - 1]) + DigitValue(s[|s| - 1])
  }

  /** `Year.isLeap`: the proleptic Gregorian rule. */
  predicate IsLeapYear(y: int) {
    y % 4 == 0 && (y % 100 != 0 || y % 400 == 0)
  }

  function MonthLength(y: int, m: int): (n: int)
    requires 1 <= m <= 12
    ensures 28 <= n <= 31
    ensures n == 31 <==> m in {1, 3, 5, 7, 8, 10, 12}
    ensures n == 29 <==> m == 2 && IsLeapYear(y)
  {
    if m == 2 then (if IsLeapYear(y) then 29 else 28)
    else if m == 4 || m == 6 || m == 9 || m == 11 then 30
    else 31
  }

  function Min(a: int, b: int): int {
    if a <= b then a else b
  }

  /** A day that exists in the proleptic Gregorian calendar, within `LocalDate`'s years from 1. */
  predicate IsCalendarDate(d: LocalDate) {
    1 <= d.year <= MaxYear && 1 <= d.month <= 12 && 1 <= d.day <= MonthLength(d.year, d.month)
  }

  /** The end of the longest run of at most `limit` digits that starts at `from`. */
  function ScanDigits(s: string, from: nat, limit: nat): (end: nat)
    requires from <= |s|
    ensures from <= end <= |s| && end - from <= limit
    ensures AllDigits(s[from..end])
    ensures end == |s| || end - from == limit || !IsDigit(s[end])
    decreases limit
  {
    if limit == 0 || from == |s| || !IsDigit(s[from]) then from
    else
      ScanDigits(s, from + 1, limit - 1)
  }

  /** The fields the parse phase yields, before they are resolved into a date. */
  datatype ParsedFields = ParsedFields(yearOfEra: int, month: int, day: int)

  /** The parse phase of "yyyy-MM-dd": `None` where java.time reports a parse error. */
  function ParseFields(s: string): (r: Option<ParsedFields>)
    ensures r.Some? ==> |s| >= 10 && s[|s| - 6] == '-' && s[|s| - 3] == '-'
    ensures r.Some? ==> AllDigits(MonthText(s)) && r.value.month == DigitsValue(MonthText(s))
    ensures r.Some? ==> AllDigits(DayText(s)) && r.value.day == DigitsValue(DayText(s))
  {
    var signed := |s| > 0 && (s[0] == '+' || s[0] == '-');
    var start := if signed then 1 else 0;
    var end := ScanDigits(s, start, MaxYearWidth);
    var width := end - start;
    if width < 4 then None
    else if !signed && width > 4 then None
    else if signed && s[0] == '+' && width == 4 then None
    else if signed && s[0] == '-' && DigitsValue(s[start..end]) == 0 then None
    else if |s| != end + 6 || s[end] != '-' || s[end + 3] != '-' then None
    else if !AllDigits(s[end + 1..end + 3]) || !AllDigits(s[end + 4..]) then None
    else
      var magnitude: int := DigitsValue(s[start..end]);
      Some(ParsedFields(if s[0] == '-' then -magnitude else magnitude,
                        DigitsValue(s[end + 1..end + 3]), DigitsValue(s[end + 4..])))
  }

  /**
   * The SMART resolver: the year of era, the month and the day of month must
   * lie in their ranges, and a day past the end of its month becomes the
   * month's last day.
   */
  function Resolve(p: ParsedFields): (r: Option<LocalDate>)
    ensures r.Some? <==> 1 <= p.yearOfEra <= MaxYear && 1 <= p.month <= 12 && 1 <= p.day <= 31
    ensures r.Some? ==> IsCalendarDate(r.value) && r.value.year == p.yearOfEra && r.value.month == p.month
    ensures r.Some? ==> r.value.day == p.day || (r.value.day < p.day && r.value.day == MonthLength(p.yearOfEra, p.month))
  {
    if !(1 <= p.yearOfEra <= MaxYear) then None
    else if !(1 <= p.month <= 12) || !(1 <= p.day <= 31) then None
    else Some(LocalDate(p.yearOfEra, p.month, Min(p.day, MonthLength(p.yearOfEra, p.month))))
  }

  /** `parseDateTimeOrThrow`: the day the input names, at 00:00, or an IllegalArgumentException. */
  function ParseDateTimeOrThrow(input: string): (r: Result<LocalDateTime>)
    ensures r.Failure? ==> r.error == IllegalArgument(InvalidDateFormat)
    ensures r.Success? ==> IsCalendarDate(r.value.date) && r.value == AtStartOfDay(r.value.date)
  {
    match ParseFields(input)
    case None => Failure(IllegalArgument(InvalidDateFormat))
    case Some(p) =>
      match Resolve(p)
      case None => Failure(IllegalArgument(InvalidDateFormat))
      case Some(d) => Success(AtStartOfDay(d))
  }

  // ---------------------------------------------------------------------------
  // The accepted inputs, stated by their shape rather than by the scanner.

  /** Year text the "yyyy" field takes: four digits, or '+' and five to nineteen digits, naming 1 to `MaxYear`. */
  predicate IsYearText(y: string) {
    || (|y| == 4 && AllDigits(y) && 1 <= DigitsValue(y))
    || (5 <= |y| - 1 <= MaxYearWidth && y[0] == '+' && AllDigits(y[1..]) && 1 <= DigitsValue(y[1..]) <= MaxYear)
  }

  function YearValue(y: string): int
    requires IsYearText(y)
  {
    if |y| == 4 then DigitsValue(y) else DigitsValue(y[1..])
  }

  function YearText(s: string): string requires |s| >= 6 { s[..|s| - 6] }
  function MonthText(s: string): string requires |s| >= 6 { s[|s| - 5..|s| - 3] }
  function DayText(s: string): string requires |s| >= 6 { s[|s| - 2..] }

  /** The `full-date` shape of section 5.6 of RFC 3339, as "yyyy-MM-dd" widens it, with month 1-12 and day 1-31. */
  predicate IsFullDate(s: string) {
    && |s| >= 10
    && IsYearText(YearText(s))
    && s[|s| - 6] == '-' && AllDigits(MonthText(s))
    && s[|s| - 3] == '-' && AllDigits(DayText(s))
    && 1 <= DigitsValue(MonthText(s)) <= 12
    && 1 <= DigitsValue(DayText(s)) <= 31
  }

  /** The date a full-date input names, its day moved back to the end of a shorter month. */
  function NamedDate(s: string): LocalDate
    requires IsFullDate(s)
  {
    var y := YearValue(YearText(s));
    var m := DigitsValue(MonthText(s));
    LocalDate(y, m, Min(DigitsValue(DayText(s)), MonthLength(y, m)))
  }

  /** The scanner stops at the first non-digit. */
  lemma ScanStopsAt(s: string, from: nat, limit: nat, k: nat)
    requires from <= k <= |s| && k - from <= limit
    requires AllDigits(s[from..k]) && (k == |s| || !IsDigit(s[k]))
    ensures ScanDigits(s, from, limit) == k
  {
  }

  /** A full-date input parses to the day it names, at 00:00. */
  lemma FullDateParses(s: string)
    requires IsFullDate(s)
    ensures ParseDateTimeOrThrow(s) == Success(AtStartOfDay(NamedDate(s)))
  {
    var signed := |s| > 0 && (s[0] == '+' || s[0] == '-');
    var start := if signed then 1 else 0;
    var end := ScanDigits(s, start, MaxYearWidth);
    var y := YearText(s);
    if |y| == 4 {
      assert IsDigit(y[0]);
      assert !signed;
      assert s[0..|s| - 6] == y;
      ScanStopsAt(s, 0, MaxYearWidth, |s| - 6);
      ValuePad(y);
      assert Pow10(4) == 10000;
    } else {
      assert signed && s[0] == '+';
      assert s[1..|s| - 6] == y[1..];
      ScanStopsAt(s, 1, MaxYearWidth, |s| - 6);
    }
    assert end == |s| - 6;
    assert s[end + 1..end + 3] == MonthText(s);
    assert s[end + 4..] == DayText(s);
    assert DigitsValue(s[start..end]) == YearValue(y);
    assert ParseFields(s) == Some(ParsedFields(YearValue(y), DigitsValue(MonthText(s)), DigitsValue(DayText(s))));
  }

  /** Only a full-date input parses. */
  lemma ParsedIsFullDate(s: string)
    requires ParseDateTimeOrThrow(s).Success?
    ensures IsFullDate(s)
  {
  }

  /** The parser accepts exactly the full-date inputs, and yields the day they name at 00:00. */
  lemma ParseAcceptsExactlyFullDates(s: string)
    ensures ParseDateTimeOrThrow(s).Success? <==> IsFullDate(s)
    ensures IsFullDate(s) ==> ParseDateTimeOrThrow(s) == Success(AtStartOfDay(NamedDate(s)))
  {
    if IsFullDate(s) {
      FullDateParses(s);
    }
    if ParseDateTimeOrThrow(s).Success? {
      ParsedIsFullDate(s);
    }
  }

  // ---------------------------------------------------------------------------
  // Writing a date back as "yyyy-MM-dd", the inverse of the parser.

  function Pow10(k: nat): (p: nat)
    ensures p >= 1
  {
    if k == 0 then 1 else 10 * Pow10(k - 1)
  }

  function Digit(d: nat): (c: char)
    requires d < 10
    ensures IsDigit(c) && DigitValue(c) == d
  {
    ('0' as int + d) as char
  }

  /** The last `width` decimal digits of `n`, most significant first, padded with zeros. */
  function Pad(n: nat, width: nat): (s: string)
    ensures |s| == width && AllDigits(s)
  {
    if width == 0 then "" else Pad(n / 10, width - 1) + [Digit(n % 10)]
  }

  /** Dropping the last decimal digit of a number below `10 * p` leaves one below `p`. */
  lemma DropLastDigit(n: nat, p: nat)
    requires n < 10 * p
    ensures n / 10 < p && 10 * (n / 10) + n % 10 == n
  {
  }

  lemma {:induction false} PadValue(n: nat, width: nat)
    requires n < Pow10(width)
    ensures DigitsValue(Pad(n, width)) == n
  {
    if width > 0 {
      var s := Pad(n, width);
      assert s[..|s| - 1] == Pad(n / 10, width - 1);
      assert s[|s| - 1] == Digit(n % 10);
      DropLastDigit(n, Pow10(width - 1));
      PadValue(n / 10, width - 1);
    }
  }

  lemma {:induction false} ValuePad(s: string)
    requires AllDigits(s)
    ensures DigitsValue(s) < Pow10(|s|)
    ensures Pad(DigitsValue(s), |s|) == s
  {
    if s != [] {
      var init := s[..|s| - 1];
      ValuePad(init);
      var n := DigitsValue(s);
      assert n / 10 == DigitsValue(init) && n % 10 == DigitValue(s[|s| - 1]);
      assert s == init + [s[|s| - 1]];
    }
  }

  /**
   * `LocalDate.toString` for the years 1 to 9999: the year in four digits, the
   * month and the day in two. A larger field keeps only its last digits, so
   * the round trip below is stated for those years alone.
   */
  function FormatDate(d: LocalDate): (s: string)
    requires 0 <= d.year && 0 <= d.month && 0 <= d.day
    ensures |s| == 10
  {
    Pad(d.year, 4) + "-" + Pad(d.month, 2) + "-" + Pad(d.day, 2)
  }

  /** The three fields of a formatted date sit where the parser looks for them. */
  lemma FormatFields(d: LocalDate)
    requires 0 <= d.year && 0 <= d.month && 0 <= d.day
    ensures var s := FormatDate(d);
      && YearText(s) == Pad(d.year, 4) && MonthText(s) == Pad(d.month, 2) && DayText(s) == Pad(d.day, 2)
      && s[4] == '-' && s[7] == '-'
  {
  }

  /** Ten characters holding a calendar date's padded fields parse to that date. */
  lemma PaddedFieldsParse(s: string, d: LocalDate)
    requires IsCalendarDate(d) && d.year <= 9999 && |s| == 10
    requires YearText(s) == Pad(d.year, 4) && MonthText(s) == Pad(d.month, 2) && DayText(s) == Pad(d.day, 2)
    requires s[4] == '-' && s[7] == '-'
    ensures ParseDateTimeOrThrow(s) == Success(AtStartOfDay(d))
  {
    PadValue(d.year, 4);
    PadValue(d.month, 2);
    PadValue(d.day, 2);
    assert IsFullDate(s);
    assert NamedDate(s) == d;
    ParseAcceptsExactlyFullDates(s);
  }

  /** Every calendar date of a four-digit year survives formatting and parsing. */
  lemma FormatThenParse(d: LocalDate)
    requires IsCalendarDate(d) && d.year <= 9999
    ensures ParseDateTimeOrThrow(FormatDate(d)) == Success(AtStartOfDay(d))
  {
    FormatFields(d);
    PaddedFieldsParse(FormatDate(d), d);
  }

  /** An accepted ten-character input names a real day exactly when formatting the result gives it back. */
  lemma ParseThenFormat(s: string)
    requires |s| == 10 && ParseDateTimeOrThrow(s).Success?
    ensures var d := ParseDateTimeOrThrow(s).value.date;
      FormatDate(d) == s <==> DigitsValue(DayText(s)) <= MonthLength(d.year, d.month)
  {
    ParseAcceptsExactlyFullDates(s);
    var d := ParseDateTimeOrThrow(s).value.date;
    ValuePad(YearText(s));
    ValuePad(MonthText(s));
    ValuePad(DayText(s));
    if DigitsValue(DayText(s)) <= MonthLength(d.year, d.month) {
      assert s == YearText(s) + "-" + MonthText(s) + "-" + DayText(s);
    } else {
      assert DayText(FormatDate(d)) == Pad(d.day, 2);
      PadValue(d.day, 2);
    }
  }

  /** A ten-character input with a four-digit year, read field by field. */
  lemma FourDigitYearParses(s: string, y: int, m: int, d: int)
    requires |s| == 10 && s[4] == '-' && s[7] == '-'
    requires AllDigits(YearText(s)) && AllDigits(MonthText(s)) && AllDigits(DayText(s))
    requires DigitsValue(YearText(s)) == y && DigitsValue(MonthText(s)) == m && DigitsValue(DayText(s)) == d
    requires 1 <= y && 1 <= m <= 12 && 1 <= d <= 31
    ensures ParseDateTimeOrThrow(s) == Success(AtStartOfDay(LocalDate(y, m, Min(d, MonthLength(y, m)))))
  {
    assert IsFullDate(s);
    FullDateParses(s);
  }

  /** The date the service's tests log a trip on. */
  lemma ParseAcceptsExample()
    ensures ParseDateTimeOrThrow("2025-05-25") == Success(AtStartOfDay(LocalDate(2025, 5, 25)))
  {
    var s := "2025-05-25";
    assert YearText(s) == "2025" && MonthText(s) == "05" && DayText(s) == "25";
    assert DigitsValue("2025") == 2025 by {
      assert "2025"[..3] == "202" && "202"[..2] == "20" && "20"[..1] == "2" && "2"[..0] == "";
    }
    assert DigitsValue("05") == 5 by { assert "05"[..1] == "0" && "0"[..0] == ""; }
    assert DigitsValue("25") == 25 by { assert "25"[..1] == "2" && "2"[..0] == ""; }
    FourDigitYearParses(s, 2025, 5, 25);
  }

  /** Malformed inputs: a day-first date, month 13 and day 40, and the empty string. */
  lemma ParseRejectsExamples()
    ensures ParseDateTimeOrThrow("25-05-2025") == Failure(IllegalArgument(InvalidDateFormat))
    ensures ParseDateTimeOrThrow("2025-13-40") == Failure(IllegalArgument(InvalidDateFormat))
    ensures ParseDateTimeOrThrow("") == Failure(IllegalArgument(InvalidDateFormat))
  {
    ParseAcceptsExactlyFullDates("25-05-2025");
    ParseAcceptsExactlyFullDates("2025-13-40");
    ParseAcceptsExactlyFullDates("");
  }

  /** The SMART resolver moves the 30th of February back to the month's last day. */
  lemma ParseClampsExample()
    ensures ParseDateTimeOrThrow("2025-02-30") == Success(AtStartOfDay(LocalDate(2025, 2, 28)))
  {
    var s := "2025-02-30";
    assert YearText(s) == "2025" && MonthText(s) == "02" && DayText(s) == "30";
    assert DigitsValue("2025") == 2025 by {
      assert "2025"[..3] == "202" && "202"[..2] == "20" && "20"[..1] == "2" && "2"[..0] == "";
    }
    assert DigitsValue("02") == 2 by { assert "02"[..1] == "0" && "0"[..0] == ""; }
    assert DigitsValue("30") == 30 by { assert "30"[..1] == "3" && "3"[..0] == ""; }
    FourDigitYearParses(s, 2025, 2, 30);
    assert !IsLeapYear(2025);
  }

  /** In a leap year the 30th of February becomes the 29th. */
  lemma ParseClampsLeapExample()
    ensures ParseDateTimeOrThrow("2024-02-30") == Success(AtStartOfDay(LocalDate(2024, 2, 29)))
  {
    var s := "2024-02-30";
    assert YearText(s) == "2024" && MonthText(s) == "02" && DayText(s) == "30";
    assert DigitsValue("2024") == 2024 by {
      assert "2024"[..3] == "202" && "202"[..2] == "20" && "20"[..1] == "2" && "2"[..0] == "";
    }
    assert DigitsValue("02") == 2 by { assert "02"[..1] == "0" && "0"[..0] == ""; }
    assert DigitsValue("30") == 30 by { assert "30"[..1] == "3" && "3"[..0] == ""; }
    FourDigitYearParses(s, 2024, 2, 30);
    assert IsLeapYear(2024);
  }
}
