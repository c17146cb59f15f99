/** Day-of-year derivation used by the ETo calculator
    (src/nwa_hydro/tools/science.py, `datetime.strptime(date, "%Y-%m-%d")`
    followed by `timetuple().tm_yday`).

    The parser follows the pattern CPython's strptime builds for that format:
    year `\d\d\d\d`, month `1[0-2]|0[1-9]|[1-9]`, day
    `3[01]|[12]\d|0[1-9]|[1-9]| [1-9]`, matched from the start of the string
    and then rejected when characters remain; the matched numbers must then
    name a real Gregorian date with a year of at least 1. So zero-padding is
    optional ("2023-1-5" is accepted) and "2023-02-29" is refused. */
module Calendar {
  import opened Wrappers

  datatype Date = Date(year: int, month: int, day: int)

  predicate IsLeapYear(y: int)
  {
    y % 4 == 0 && (y % 100 != 0 || y % 400 == 0)
  }

  function DaysInMonth(y: int, m: int): int
  {
    if m == 2 then (if IsLeapYear(y) then 29 else 28)
    else if m == 4 || m == 6 || m == 9 || m == 11 then 30
    else 31
  }

  /** A date `datetime` accepts from strptime's four-digit year. */
  predicate ValidDate(d: Date)
  {
    1 <= d.year <= 9999 && 1 <= d.month <= 12 && 1 <= d.day <= DaysInMonth(d.year, d.month)
  }

  // ---------------------------------------------------------------------
  // The strptime pattern

  predicate IsDigit(c: char)
  {
    '0' <= c <= '9'
  }

  function DigitValue(c: char): int
    requires IsDigit(c)
  {
    c as int - '0' as int
  }

  /** A number token: its value and how many characters it spans. */
  datatype Token = Token(value: int, width: nat)

  /** `1[0-2]|0[1-9]|[1-9]` at position p. The two-character alternatives come
      first; if one of them matches but the rest of the pattern then fails,
      backtracking to `[1-9]` cannot help, because the following character is
      a digit where a '-' is needed. So taking the first alternative that
      matches here decides the whole match. */
  function MonthToken(s: string, p: nat): Option<Token>
  {
    if p + 1 < |s| && s[p] == '1' && '0' <= s[p + 1] <= '2' then Some(Token(10 + DigitValue(s[p + 1]), 2))
    else if p + 1 < |s| && s[p] == '0' && '1' <= s[p + 1] <= '9' then Some(Token(DigitValue(s[p + 1]), 2))
    else if p < |s| && '1' <= s[p] <= '9' then Some(Token(DigitValue(s[p]), 1))
    else None
  }

  /** `3[01]|[12]\d|0[1-9]|[1-9]| [1-9]` at position p: the first alternative
      that matches is taken, as the day is the last group of the pattern. */
  function DayToken(s: string, p: nat): Option<Token>
  {
    if p + 1 < |s| && s[p] == '3' && '0' <= s[p + 1] <= '1' then Some(Token(30 + DigitValue(s[p + 1]), 2))
    else if p + 1 < |s| && '1' <= s[p] <= '2' && IsDigit(s[p + 1]) then
      Some(Token(10 * DigitValue(s[p]) + DigitValue(s[p + 1]), 2))
    else if p + 1 < |s| && s[p] == '0' && '1' <= s[p + 1] <= '9' then Some(Token(DigitValue(s[p + 1]), 2))
    else if p < |s| && '1' <= s[p] <= '9' then Some(Token(DigitValue(s[p]), 1))
    else if p + 1 < |s| && s[p] == ' ' && '1' <= s[p + 1] <= '9' then Some(Token(DigitValue(s[p + 1]), 2))
    else None
  }

  /** `datetime.strptime(s, "%Y-%m-%d")`: None where it raises ValueError
      (no match, unconverted data remains, or not a real date). */
  function ParseDate(s: string): (r: Option<Date>)
    ensures r.Some? ==> ValidDate(r.value)
  {
    if |s| < 5 || !IsDigit(s[0]) || !IsDigit(s[1]) || !IsDigit(s[2]) || !IsDigit(s[3]) || s[4] != '-' then None
    else
      var year := 1000 * DigitValue(s[0]) + 100 * DigitValue(s[1]) + 10 * DigitValue(s[2]) + DigitValue(s[3]);
      match MonthToken(s, 5)
      case None => None
      case Some(month) =>
        var dash := 5 + month.width;
        if dash >= |s| || s[dash] != '-' then None
        else
          match DayToken(s, dash + 1)
          case None => None
          case Some(day) =>
            if dash + 1 + day.width != |s| then None
            else
              var d := Date(year, month.value, day.value);
              if ValidDate(d) then Some(d) else None
  }

  // ---------------------------------------------------------------------
  // Formatting, the partner of parsing

  function DigitChar(n: int): char
    requires 0 <= n <= 9
  {
    ('0' as int + n) as char
  }

  /** The zero-padded ISO form "YYYY-MM-DD". */
  function FormatDate(d: Date): (s: string)
    requires ValidDate(d)
    ensures |s| == 10
  {
    [DigitChar(d.year / 1000), DigitChar(d.year / 100 % 10), DigitChar(d.year / 10 % 10), DigitChar(d.year % 10),
     '-', DigitChar(d.month / 10), DigitChar(d.month % 10),
     '-', DigitChar(d.day / 10), DigitChar(d.day % 10)]
  }

  lemma DigitCharValue(n: int)
    requires 0 <= n <= 9
    ensures IsDigit(DigitChar(n)) && DigitValue(DigitChar(n)) == n
  {
  }

  lemma YearDigits(y: int)
    requires 0 <= y <= 9999
    ensures 1000 * (y / 1000) + 100 * (y / 100 % 10) + 10 * (y / 10 % 10) + y % 10 == y
    ensures 0 <= y / 1000 <= 9
  {
    var q1, r1 := y / 10, y % 10;
    assert y == 10 * q1 + r1;
    var q2, r2 := q1 / 10, q1 % 10;
    assert q1 == 10 * q2 + r2;
    assert q2 == y / 100;
    var q3, r3 := q2 / 10, q2 % 10;
    assert q2 == 10 * q3 + r3;
    assert q3 == y / 1000;
  }

  /** Every date the calculator can receive in ISO form parses back to itself. */
  lemma ParseFormatRoundTrip(d: Date)
    requires ValidDate(d)
    ensures ParseDate(FormatDate(d)) == Some(d)
  {
    var s := FormatDate(d);
    YearDigits(d.year);
    DigitCharValue(d.year / 1000);
    DigitCharValue(d.year / 100 % 10);
    DigitCharValue(d.year / 10 % 10);
    DigitCharValue(d.year % 10);
    DigitCharValue(d.month / 10);
    DigitCharValue(d.month % 10);
    DigitCharValue(d.day / 10);
    DigitCharValue(d.day % 10);
    assert MonthToken(s, 5) == Some(Token(d.month, 2)) by {
      if d.month < 10 {
        assert s[5] == '0';
      } else {
        assert s[5] == '1' && d.month % 10 <= 2;
      }
    }
    assert DayToken(s, 8) == Some(Token(d.day, 2)) by {
      if d.day < 10 {
        assert s[8] == '0';
      } else if d.day < 30 {
        assert '1' <= s[8] <= '2';
      } else {
        assert s[8] == '3' && d.day % 10 <= 1;
      }
    }
  }

  /** The other direction: a ten-character string without a space-padded
      day is accepted only when it is the zero-padded form of the date it
      yields. With ParseFormatRoundTrip, such a string parses exactly when
      it is `FormatDate` of a valid date, so "2023-02-30" is refused. */
  lemma ParseCanonical(s: string)
    requires |s| == 10 && s[8] != ' ' && ParseDate(s).Some?
    ensures s == FormatDate(ParseDate(s).value)
  {
    var d := ParseDate(s).value;
    var month := MonthToken(s, 5).value;
    var day := DayToken(s, 6 + month.width).value;
    assert month.width == 2 && day.width == 2;
    assert d == Date(1000 * DigitValue(s[0]) + 100 * DigitValue(s[1]) + 10 * DigitValue(s[2]) + DigitValue(s[3]),
                     month.value, day.value);
    assert month.value == 10 * DigitValue(s[5]) + DigitValue(s[6]);
    assert day.value == 10 * DigitValue(s[8]) + DigitValue(s[9]);
    YearOfDigits(DigitValue(s[0]), DigitValue(s[1]), DigitValue(s[2]), DigitValue(s[3]));
    NumberOfTwoDigits(DigitValue(s[5]), DigitValue(s[6]));
    NumberOfTwoDigits(DigitValue(s[8]), DigitValue(s[9]));
    var f := FormatDate(d);
    forall k | 0 <= k < 10 && k != 4 && k != 7
      ensures s[k] == f[k]
    {
      DigitOfChar(s[k]);
    }
  }

  /** A digit character is written back as itself. */
  lemma DigitOfChar(c: char)
    requires IsDigit(c)
    ensures DigitChar(DigitValue(c)) == c
  {
  }

  /** Four digits read as a year give back those digits. */
  lemma YearOfDigits(a: int, b: int, c: int, e: int)
    requires 0 <= a <= 9 && 0 <= b <= 9 && 0 <= c <= 9 && 0 <= e <= 9
    ensures var y := 1000 * a + 100 * b + 10 * c + e;
            y / 1000 == a && y / 100 % 10 == b && y / 10 % 10 == c && y % 10 == e
  {
    var y := 1000 * a + 100 * b + 10 * c + e;
    assert y / 10 == 100 * a + 10 * b + c;
    assert y / 100 == 10 * a + b;
  }

  /** Two digits read as a number give back those digits. */
  lemma NumberOfTwoDigits(a: int, b: int)
    requires 0 <= a <= 9 && 0 <= b <= 9
    ensures (10 * a + b) / 10 == a && (10 * a + b) % 10 == b
  {
  }

  /** Zero-padding is optional and a leading space may stand for it in the
      day, while a day past the month's end and a trailing character are
      refused. */
  lemma StrptimeLeniency()
    ensures ParseDate("2023-1-5") == Some(Date(2023, 1, 5))
    ensures ParseDate("2023-12- 5") == Some(Date(2023, 12, 5))
    ensures ParseDate("2024-02-29") == Some(Date(2024, 2, 29))
    ensures ParseDate("2023-02-29") == None
    ensures ParseDate("2023-01-011") == None
    ensures ParseDate("0000-01-01") == None
  {
  }

  // ---------------------------------------------------------------------
  // Day of the year

  /** CPython's cumulative table of days before each month in a common year
      (index 0 unused). */
  const DAYS_BEFORE_MONTH: seq<int> := [-1, 0, 31, 59, 90, 120, 151, 181, 212, 243, 273, 304, 334]

  /** `tm_yday`: the table entry, one more after February in a leap year,
      plus the day of the month; that is, the days in the preceding months
      plus the day. */
  function DayOfYear(d: Date): (r: int)
    requires ValidDate(d)
    ensures r == DaysBefore(d.year, d.month) + d.day
  {
    TableIsCumulative(d.year, d.month);
    DAYS_BEFORE_MONTH[d.month] + (if d.month > 2 && IsLeapYear(d.year) then 1 else 0) + d.day
  }

  /** Reference definition: the lengths of the months before m, summed. */
  function DaysBefore(y: int, m: int): int
    requires 1 <= m <= 13
    decreases m
  {
    if m == 1 then 0 else DaysBefore(y, m - 1) + DaysInMonth(y, m - 1)
  }

  /** The table agrees with summing month lengths. */
  lemma {:induction false} TableIsCumulative(y: int, m: int)
    requires 1 <= m <= 12
    ensures DaysBefore(y, m) == DAYS_BEFORE_MONTH[m] + (if m > 2 && IsLeapYear(y) then 1 else 0)
    decreases m
  {
    if m > 1 {
      TableIsCumulative(y, m - 1);
    }
  }

  /** The year's length: 366 in a Gregorian leap year, 365 otherwise. */
  lemma {:induction false} YearLength(y: int)
    ensures DaysBefore(y, 13) == if IsLeapYear(y) then 366 else 365
  {
    TableIsCumulative(y, 12);
  }

  /** Day-of-year lies in 1..365, and is 366 exactly on Dec 31 of a leap year. */
  lemma DayOfYearBounds(d: Date)
    requires ValidDate(d)
    ensures 1 <= DayOfYear(d) <= 366
    ensures DayOfYear(d) == 366 <==> IsLeapYear(d.year) && d.month == 12 && d.day == 31
  {
  }

  lemma {:induction false} DaysBeforeMonotone(y: int, m1: int, m2: int)
    requires 1 <= m1 < m2 <= 13
    ensures DaysBefore(y, m2) >= DaysBefore(y, m1) + DaysInMonth(y, m1)
    decreases m2
  {
    if m2 > m1 + 1 {
      DaysBeforeMonotone(y, m1, m2 - 1);
    }
  }

  /** Within a year, a later date has a larger day of the year, so distinct
      dates of one year never share one. */
  lemma DayOfYearStrictlyIncreasing(a: Date, b: Date)
    requires ValidDate(a) && ValidDate(b) && a.year == b.year
    requires a.month < b.month || (a.month == b.month && a.day < b.day)
    ensures DayOfYear(a) < DayOfYear(b)
  {
    if a.month < b.month {
      DaysBeforeMonotone(a.year, a.month, b.month);
    }
  }
}
