/** Calendar dates and times as the quote parsers read them with Qt's
    QDateTime::fromString: the formats "yyyy-MM-dd" (the full-date shape of
    section 5.6 of RFC 3339, with a year that Qt's QDate accepts) and
    "yyyy-MM-dd hh:mm:ss", both with calendar validity checked. */
module Calendar {
  import opened Text

  datatype Date = Date(year: int, month: int, day: int)

  datatype DateTime = DateTime(date: Date, hour: int, minute: int, second: int)

  predicate IsLeapYear(year: int)
  {
    year % 4 == 0 && (year % 100 != 0 || year % 400 == 0)
  }

  function DaysInMonth(year: int, month: int): int
    requires 1 <= month <= 12
  {
    if month == 2 then (if IsLeapYear(year) then 29 else 28)
    else if month == 4 || month == 6 || month == 9 || month == 11 then 30
    else 31
  }

  /** A date QDate holds as valid within four-digit years (Qt has no year 0). */
  predicate ValidDate(d: Date)
  {
    1 <= d.year <= 9999 && 1 <= d.month <= 12 && 1 <= d.day <= DaysInMonth(d.year, d.month)
  }

  predicate ValidDateTime(t: DateTime)
  {
    ValidDate(t.date) && 0 <= t.hour <= 23 && 0 <= t.minute <= 59 && 0 <= t.second <= 59
  }

  function DigitValue(ch: char): int
  {
    ch as int - '0' as int
  }

  function DigitChar(n: int): char
    requires 0 <= n <= 9
  {
    (n + '0' as int) as char
  }

  /** The value of the `width` digits of `s` starting at `at`. */
  function Field(s: string, at: nat, width: nat): int
    requires at + width <= |s|
    decreases width
  {
    if width == 0 then 0 else Field(s, at, width - 1) * 10 + DigitValue(s[at + width - 1])
  }

  predicate DigitsAt(s: string, at: nat, width: nat)
    requires at + width <= |s|
  {
    forall i :: at <= i < at + width ==> IsDigit(s[i])
  }

  /** The character shape "dddd-dd-dd". */
  predicate DateShape(s: string)
  {
    |s| >= 10 && DigitsAt(s, 0, 4) && s[4] == '-' && DigitsAt(s, 5, 2) && s[7] == '-' && DigitsAt(s, 8, 2)
  }

  /** The character shape "dddd-dd-dd dd:dd:dd". */
  predicate DateTimeShape(s: string)
  {
    |s| == 19 && DateShape(s) && s[10] == ' ' && DigitsAt(s, 11, 2) && s[13] == ':'
    && DigitsAt(s, 14, 2) && s[16] == ':' && DigitsAt(s, 17, 2)
  }

  function DateFields(s: string): Date
    requires |s| >= 10
  {
    Date(Field(s, 0, 4), Field(s, 5, 2), Field(s, 8, 2))
  }

  /** QDateTime::fromString(s, "yyyy-MM-dd"): the date, or None for an
      invalid QDateTime. */
  function ParseDate(s: string): (r: Option<Date>)
    ensures r.Some? <==> |s| == 10 && DateShape(s) && ValidDate(DateFields(s))
    ensures r.Some? ==> ValidDate(r.value) && FormatDate(r.value) == s
  {
    if |s| == 10 && DateShape(s) && ValidDate(DateFields(s)) then
      FormatDateFields(s);
      Some(DateFields(s))
    else None
  }

  /** QDateTime::fromString(s, "yyyy-MM-dd hh:mm:ss"). */
  function ParseDateTime(s: string): (r: Option<DateTime>)
    ensures r.Some? <==> DateTimeShape(s) && ValidDateTime(DateTimeFields(s))
    ensures r.Some? ==> ValidDateTime(r.value) && FormatDateTime(r.value) == s
  {
    if DateTimeShape(s) && ValidDateTime(DateTimeFields(s)) then
      FormatDateTimeFields(s);
      Some(DateTimeFields(s))
    else None
  }

  function DateTimeFields(s: string): DateTime
    requires |s| >= 19
  {
    DateTime(DateFields(s), Field(s, 11, 2), Field(s, 14, 2), Field(s, 17, 2))
  }

  function Pad2(n: int): string
    requires 0 <= n <= 99
  {
    [DigitChar(n / 10), DigitChar(n % 10)]
  }

  function Pad4(n: int): string
    requires 0 <= n <= 9999
  {
    [DigitChar(n / 1000), DigitChar(n / 100 % 10), DigitChar(n / 10 % 10), DigitChar(n % 10)]
  }

  /** QDate::toString("yyyy-MM-dd"). */
  function FormatDate(d: Date): (s: string)
    requires ValidDate(d)
    ensures |s| == 10
  {
    Pad4(d.year) + "-" + Pad2(d.month) + "-" + Pad2(d.day)
  }

  /** QDateTime::toString("yyyy-MM-dd hh:mm:ss"). */
  function FormatDateTime(t: DateTime): (s: string)
    requires ValidDateTime(t)
    ensures |s| == 19
  {
    FormatDate(t.date) + " " + Pad2(t.hour) + ":" + Pad2(t.minute) + ":" + Pad2(t.second)
  }

  lemma DigitRoundTrip(ch: char)
    requires IsDigit(ch)
    ensures 0 <= DigitValue(ch) <= 9 && DigitChar(DigitValue(ch)) == ch
  {
  }

  lemma Pad2Field(s: string, at: nat)
    requires at + 2 <= |s| && DigitsAt(s, at, 2)
    ensures 0 <= Field(s, at, 2) <= 99 && Pad2(Field(s, at, 2)) == s[at..at + 2]
  {
    var d0, d1 := DigitValue(s[at]), DigitValue(s[at + 1]);
    DigitRoundTrip(s[at]);
    DigitRoundTrip(s[at + 1]);
    assert Field(s, at, 1) == d0;
    var n := d0 * 10 + d1;
    assert Field(s, at, 2) == n;
    assert n / 10 == d0 && n % 10 == d1;
    assert Pad2(n) == [s[at], s[at + 1]];
  }

  lemma Pad4Field(s: string, at: nat)
    requires at + 4 <= |s| && DigitsAt(s, at, 4)
    ensures 0 <= Field(s, at, 4) <= 9999 && Pad4(Field(s, at, 4)) == s[at..at + 4]
  {
    var d0, d1, d2, d3 := DigitValue(s[at]), DigitValue(s[at + 1]), DigitValue(s[at + 2]), DigitValue(s[at + 3]);
    DigitRoundTrip(s[at]);
    DigitRoundTrip(s[at + 1]);
    DigitRoundTrip(s[at + 2]);
    DigitRoundTrip(s[at + 3]);
    assert Field(s, at, 1) == d0;
    assert Field(s, at, 2) == d0 * 10 + d1;
    assert Field(s, at, 3) == d0 * 100 + d1 * 10 + d2;
    var n := d0 * 1000 + d1 * 100 + d2 * 10 + d3;
    assert Field(s, at, 4) == n;
    assert n / 10 == d0 * 100 + d1 * 10 + d2 && n % 10 == d3;
    assert n / 100 == d0 * 10 + d1;
    assert n / 1000 == d0;
    assert (d0 * 100 + d1 * 10 + d2) % 10 == d2 && (d0 * 10 + d1) % 10 == d1;
    assert Pad4(n) == [s[at], s[at + 1], s[at + 2], s[at + 3]];
  }

  /** Formatting the fields read from a well-shaped date gives the text back. */
  lemma FormatDateFields(s: string)
    requires |s| == 10 && DateShape(s) && ValidDate(DateFields(s))
    ensures FormatDate(DateFields(s)) == s
  {
    Pad4Field(s, 0);
    Pad2Field(s, 5);
    Pad2Field(s, 8);
    assert s == s[0..4] + "-" + s[5..7] + "-" + s[8..10];
  }

  lemma FormatDateTimeFields(s: string)
    requires DateTimeShape(s) && ValidDateTime(DateTimeFields(s))
    ensures FormatDateTime(DateTimeFields(s)) == s
  {
    FormatDateFields(s[..10]);
    assert DateFields(s[..10]) == DateFields(s) by {
      assert forall at: nat, w: nat | at + w <= 10 :: Field(s[..10], at, w) == Field(s, at, w) by {
        forall at: nat, w: nat | at + w <= 10 ensures Field(s[..10], at, w) == Field(s, at, w) {
          FieldPrefix(s, 10, at, w);
        }
      }
    }
    Pad2Field(s, 11);
    Pad2Field(s, 14);
    Pad2Field(s, 17);
    assert s == s[..10] + " " + s[11..13] + ":" + s[14..16] + ":" + s[17..19];
  }

  lemma {:induction false} FieldPrefix(s: string, n: nat, at: nat, width: nat)
    requires at + width <= n <= |s|
    ensures Field(s[..n], at, width) == Field(s, at, width)
    decreases width
  {
    if width > 0 {
      FieldPrefix(s, n, at, width - 1);
    }
  }

  lemma FieldOfPad2(s: string, at: nat, n: int)
    requires 0 <= n <= 99 && at + 2 <= |s| && s[at..at + 2] == Pad2(n)
    ensures DigitsAt(s, at, 2) && Field(s, at, 2) == n
  {
    assert s[at] == Pad2(n)[0] && s[at + 1] == Pad2(n)[1];
    assert Field(s, at, 1) == DigitValue(s[at]);
  }

  lemma FieldOfPad4(s: string, at: nat, n: int)
    requires 0 <= n <= 9999 && at + 4 <= |s| && s[at..at + 4] == Pad4(n)
    ensures DigitsAt(s, at, 4) && Field(s, at, 4) == n
  {
    var p := Pad4(n);
    assert s[at] == p[0] && s[at + 1] == p[1] && s[at + 2] == p[2] && s[at + 3] == p[3];
    var d0, d1, d2, d3 := n / 1000, n / 100 % 10, n / 10 % 10, n % 10;
    Decompose4(n);
    assert Field(s, at, 1) == d0;
    assert Field(s, at, 2) == d0 * 10 + d1;
    assert Field(s, at, 3) == d0 * 100 + d1 * 10 + d2;
  }

  lemma Decompose4(n: int)
    requires 0 <= n <= 9999
    ensures n == n / 1000 * 1000 + n / 100 % 10 * 100 + n / 10 % 10 * 10 + n % 10
    ensures 0 <= n / 1000 <= 9
  {
    var q1 := n / 10;
    assert n == q1 * 10 + n % 10;
    var q2 := q1 / 10;
    assert q1 == q2 * 10 + q1 % 10;
    assert n == q2 * 100 + q1 % 10 * 10 + n % 10;
    assert n / 100 == q2;
    var q3 := q2 / 10;
    assert q2 == q3 * 10 + q2 % 10;
    assert n == q3 * 1000 + q2 % 10 * 100 + q1 % 10 * 10 + n % 10;
    assert n / 1000 == q3;
  }

  /** A text that starts with a formatted valid date has that date's shape
      and fields. */
  lemma FormattedDateFields(s: string, d: Date)
    requires ValidDate(d) && |s| >= 10 && s[..10] == FormatDate(d)
    ensures DateShape(s) && DateFields(s) == d
  {
    assert s[0..4] == Pad4(d.year) && s[5..7] == Pad2(d.month) && s[8..10] == Pad2(d.day);
    assert s[4] == '-' && s[7] == '-';
    FieldOfPad4(s, 0, d.year);
    FieldOfPad2(s, 5, d.month);
    FieldOfPad2(s, 8, d.day);
  }

  /** Reading back a formatted valid date gives the same date. */
  lemma ParseFormatDate(d: Date)
    requires ValidDate(d)
    ensures ParseDate(FormatDate(d)) == Some(d)
  {
    var s := FormatDate(d);
    assert s[..10] == s;
    FormattedDateFields(s, d);
  }

  /** Reading back a formatted valid date and time gives the same value. */
  lemma ParseFormatDateTime(t: DateTime)
    requires ValidDateTime(t)
    ensures ParseDateTime(FormatDateTime(t)) == Some(t)
  {
    var s := FormatDateTime(t);
    assert s[..10] == FormatDate(t.date);
    FormattedDateFields(s, t.date);
    assert s[10] == ' ' && s[13] == ':' && s[16] == ':';
    assert s[11..13] == Pad2(t.hour) && s[14..16] == Pad2(t.minute) && s[17..19] == Pad2(t.second);
    FieldOfPad2(s, 11, t.hour);
    FieldOfPad2(s, 14, t.minute);
    FieldOfPad2(s, 17, t.second);
  }

  /** The timestamp of the sample quote line in the realtime parser's
      documentation comment. */
  lemma SampleTimestamp()
    ensures ParseDateTime("2023-11-24 15:00:03") == Some(DateTime(Date(2023, 11, 24), 15, 0, 3))
  {
    var t := DateTime(Date(2023, 11, 24), 15, 0, 3);
    assert Pad4(2023) == "2023" && Pad2(11) == "11" && Pad2(24) == "24";
    assert Pad2(15) == "15" && Pad2(0) == "00" && Pad2(3) == "03";
    assert FormatDateTime(t) == "2023-11-24 15:00:03";
    ParseFormatDateTime(t);
  }

  /** A leap day parses in a leap year. */
  lemma LeapDayAccepted()
    ensures ParseDate("2024-02-29") == Some(Date(2024, 2, 29))
  {
    assert Pad4(2024) == "2024" && Pad2(2) == "02" && Pad2(29) == "29";
    assert FormatDate(Date(2024, 2, 29)) == "2024-02-29";
    ParseFormatDate(Date(2024, 2, 29));
  }

  /** A leap day is refused in a year that is not a leap year. */
  lemma NonLeapDayRefused()
    ensures ParseDate("2023-02-29").None?
  {
    assert Pad2(2) == "02" && Pad2(29) == "29" && Pad4(2023) == "2023";
    FieldOfPad2("2023-02-29", 5, 2);
    FieldOfPad2("2023-02-29", 8, 29);
    FieldOfPad4("2023-02-29", 0, 2023);
  }

  /** A century year is a leap year only when divisible by 400. */
  lemma CenturyLeapDayRefused()
    ensures ParseDate("1900-02-29").None?
  {
    assert Pad2(2) == "02" && Pad2(29) == "29" && Pad4(1900) == "1900";
    FieldOfPad2("1900-02-29", 5, 2);
    FieldOfPad2("1900-02-29", 8, 29);
    FieldOfPad4("1900-02-29", 0, 1900);
  }

  /** A day past the end of a 30-day month is refused. */
  lemma ThirtyFirstOfAprilRefused()
    ensures ParseDate("2023-04-31").None?
  {
    assert Pad2(4) == "04" && Pad2(31) == "31";
    FieldOfPad2("2023-04-31", 5, 4);
    FieldOfPad2("2023-04-31", 8, 31);
  }

  /** Year 0 and a one-digit month are refused. */
  lemma MalformedDatesRefused()
    ensures ParseDate("0000-01-01").None?
    ensures ParseDate("2023-1-05").None?
  {
    FieldOfPad4("0000-01-01", 0, 0);
  }
}
