/**
 * Birthdays are read with the format `%d/%m/%Y` (day/month/year). This
 * module models that reading as a fixed-width parser over ten characters
 * `dd/mm/yyyy` that also rejects dates absent from the proleptic Gregorian
 * calendar (day 31 of a 30-day month, 29 February outside a leap year,
 * year 0), together with the formatter it inverts.
 */
module Dates {
  import opened FormData

  /** A calendar date, as stored in a pet's `birthday` column. */
  datatype Date = Date(day: int, month: int, year: int)

  predicate IsLeapYear(year: int) {
    year % 4 == 0 && (year % 100 != 0 || year % 400 == 0)
  }

  function DaysInMonth(month: int, year: int): (n: int)
    requires 1 <= month <= 12
    ensures 28 <= n <= 31
    ensures n == 29 <==> month == 2 && IsLeapYear(year)
  {
    if month == 2 then (if IsLeapYear(year) then 29 else 28)
    else if month == 4 || month == 6 || month == 9 || month == 11 then 30
    else 31
  }

  /** A date that exists and whose year has four digits (1 to 9999). */
  predicate ValidDate(d: Date) {
    && 1 <= d.year <= 9999
    && 1 <= d.month <= 12
    && 1 <= d.day <= DaysInMonth(d.month, d.year)
  }

  predicate IsDigit(c: char) {
    '0' <= c <= '9'
  }

  function DigitValue(c: char): (n: int)
    requires IsDigit(c)
    ensures 0 <= n <= 9
  {
    c as int - '0' as int
  }

  function DigitChar(n: int): (c: char)
    requires 0 <= n <= 9
    ensures IsDigit(c) && DigitValue(c) == n
  {
    (n + '0' as int) as char
  }

  /** The shape `dd/mm/yyyy`: ten characters, digits around two slashes. */
  predicate WellFormed(s: string) {
    && |s| == 10
    && s[2] == '/' && s[5] == '/'
    && IsDigit(s[0]) && IsDigit(s[1])
    && IsDigit(s[3]) && IsDigit(s[4])
    && IsDigit(s[6]) && IsDigit(s[7]) && IsDigit(s[8]) && IsDigit(s[9])
  }

  /** The number written by the decimal digits `s[lo..hi]`. */
  function Number(s: string, lo: nat, hi: nat): (n: nat)
    requires lo <= hi <= |s|
    requires forall i :: lo <= i < hi ==> IsDigit(s[i])
    decreases hi - lo
  {
    if lo == hi then 0 else 10 * Number(s, lo, hi - 1) + DigitValue(s[hi - 1])
  }

  /**
   * `datetime.strptime(text, "%d/%m/%Y")`: the date the text names, or
   * nothing where the library raises `ValueError`.
   */
  function ParseDate(text: string): (r: Option<Date>)
    ensures r.Some? ==> ValidDate(r.value) && WellFormed(text)
  {
    if !WellFormed(text) then None
    else
      var d := Date(Number(text, 0, 2), Number(text, 3, 5), Number(text, 6, 10));
      if ValidDate(d) then Some(d) else None
  }

  /** The date written back as `dd/mm/yyyy`, zero-padded. */
  function FormatDate(d: Date): (s: string)
    requires ValidDate(d)
    ensures WellFormed(s)
  {
    [DigitChar(d.day / 10), DigitChar(d.day % 10), '/',
     DigitChar(d.month / 10), DigitChar(d.month % 10), '/',
     DigitChar(d.year / 10 / 10 / 10), DigitChar(d.year / 10 / 10 % 10),
     DigitChar(d.year / 10 % 10), DigitChar(d.year % 10)]
  }

  lemma TwoDigits(s: string, lo: nat)
    requires lo + 2 <= |s| && IsDigit(s[lo]) && IsDigit(s[lo + 1])
    ensures Number(s, lo, lo + 2) == 10 * DigitValue(s[lo]) + DigitValue(s[lo + 1])
  {
    assert Number(s, lo, lo + 1) == DigitValue(s[lo]);
  }

  lemma FourDigits(s: string, lo: nat)
    requires lo + 4 <= |s|
    requires IsDigit(s[lo]) && IsDigit(s[lo + 1]) && IsDigit(s[lo + 2]) && IsDigit(s[lo + 3])
    ensures Number(s, lo, lo + 4) ==
            1000 * DigitValue(s[lo]) + 100 * DigitValue(s[lo + 1])
            + 10 * DigitValue(s[lo + 2]) + DigitValue(s[lo + 3])
  {
    TwoDigits(s, lo);
    assert Number(s, lo, lo + 3) == 10 * Number(s, lo, lo + 2) + DigitValue(s[lo + 2]);
  }

  lemma TwoDigitValue(s: string, lo: nat, n: int)
    requires 0 <= n <= 99 && lo + 2 <= |s|
    requires s[lo] == DigitChar(n / 10) && s[lo + 1] == DigitChar(n % 10)
    ensures Number(s, lo, lo + 2) == n
  {
    TwoDigits(s, lo);
  }

  /** Reading four digits back: the digits of `1000a + 100b + 10c + d`. */
  lemma FourDigitSplit(a: int, b: int, c: int, d: int)
    requires 0 <= a <= 9 && 0 <= b <= 9 && 0 <= c <= 9 && 0 <= d <= 9
    ensures var n := 1000 * a + 100 * b + 10 * c + d;
      n / 10 / 10 / 10 == a && n / 10 / 10 % 10 == b && n / 10 % 10 == c && n % 10 == d
  {
    var n := 1000 * a + 100 * b + 10 * c + d;
    assert n / 10 == 100 * a + 10 * b + c;
    assert n / 10 / 10 == 10 * a + b;
  }

  lemma FourDigitValue(s: string, lo: nat, n: int)
    requires 0 <= n <= 9999 && lo + 4 <= |s|
    requires s[lo] == DigitChar(n / 10 / 10 / 10) && s[lo + 1] == DigitChar(n / 10 / 10 % 10)
    requires s[lo + 2] == DigitChar(n / 10 % 10) && s[lo + 3] == DigitChar(n % 10)
    ensures Number(s, lo, lo + 4) == n
  {
    FourDigits(s, lo);
    var q1 := n / 10;
    var q2 := q1 / 10;
    assert n == 10 * q1 + n % 10;
    assert q1 == 10 * q2 + q1 % 10;
    assert q2 == 10 * (q2 / 10) + q2 % 10;
  }

  /** Formatting a valid date and parsing the text gives the date back. */
  lemma ParseFormat(d: Date)
    requires ValidDate(d)
    ensures ParseDate(FormatDate(d)) == Some(d)
  {
    var s := FormatDate(d);
    TwoDigitValue(s, 0, d.day);
    TwoDigitValue(s, 3, d.month);
    FourDigitValue(s, 6, d.year);
  }

  /**
   * Every text the parser accepts is exactly the formatting of the date it
   * yields: the parser accepts one spelling per date.
   */
  lemma FormatParse(text: string)
    requires ParseDate(text).Some?
    ensures FormatDate(ParseDate(text).value) == text
  {
    var d := ParseDate(text).value;
    TwoDigits(text, 0);
    TwoDigits(text, 3);
    FourDigits(text, 6);
    TwoDigitSplit(DigitValue(text[0]), DigitValue(text[1]));
    TwoDigitSplit(DigitValue(text[3]), DigitValue(text[4]));
    FourDigitSplit(DigitValue(text[6]), DigitValue(text[7]), DigitValue(text[8]), DigitValue(text[9]));
    var s := FormatDate(d);
    forall i | i in {0, 1, 3, 4, 6, 7, 8, 9} ensures s[i] == text[i] {
      DigitRoundTrip(text[i]);
    }
  }

  lemma TwoDigitSplit(a: int, b: int)
    requires 0 <= a <= 9 && 0 <= b <= 9
    ensures (10 * a + b) / 10 == a && (10 * a + b) % 10 == b
  {
  }

  lemma DigitRoundTrip(c: char)
    requires IsDigit(c)
    ensures DigitChar(DigitValue(c)) == c
  {
  }

  /** Two texts the parser accepts name the same date only when they are equal. */
  lemma ParseDateInjective(a: string, b: string)
    requires ParseDate(a).Some? && ParseDate(a) == ParseDate(b)
    ensures a == b
  {
    FormatParse(a);
    FormatParse(b);
  }
}
