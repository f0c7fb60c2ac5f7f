/** The zero-padded `MM/DD/YYYY` rendering of a date that the scraper types
    into the search form (`strftime("%m/%d/%Y")`), generalised over the
    separator so that the sheet-name form `MM.DD.YYYY` is the same function. */
module DateFormat {
  import opened Wrappers
  import opened Calendar

  predicate IsDigit(c: char) {
    '0' <= c <= '9'
  }

  function DigitChar(n: int): (c: char)
    requires 0 <= n <= 9
    ensures IsDigit(c)
  {
    ('0' as int + n) as char
  }

  function DigitValue(c: char): (n: int)
    requires IsDigit(c)
    ensures 0 <= n <= 9
  {
    c as int - '0' as int
  }

  function TwoDigits(n: int): (s: string)
    requires 0 <= n <= 99
    ensures |s| == 2 && IsDigit(s[0]) && IsDigit(s[1])
    ensures 10 * DigitValue(s[0]) + DigitValue(s[1]) == n
  {
    [DigitChar(n / 10), DigitChar(n % 10)]
  }

  function FourDigits(n: int): (s: string)
    requires 0 <= n <= 9999
    ensures |s| == 4 && forall i :: 0 <= i < 4 ==> IsDigit(s[i])
    ensures 1000 * DigitValue(s[0]) + 100 * DigitValue(s[1]) + 10 * DigitValue(s[2]) + DigitValue(s[3]) == n
  {
    TwoDigits(n / 100) + TwoDigits(n % 100)
  }

  /** Dates `%Y` renders as exactly four digits. Every date the scraper
      formats falls in this range (see Planner.WindowYearsInRange). */
  predicate Formattable(d: Date) {
    Valid(d) && 1000 <= d.year <= 9999
  }

  function FormatDate(d: Date, sep: char): (s: string)
    requires Formattable(d)
    ensures |s| == 10 && s[2] == sep && s[5] == sep
    ensures forall i :: 0 <= i < 10 && i != 2 && i != 5 ==> IsDigit(s[i])
  {
    TwoDigits(d.month) + [sep] + TwoDigits(d.day) + [sep] + FourDigits(d.year)
  }

  /** Reads a `MM<sep>DD<sep>YYYY` string back into a date; the reference
      against which FormatDate is checked. */
  function ParseDate(s: string, sep: char): Option<Date>
  {
    if |s| == 10 && s[2] == sep && s[5] == sep
       && (forall i :: 0 <= i < 10 && i != 2 && i != 5 ==> IsDigit(s[i]))
    then
      Some(Date(1000 * DigitValue(s[6]) + 100 * DigitValue(s[7]) + 10 * DigitValue(s[8]) + DigitValue(s[9]),
                10 * DigitValue(s[0]) + DigitValue(s[1]),
                10 * DigitValue(s[3]) + DigitValue(s[4])))
    else
      None
  }

  /** Formatting loses nothing: the date can be read back from its text. */
  lemma ParseFormat(d: Date, sep: char)
    requires Formattable(d)
    ensures ParseDate(FormatDate(d, sep), sep) == Some(d)
  {
    var s := FormatDate(d, sep);
    assert s[0..2] == TwoDigits(d.month);
    assert s[3..5] == TwoDigits(d.day);
    assert s[6..10] == FourDigits(d.year);
  }

  /** Distinct dates never share a rendering. */
  lemma FormatInjective(a: Date, b: Date, sep: char)
    requires Formattable(a) && Formattable(b)
    requires FormatDate(a, sep) == FormatDate(b, sep)
    ensures a == b
  {
    ParseFormat(a, sep);
    ParseFormat(b, sep);
  }
}
