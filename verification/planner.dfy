/** The date-range planner. Days are day ordinals (see Calendar): the scan
    covers the search days start .. start + span inclusive, and each search
    day is paired with the return day search + (end - start). Version 1.2
    scans `period` extra days; version 1 always scans 3 extra days. */
module Planner {
  import opened Calendar
  import opened DateFormat
  import InputValidation

  /** Extra days the first version scans after the start date. */
  const V1Span: nat := 3

  /** One search: the day typed into the start field and the day typed into
      the end field. */
  datatype DateWindow = DateWindow(searchDay: int, returnDay: int)

  /** `pd.date_range(first, last, freq="D")`: every day from first to last,
      both included; empty when last is before first. */
  function DateRange(first: int, last: int): (days: seq<int>)
    ensures |days| == if last < first then 0 else last - first + 1
    ensures forall i :: 0 <= i < |days| ==> days[i] == first + i
    decreases last - first
  {
    if last < first then [] else [first] + DateRange(first + 1, last)
  }

  /** The loop over `date_list`: each search day is paired with the day
      `(end - start).days` after it. */
  function PairWithReturn(days: seq<int>, offset: int): (ws: seq<DateWindow>)
    ensures |ws| == |days|
    ensures forall i :: 0 <= i < |ws| ==> ws[i].searchDay == days[i]
    ensures forall i :: 0 <= i < |ws| ==> ws[i].returnDay - ws[i].searchDay == offset
    decreases |days|
  {
    if |days| == 0 then []
    else [DateWindow(days[0], days[0] + offset)] + PairWithReturn(days[1..], offset)
  }

  function PlanWindows(start: int, end: int, span: nat): seq<DateWindow> {
    PairWithReturn(DateRange(start, start + span), end - start)
  }

  /** Version 1.2: period + 1 consecutive search days from the start day to
      start + period, all with the same trip length end - start, which may be
      zero or negative. */
  function PlanV12(start: int, end: int, period: nat): (ws: seq<DateWindow>)
    ensures |ws| == period + 1
    ensures ws[0].searchDay == start && ws[period].searchDay == start + period
    ensures forall i :: 0 <= i < period ==> ws[i + 1].searchDay == ws[i].searchDay + 1
    ensures forall i :: 0 <= i < |ws| ==> ws[i].returnDay - ws[i].searchDay == end - start
  {
    PlanWindows(start, end, period)
  }

  /** Version 1: four consecutive search days start .. start + 3 whatever the
      other inputs, all with the trip length end - start. */
  function PlanV1(start: int, end: int): (ws: seq<DateWindow>)
    ensures |ws| == 4
    ensures forall i :: 0 <= i < 4 ==> ws[i].searchDay == start + i
    ensures forall i :: 0 <= i < 4 ==> ws[i].returnDay - ws[i].searchDay == end - start
  {
    PlanWindows(start, end, V1Span)
  }

  /** The first window is exactly the pair of dates the user typed. */
  lemma FirstWindowIsInput(start: int, end: int, span: nat)
    ensures PlanWindows(start, end, span)[0] == DateWindow(start, end)
  {
  }

  /** No search day is scanned twice. */
  lemma SearchDaysDistinct(start: int, end: int, span: nat, i: int, j: int)
    requires 0 <= i < j <= span
    ensures PlanWindows(start, end, span)[i].searchDay < PlanWindows(start, end, span)[j].searchDay
  {
  }

  /** A search on calendar dates. */
  datatype CalendarWindow = CalendarWindow(search: Date, ret: Date)

  /** The planner on calendar dates, as the scraper computes it with
      `datetime` and `timedelta`. */
  function CalendarWindows(start: Date, end: Date, span: nat): (cs: seq<CalendarWindow>)
    requires Valid(start) && Valid(end)
    ensures |cs| == span + 1
    ensures forall i :: 0 <= i < |cs| ==> Valid(cs[i].search) && Valid(cs[i].ret)
  {
    var offset := DayDiff(end, start);
    seq(span + 1, i requires 0 <= i <= span =>
      var s := AddDays(start, i);
      CalendarWindow(s, AddDays(s, offset)))
  }

  /** The calendar planner is the ordinal planner read through Ordinal. */
  lemma CalendarWindowsMatchOrdinals(start: Date, end: Date, span: nat, i: int)
    requires Valid(start) && Valid(end)
    requires 0 <= i <= span
    ensures Ordinal(CalendarWindows(start, end, span)[i].search)
            == PlanWindows(Ordinal(start), Ordinal(end), span)[i].searchDay
    ensures Ordinal(CalendarWindows(start, end, span)[i].ret)
            == PlanWindows(Ordinal(start), Ordinal(end), span)[i].returnDay
  {
  }

  /** The first calendar window is the typed start date and end date. */
  lemma FirstCalendarWindowIsInput(start: Date, end: Date, span: nat)
    requires Valid(start) && Valid(end)
    ensures CalendarWindows(start, end, span)[0] == CalendarWindow(start, end)
  {
    AddDayDiff(start, end);
  }

  /** What `strptime(text, "%m/%d/%y")` can return: a valid date in the years
      1969 .. 2068. */
  predicate TwoDigitYearDate(d: Date) {
    Valid(d) && 1969 <= d.year <= 2068
  }

  /** Every planned date has a four-digit year, so `%m/%d/%Y` renders it in
      ten characters. */
  lemma WindowYearsInRange(start: Date, end: Date, span: nat, i: int)
    requires TwoDigitYearDate(start) && TwoDigitYearDate(end)
    requires span <= InputValidation.MaxPeriod
    requires 0 <= i <= span
    ensures Formattable(CalendarWindows(start, end, span)[i].search)
    ensures Formattable(CalendarWindows(start, end, span)[i].ret)
  {
    var w := CalendarWindows(start, end, span)[i];
    OrdinalInYear(start);
    OrdinalInYear(end);
    DaysBeforeYearGrows(2068, 2069);
    YearLength(2068);
    DaysBeforeYearGrows(1000, 1969);
    DaysBeforeYearGrows(2069, 10000);
    DaysBeforeYearGrows(start.year, 2069);
    DaysBeforeYearGrows(end.year, 2069);
    DaysBeforeYearGrows(1969, start.year + 1);
    DaysBeforeYearGrows(1969, end.year + 1);
    YearWithin(w.search, 1000, 10000);
    YearWithin(w.ret, 1000, 10000);
  }

  /** The text typed into the two date fields for one window. */
  datatype WindowText = WindowText(startDate: string, endDate: string)

  function FormatWindow(w: CalendarWindow): WindowText
    requires Formattable(w.search) && Formattable(w.ret)
  {
    WindowText(FormatDate(w.search, '/'), FormatDate(w.ret, '/'))
  }

  /** The text `s` reads back, with `%m/%d/%Y`, as the valid date whose day
      ordinal is `day`. */
  predicate DenotesDay(s: string, day: int) {
    ParseDate(s, '/').Some? && Valid(ParseDate(s, '/').value) && Ordinal(ParseDate(s, '/').value) == day
  }

  /** The windows the scraper iterates over, as the `MM/DD/YYYY` texts it
      types into the form and passes to read_screen: window i searches day
      start + i and returns on day start + i + (end - start).days. */
  function PlanTexts(start: Date, end: Date, span: nat): (ts: seq<WindowText>)
    requires TwoDigitYearDate(start) && TwoDigitYearDate(end)
    requires span <= InputValidation.MaxPeriod
    ensures |ts| == span + 1
    ensures forall i :: 0 <= i <= span ==>
      Formattable(CalendarWindows(start, end, span)[i].search)
      && Formattable(CalendarWindows(start, end, span)[i].ret)
      && ts[i] == FormatWindow(CalendarWindows(start, end, span)[i])
    ensures forall i :: 0 <= i <= span ==>
      DenotesDay(ts[i].startDate, Ordinal(start) + i)
      && DenotesDay(ts[i].endDate, Ordinal(start) + i + DayDiff(end, start))
  {
    AllWindowYearsInRange(start, end, span);
    AllWindowTextsDenote(start, end, span);
    var cs := CalendarWindows(start, end, span);
    seq(span + 1, i requires 0 <= i <= span => FormatWindow(cs[i]))
  }

  lemma AllWindowYearsInRange(start: Date, end: Date, span: nat)
    requires TwoDigitYearDate(start) && TwoDigitYearDate(end)
    requires span <= InputValidation.MaxPeriod
    ensures forall i :: 0 <= i <= span ==>
      Formattable(CalendarWindows(start, end, span)[i].search)
      && Formattable(CalendarWindows(start, end, span)[i].ret)
  {
    forall i | 0 <= i <= span
      ensures Formattable(CalendarWindows(start, end, span)[i].search)
      ensures Formattable(CalendarWindows(start, end, span)[i].ret)
    {
      WindowYearsInRange(start, end, span, i);
    }
  }

  /** Each formatted window reads back as its planned search and return day. */
  lemma WindowTextDenotes(start: Date, end: Date, span: nat, i: int)
    requires TwoDigitYearDate(start) && TwoDigitYearDate(end)
    requires span <= InputValidation.MaxPeriod
    requires 0 <= i <= span
    ensures Formattable(CalendarWindows(start, end, span)[i].search)
    ensures Formattable(CalendarWindows(start, end, span)[i].ret)
    ensures DenotesDay(FormatWindow(CalendarWindows(start, end, span)[i]).startDate, Ordinal(start) + i)
    ensures DenotesDay(FormatWindow(CalendarWindows(start, end, span)[i]).endDate,
                       Ordinal(start) + i + DayDiff(end, start))
  {
    var c := CalendarWindows(start, end, span)[i];
    WindowYearsInRange(start, end, span, i);
    ParseFormat(c.search, '/');
    ParseFormat(c.ret, '/');
    CalendarWindowsMatchOrdinals(start, end, span, i);
  }

  lemma AllWindowTextsDenote(start: Date, end: Date, span: nat)
    requires TwoDigitYearDate(start) && TwoDigitYearDate(end)
    requires span <= InputValidation.MaxPeriod
    ensures forall i :: 0 <= i <= span ==>
      Formattable(CalendarWindows(start, end, span)[i].search)
      && Formattable(CalendarWindows(start, end, span)[i].ret)
      && DenotesDay(FormatWindow(CalendarWindows(start, end, span)[i]).startDate, Ordinal(start) + i)
      && DenotesDay(FormatWindow(CalendarWindows(start, end, span)[i]).endDate,
                    Ordinal(start) + i + DayDiff(end, start))
  {
    forall i | 0 <= i <= span
      ensures Formattable(CalendarWindows(start, end, span)[i].search)
      ensures Formattable(CalendarWindows(start, end, span)[i].ret)
      ensures DenotesDay(FormatWindow(CalendarWindows(start, end, span)[i]).startDate, Ordinal(start) + i)
      ensures DenotesDay(FormatWindow(CalendarWindows(start, end, span)[i]).endDate,
                         Ordinal(start) + i + DayDiff(end, start))
    {
      WindowTextDenotes(start, end, span, i);
    }
  }
}
