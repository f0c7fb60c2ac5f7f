# flight-price-web-scraper, modelled in Dafny

The scraper asks on the console for an origin and a destination airport
(three letters each), a start date and an end date (`MM/DD/YY`). Version 1.2
also asks for a scan length of 0 .. 355 days. It then plans one date window
per search day. Version 1.2 scans `period + 1` days and version 1 scans four
days; every window keeps the trip length `end - start`. For each window it
drives a browser session against the ITA Matrix search page. Version 1.2
restarts the session until the results table loads. Version 1 restarts it only
while a step of the search raises, then waits for the table with no limit.
Both versions then read the carrier header cells.
For each carrier it clicks the carrier's column and waits for that carrier's
fare table. It keeps the rows that name an airline, tags them with the
window's two dates, and appends them to an accumulator. Finally it writes the
accumulator to the sheet named after the search date (`MM.DD.YYYY`),
replacing any sheet of that name.

The model covers both `flight_data_scraperv1.2.py` and `flight_data_scraper.py`.

- `InputValidation`: the acceptance rules of the prompts. A prompt's answers
  are a finite sequence; the first accepted answer is returned.
- `Calendar`: proleptic Gregorian dates with Python's `toordinal` arithmetic.
  Adding `timedelta(days=n)` is `AddDays`.
- `DateFormat`: `strftime("%m/%d/%Y")` and its inverse.
- `Planner`: the date windows, first as day ordinals, then on calendar dates,
  then as the texts typed into the form.
- `Waits`: the two wait helpers of each version. The page is reduced to the
  sequence of outcomes (`Timeout` or `Ready`) that successive attempts
  observe.
- `Session`: the session loop (launch, fill, search, wait) and the carrier
  selection step, for each version.
- `Extraction`: `read_screen`, the sheet name, and the carrier list.
- `Workbook`: the workbook as a map from sheet name to rows, with
  replace-on-write.
- `Scraper`: one window (search, carrier loop, persist), and the date loop
  over all windows. `RunWindow` and `Run` name each window's sheet after its
  own search date, which corrects the defect under "## Findings".
  `RunWindowAsWritten` and `RunAsWritten` keep the code's behaviour.

Every UI step and every wait attempt of one window consumes the next outcome
of that window's `Script`. A script that runs out ends the window as
*stalled*: the real program would still be retrying or waiting there.
*Crashed* stands for an exception that no handler catches: a TimeoutError,
or, in the window as written, the unbound `sheet_name` (UnboundLocalError).

Where the code and its comments disagree, the model follows the code:

- In version 1.2 the comment on the carrier loop says a carrier whose table
  does not load after five tries is skipped. The `continue` at line 261
  re-enters the inner `while True`, so the same carrier is clicked again;
  `Scraper.ExhaustedCarrierIsRetried` states this.
- The session loop of version 1.2 has no outer ceiling. The five-try ceiling
  only bounds a single wait, which then raises and restarts the session;
  `Session.RetryHasNoCeiling` states this.

## Model

| member | source | states |
|---|---|---|
| `InputValidation.PeriodInput` | flight_data_scraperv1.2.py:8-23 | the period prompt returns a value iff some answer is an integer in 0..355. That value is the first such answer, and every earlier answer is rejected |
| `InputValidation.CodeInput` | flight_data_scraperv1.2.py:26-55 | the origin and destination prompts return a value iff some answer has length 3 and is all letters. The value is the first accepted answer upper-cased: three upper-case letters |
| `InputValidation.Upper` | flight_data_scraperv1.2.py:40 | `str.upper` on ASCII text keeps the length and upper-cases each ASCII letter in place |
| `InputValidation.UpperKeepsAcceptance` | flight_data_scraperv1.2.py:36-40 | upper-casing an answer neither makes it acceptable nor unacceptable |
| `InputValidation.CodeInputIdempotent` | flight_data_scraper.py:8-20 | a code the prompt returned, typed again, comes back unchanged |
| `Calendar.NextDay` | flight_data_scraperv1.2.py:185 | the day after a valid date is a valid date with ordinal one higher |
| `Calendar.PrevDay` | flight_data_scraperv1.2.py:191 | the day before a valid date is a valid date with ordinal one lower |
| `Calendar.AddDays` | flight_data_scraperv1.2.py:191 | `date + timedelta(days=n)` is a valid date whose ordinal is the old ordinal plus n, for any sign of n |
| `Calendar.DayDiff` | flight_data_scraperv1.2.py:184 | `(end - start).days` is positive iff end comes later in the calendar, zero iff it is the same day, and negative iff it comes earlier |
| `Calendar.OrdinalInjective` | flight_data_scraperv1.2.py:184 | two valid dates with the same ordinal are the same date, so a day difference of 0 means the same day |
| `Calendar.AddDayDiff` | flight_data_scraperv1.2.py:184-191 | adding `(b - a).days` to a gives b back |
| `DateFormat.FormatDate` | flight_data_scraperv1.2.py:192-193 | `%m/%d/%Y` renders a date with a four-digit year as ten characters: digits, with the separator at positions 2 and 5 |
| `DateFormat.ParseFormat` | flight_data_scraperv1.2.py:192-193 | reading the rendered text back gives the same date |
| `DateFormat.FormatInjective` | flight_data_scraperv1.2.py:193 | different dates render to different texts |
| `Planner.DateRange` | flight_data_scraperv1.2.py:185 | `pd.date_range(first, last)` is every day from first to last in order, both included, and is empty when last is before first |
| `Planner.PairWithReturn` | flight_data_scraperv1.2.py:187-191 | each search day is paired with the day `(end - start).days` later, one window per day, in order |
| `Planner.PlanV12` | flight_data_scraperv1.2.py:182-191 | version 1.2 plans period + 1 windows with consecutive search days from start to start + period, all with trip length end - start |
| `Planner.PlanV1` | flight_data_scraper.py:117-126 | version 1 plans exactly four windows, start .. start + 3, whatever the trip length |
| `Planner.FirstWindowIsInput` | flight_data_scraperv1.2.py:184-191 | the first window is the typed start and end day |
| `Planner.SearchDaysDistinct` | flight_data_scraperv1.2.py:185 | no search day is planned twice |
| `Planner.CalendarWindows` | flight_data_scraperv1.2.py:182-191 | the calendar plan has span + 1 windows of valid dates |
| `Planner.CalendarWindowsMatchOrdinals` | flight_data_scraperv1.2.py:182-191 | the calendar plan, read through the day ordinal, is the ordinal plan |
| `Planner.FirstCalendarWindowIsInput` | flight_data_scraperv1.2.py:182-191 | the first calendar window is exactly the parsed start and end date |
| `Planner.WindowYearsInRange` | flight_data_scraperv1.2.py:182-193 | dates read with `%y` plus at most 355 days keep a four-digit year, so every planned date renders in ten characters |
| `Planner.PlanTexts` | flight_data_scraperv1.2.py:187-193 | window i's start text reads back as the date start + i days, and its end text as start + i + `(end - start).days` days. Both are `%m/%d/%Y` renderings with four-digit years |
| `Scraper.Span` | flight_data_scraper.py:120 | version 1 scans 3 extra days whatever the period; version 1.2 scans `period` extra days (line 185 of version 1.2); never more than 355 |
| `Scraper.PlannedDaysPerVersion` | flight_data_scraperv1.2.py:185 | the calendar windows each version plans are that version's ordinal plan: four for version 1, period + 1 for version 1.2 |
| `Waits.WaitAtMost` | flight_data_scraperv1.2.py:141-152 | a wait with a ceiling of n attempts gives up iff the first n outcomes are timeouts. Otherwise it stops at the first `Ready` within them |
| `Waits.BoundedWait` | flight_data_scraperv1.2.py:141-152 | the version 1.2 carrier wait returns True iff the first five attempts all time out. Otherwise it loads at the first `Ready` |
| `Waits.WaitForTableLoad` | flight_data_scraperv1.2.py:111-126 | the counting loop of the version 1.2 table wait gives up iff the first five attempts time out, and loads at the first `Ready` otherwise |
| `Waits.UnboundedWait` | flight_data_scraper.py:77-96 | the version 1 waits never give up: they end only at the first `Ready` |
| `Waits.BoundedWaitGivesUp` | flight_data_scraperv1.2.py:121-126 | five timeouts in a row end a version 1.2 wait with True, whatever follows |
| `Waits.BoundedWaitLoads` | flight_data_scraperv1.2.py:114-120 | fewer than five timeouts and then the element: the wait loads on that attempt |
| `Waits.UnboundedWaitHasNoCeiling` | flight_data_scraper.py:77-84 | any number of timeouts followed by the element still ends a version 1 wait in success |
| `Waits.BoundedWaitIsCausal` | flight_data_scraperv1.2.py:111-126 | once a wait has a verdict, later outcomes do not change it |
| `Session.RetryUntilLoaded` | flight_data_scraperv1.2.py:195-225 | the version 1.2 retry loop never lets a TimeoutError escape. It succeeds only on an attempt whose wait saw the element |
| `Session.RetryLoads` | flight_data_scraperv1.2.py:215-221 | a step that goes through and a wait that loads within five tries leave the loop |
| `Session.RetryAfterFailure` | flight_data_scraperv1.2.py:219-225 | a raised step or an exhausted wait starts the same attempt again on the outcomes that follow |
| `Session.RetryHasNoCeiling` | flight_data_scraperv1.2.py:195-225 | after any number of failed attempts of either kind, a loading attempt succeeds, and the failures count as retries |
| `Session.RetryIsCausal` | flight_data_scraperv1.2.py:195-221 | once the loop succeeds, later outcomes do not change the result |
| `Session.SearchV1` | flight_data_scraper.py:130-154 | the version 1 session loop restarts only on a raised step. After the search click it waits with no ceiling; it never crashes |
| `Session.SearchV1HasNoCeiling` | flight_data_scraper.py:130-154 | any number of raised steps, then a search, then any number of wait timeouts, still ends in success |
| `Session.SelectCarrierV1` | flight_data_scraper.py:177-181 | the version 1 carrier click crashes the program iff it times out. A success is a click that goes through, then wait timeouts, then the table |
| `Session.SelectCarrierV1HasNoCeiling` | flight_data_scraper.py:177-181 | a click that goes through, then any number of table-wait timeouts, then the table, always succeeds: the carrier wait has no ceiling |
| `Session.Search` | flight_data_scraperv1.2.py:195-225 | the search step of either version never crashes the program |
| `Session.SelectCarrier` | flight_data_scraperv1.2.py:252-264 | the version 1.2 carrier step never crashes the program |
| `Extraction.KeepRows` | flight_data_scraperv1.2.py:171-173 | the filter keeps at most the table's rows, and tags every kept row with the window's two dates |
| `Extraction.KeepRowsMembership` | flight_data_scraperv1.2.py:171 | a row is kept iff its airline cell is not null, and it is kept tagged |
| `Extraction.KeepRowsAppend` | flight_data_scraperv1.2.py:171 | the filter keeps table order: filtering two tables one after the other is filtering each |
| `Extraction.KeepRowsCount` | flight_data_scraperv1.2.py:171 | the number of kept rows is the number of rows with an airline |
| `Extraction.ExampleTable` | flight_data_scraperv1.2.py:171-174 | on a table with a separator row between two airline rows, exactly the two airline rows are kept, in order |
| `Extraction.SheetName` | flight_data_scraperv1.2.py:175 | `replace("/", ".")` changes every slash to a dot and nothing else, and leaves no slash |
| `Extraction.SheetNameOfDate` | flight_data_scraperv1.2.py:175 | the sheet of a window is its search date written `MM.DD.YYYY` |
| `Extraction.ReadScreen` | flight_data_scraperv1.2.py:154-176 | the accumulator stays in front unchanged, and the kept rows of this table follow it, tagged with this window's dates |
| `Extraction.HeaderTexts` | flight_data_scraperv1.2.py:239-240 | one text per header cell, in document order |
| `Extraction.Carriers` | flight_data_scraperv1.2.py:239-246 | the carriers are the header texts without the first: N cells give N - 1 carriers |
| `Workbook.WriteSheet` | flight_data_scraperv1.2.py:268-269 | the named sheet holds exactly the new rows, one sheet is added at most, and every other sheet is unchanged |
| `Workbook.WriteSheetTwice` | flight_data_scraperv1.2.py:268-269 | writing a sheet twice leaves only the second rows: replace, not append |
| `Workbook.WriteSheetsCommute` | flight_data_scraperv1.2.py:268-269 | writes to different sheets do not interfere |
| `Scraper.CarrierLoop` | flight_data_scraperv1.2.py:246-266 | when the loop finishes, every carrier's table was read once and in order, after the accumulator. `sheet_name` is set iff some carrier was read; version 1.2 never crashes here |
| `Scraper.RunWindow` | flight_data_scraperv1.2.py:195-269 | corrected (see ## Findings): a persisted window writes its own search date's sheet. Its rows are exactly the kept rows of its carrier tables; in version 1.2 the corrected window never crashes. As written, a first window with no carrier raises UnboundLocalError instead (`Scraper.RunWindowAsWritten`) |
| `Scraper.Run` | flight_data_scraperv1.2.py:187-271 | corrected (see ## Findings): the date loop completes at most one window per plan entry, and stops early iff some window does not persist |
| `Scraper.RunStopsAtFirstFailure` | flight_data_scraperv1.2.py:187-271 | corrected (see ## Findings): every completed window persisted, and the window at the stop did not |
| `Scraper.RunWritesOnlyItsSheets` | flight_data_scraperv1.2.py:268-269 | corrected (see ## Findings): after the run, the sheets are the old ones plus the completed windows' sheets. Every other sheet keeps its rows |
| `Scraper.RunKeepsEveryWindow` | flight_data_scraperv1.2.py:187-269 | corrected (see ## Findings): with distinct sheet names, every completed window's sheet holds exactly that window's rows |
| `Scraper.Scrape` | flight_data_scraperv1.2.py:178-273 | corrected (see ## Findings): the whole scraper completes at most span + 1 windows, and reports completion iff it did all of them |
| `Scraper.PlannedSheetsDistinct` | flight_data_scraperv1.2.py:185-193 | corrected (see ## Findings): the planned windows are written to pairwise different sheets |
| `Scraper.ScrapeKeepsEveryWindow` | flight_data_scraperv1.2.py:178-273 | corrected (see ## Findings): after a run, the sheet `MM.DD.YYYY` of every completed window's search date holds exactly that window's rows |
| `Scraper.ExhaustedCarrierIsRetried` | flight_data_scraperv1.2.py:252-266 | in version 1.2 a carrier is clicked again after any number of raised clicks or exhausted waits, and is then read: it is never skipped |
| `Scraper.CarrierClickTimeoutCrashesV1` | flight_data_scraper.py:173-182 | in version 1 a carrier click that times out ends the program |
| `Scraper.RunWindowAsWritten` | flight_data_scraperv1.2.py:246-269 | with carriers, the window as written equals the corrected window. Without carriers, it writes to the sheet name left over from before, and on the first window it cannot persist |
| `Scraper.RunAsWritten` | flight_data_scraperv1.2.py:187-271 | the date loop as written, threading `sheet_name` across windows, completes at most one window per plan entry |
| `Scraper.AsWrittenAgreesWhenCarriers` | flight_data_scraperv1.2.py:246-269 | when every window has a carrier, the run as written and the corrected run agree |
| `Scraper.StaleSheetNameCounterexample` | flight_data_scraperv1.2.py:266-269 | as written, a second window without carriers overwrites the first window's sheet with no rows |
| `Scraper.StaleSheetNameCorrected` | flight_data_scraperv1.2.py:266-269 | corrected, the same input keeps the first window's rows and gives the second window its own sheet |

## Left out

- Browser lifecycle: launching Firefox, `new_page`, `goto`, filling the form and the search click together are one UI step, which consumes one outcome. `browser.close()` is not modelled; it has no observable effect on the model's results.
- The NameError when the very first browser launch raises, so that `browser.close()` in the handler finds no browser, is not modelled. Every raised step is treated as a clean restart.
- Real time: the 10-second and 25-second timeouts become `Timeout` outcomes. Which outcome a wait sees is an input, not a clock.
- HTML parsing: BeautifulSoup and `pd.read_html` are not modelled. A page is given as header cells and one parsed table per carrier. Column alignment in `pd.concat` is not modelled, because rows keep their own cells.
- The grid of upper-table cells collected into `list` is never used by the program, and is not modelled.
- Excel I/O: openpyxl, the file bootstrap in version 1.2 (lines 286-292), the output path (`ORIGINDEST.xlsx` or `output.xlsx`) and the column layout of a sheet are not modelled. The workbook is a map from sheet name to rows.
- Console I/O and `strptime`: prompt texts, messages and the `%m/%d/%y` parser are not modelled. A parsed date is a valid `Calendar.Date` with a year from 1969 to 2068. The date prompts loop until parsing succeeds, as the other prompts do.
- `InputValidation.CodeInput`: `str.isalpha` and `str.upper` are modelled on ASCII letters only. Python also accepts and upper-cases other Unicode letters.
- `InputValidation.Upper`: models `str.upper` on ASCII only. Python also changes other letters, and some of them change length (`'ß'.upper()` is `'SS'`).
- `DateFormat.FormatDate`: years outside 1000..9999 are not modelled. `strftime("%Y")` prints them with another width, and the scan cannot reach them from a `%y` date.
- Version 1 opens `out_path` (`output.xlsx`, flight_data_scraper.py:6) in append mode at flight_data_scraper.py:184 and never creates it, so its first write raises FileNotFoundError when the file is absent. The model treats the workbook as always present and persists.
- Exceptions other than TimeoutError, and the program's final `return dataframes`, are not modelled.

## Findings

| source | as written | input that shows it | evidently intended | confidence | as-written member | corrected member |
|---|---|---|---|---|---|---|
| flight_data_scraperv1.2.py:266-269 | `sheet_name` is assigned only by `read_screen` inside the carrier loop. A window with no carrier columns keeps the previous window's name and overwrites that sheet with an empty table. On the first window the name is unbound (UnboundLocalError). flight_data_scraper.py:182-185 is the same | two windows, 01/01/2025 with carrier AA and 01/02/2025 whose header row has only the label cell: starting from an empty workbook, the workbook ends with the single sheet `01.01.2025`, now empty | each window writes the sheet named after its own search date | not executed | `Scraper.RunAsWritten`, `Scraper.StaleSheetNameCounterexample` | `Scraper.Run`, `Scraper.RunKeepsEveryWindow`, `Scraper.StaleSheetNameCorrected` |
