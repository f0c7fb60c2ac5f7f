/** The session controller of `flight_data_scraper`: for each planned date
    window, search (restarting the browser as the version's session loop
    does), enumerate the carriers, select each carrier and read its table
    into an accumulator that starts empty, then write the accumulator to the
    sheet named after the search date. */
module Scraper {
  import opened Wrappers
  import opened Calendar
  import opened DateFormat
  import opened Planner
  import opened Waits
  import opened Session
  import opened Extraction
  import opened Workbook
  import InputValidation

  /** What the remote page does during one date window: the outcomes of all
      UI steps and waits in order, the header cells of the comparison table
      once the search has loaded, and the table read after each carrier. */
  datatype Script = Script(events: seq<Outcome>, headerCells: seq<HeaderCell>, screens: seq<Table>)

  /** The kept rows of the given tables, one table after the other. */
  function KeptAll(screens: seq<Table>, w: WindowText): seq<FareRow>
    decreases |screens|
  {
    if |screens| == 0 then []
    else KeepRows(screens[0], w.startDate, w.endDate) + KeptAll(screens[1..], w)
  }

  /** Reading the first n tables is reading the first one, then the next
      n - 1. */
  lemma KeptAllStep(screens: seq<Table>, n: nat, w: WindowText)
    requires 1 <= n <= |screens|
    ensures KeptAll(screens[..n], w) == KeepRows(screens[0], w.startDate, w.endDate) + KeptAll(screens[1..][..n - 1], w)
  {
    assert screens[..n][1..] == screens[1..][..n - 1];
  }

  /** How the carrier loop ended. `sheetName` is the `sheet_name` variable
      as the loop leaves it. */
  datatype Collected =
    | Collected(rows: seq<FareRow>, sheetName: Option<string>)
    | CollectStalled
    | CollectCrashed

  /** `for carrier in carriers[1:]`: select the carrier, then read_screen
      into the accumulator. Every carrier is read exactly once and in order;
      in version 1.2 a carrier whose table does not load is selected again,
      never skipped. */
  function CarrierLoop(v: Version, carriers: seq<string>, events: seq<Outcome>, screens: seq<Table>,
                       w: WindowText, acc: seq<FareRow>, sheetName: Option<string>): (c: Collected)
    ensures c.Collected? ==> |screens| >= |carriers|
    ensures c.Collected? ==> c.rows == acc + KeptAll(screens[..|carriers|], w)
    ensures c.Collected? ==>
      c.sheetName == if |carriers| == 0 then sheetName else Some(SheetName(w.startDate))
    ensures v == V12 ==> !c.CollectCrashed?
    decreases |carriers|
  {
    if |carriers| == 0 then
      assert screens[..0] == [];
      Collected(acc, sheetName)
    else
      match SelectCarrier(v, events)
      case Succeeded(used, _) =>
        if |screens| == 0 then CollectStalled
        else
          var screen := ReadScreen(screens[0], w.startDate, w.endDate, acc);
          var c := CarrierLoop(v, carriers[1..], events[used..], screens[1..], w, screen.rows, Some(screen.sheetName));
          if c.Collected? then
            KeptAllStep(screens, |carriers|, w);
            c
          else c
      case Stalled => CollectStalled
      case Crashed => CollectCrashed
  }

  /** How one date window ended: its sheet written with its rows, the page
      outcomes ran out while the program would still be retrying or waiting,
      or an exception that no handler catches ended the program: a
      TimeoutError, or, in the window as written, the unbound `sheet_name`. */
  datatype WindowResult = Persisted(sheet: string, rows: seq<FareRow>) | WindowStalled | WindowCrashed

  /** The sheet a window is written to. */
  function WindowSheet(w: WindowText): string {
    SheetName(w.startDate)
  }

  /** One iteration of the date loop, with the sheet named after this
      window's own search date. The rows written are exactly the kept rows of
      this window's carrier tables: the accumulator starts empty. */
  function RunWindow(v: Version, w: WindowText, s: Script): (r: WindowResult)
    ensures r.Persisted? ==> r.sheet == WindowSheet(w)
    ensures r.Persisted? ==>
      |s.screens| >= |Carriers(s.headerCells)|
      && r.rows == KeptAll(s.screens[..|Carriers(s.headerCells)|], w)
    ensures v == V12 ==> !r.WindowCrashed?
  {
    match Search(v, s.events)
    case Succeeded(used, _) =>
      (match CarrierLoop(v, Carriers(s.headerCells), s.events[used..], s.screens, w, [], None)
       case Collected(rows, _) => Persisted(WindowSheet(w), rows)
       case CollectStalled => WindowStalled
       case CollectCrashed => WindowCrashed)
    case Stalled => WindowStalled
    case Crashed => WindowCrashed
  }

  /** The sheet names of a list of windows. */
  function SheetsOf(plan: seq<WindowText>): set<string>
    decreases |plan|
  {
    if |plan| == 0 then {} else {WindowSheet(plan[0])} + SheetsOf(plan[1..])
  }

  lemma {:induction false} SheetsOfMembership(plan: seq<WindowText>, k: string)
    ensures k in SheetsOf(plan) <==> exists j :: 0 <= j < |plan| && WindowSheet(plan[j]) == k
    decreases |plan|
  {
    if |plan| > 0 {
      SheetsOfMembership(plan[1..], k);
      if k in SheetsOf(plan[1..]) {
        var j :| 0 <= j < |plan[1..]| && WindowSheet(plan[1..][j]) == k;
        assert WindowSheet(plan[j + 1]) == k;
      }
      if exists j :: 0 <= j < |plan| && WindowSheet(plan[j]) == k {
        var j :| 0 <= j < |plan| && WindowSheet(plan[j]) == k;
        if j > 0 {
          assert WindowSheet(plan[1..][j - 1]) == k;
        }
      }
    }
  }

  datatype Stop = AllDone | StalledAt | CrashedAt

  /** The sheets after the run, how many windows were completed, and why the
      run stopped. */
  datatype RunResult = RunResult(sheets: Sheets, completed: nat, stop: Stop)

  /** The date loop: windows are processed strictly in order, each one
      written before the next begins; the run ends at the first window that
      does not complete. */
  function Run(v: Version, plan: seq<WindowText>, scripts: seq<Script>, wb: Sheets): (r: RunResult)
    ensures r.completed <= |plan| && r.completed <= |scripts|
    ensures r.stop.AllDone? <==> r.completed == |plan|
    decreases |plan|
  {
    if |plan| == 0 then RunResult(wb, 0, AllDone)
    else if |scripts| == 0 then RunResult(wb, 0, StalledAt)
    else
      match RunWindow(v, plan[0], scripts[0])
      case Persisted(name, rows) =>
        var r := Run(v, plan[1..], scripts[1..], WriteSheet(wb, name, rows));
        RunResult(r.sheets, r.completed + 1, r.stop)
      case WindowStalled => RunResult(wb, 0, StalledAt)
      case WindowCrashed => RunResult(wb, 0, CrashedAt)
  }

  /** The windows a run completes are exactly its leading windows that
      persist: every window before the stop was written, and the window at
      the stop (when it has a script) was not. */
  lemma {:induction false} RunStopsAtFirstFailure(v: Version, plan: seq<WindowText>, scripts: seq<Script>, wb: Sheets)
    ensures forall i :: 0 <= i < Run(v, plan, scripts, wb).completed ==> RunWindow(v, plan[i], scripts[i]).Persisted?
    ensures Run(v, plan, scripts, wb).completed < |plan| && Run(v, plan, scripts, wb).completed < |scripts| ==>
      !RunWindow(v, plan[Run(v, plan, scripts, wb).completed], scripts[Run(v, plan, scripts, wb).completed]).Persisted?
    decreases |plan|
  {
    if |plan| > 0 && |scripts| > 0 {
      var w := RunWindow(v, plan[0], scripts[0]);
      if w.Persisted? {
        var wb' := WriteSheet(wb, w.sheet, w.rows);
        RunStopsAtFirstFailure(v, plan[1..], scripts[1..], wb');
        var r := Run(v, plan[1..], scripts[1..], wb');
        assert Run(v, plan, scripts, wb).completed == r.completed + 1;
        forall i | 1 <= i <= r.completed
          ensures plan[i] == plan[1..][i - 1] && scripts[i] == scripts[1..][i - 1]
        {
        }
      }
    }
  }

  /** A run writes one sheet per completed window and nothing else: the
      sheets present afterwards are the old ones plus the completed windows'
      sheets, and every other sheet keeps its rows. */
  lemma {:induction false} RunWritesOnlyItsSheets(v: Version, plan: seq<WindowText>, scripts: seq<Script>, wb: Sheets)
    ensures Run(v, plan, scripts, wb).sheets.Keys == wb.Keys + SheetsOf(plan[..Run(v, plan, scripts, wb).completed])
    ensures forall k :: k in wb && k !in SheetsOf(plan[..Run(v, plan, scripts, wb).completed]) ==>
      Run(v, plan, scripts, wb).sheets[k] == wb[k]
    decreases |plan|
  {
    var r := Run(v, plan, scripts, wb);
    if r.completed == 0 {
      assert plan[..0] == [];
    } else {
      var w := RunWindow(v, plan[0], scripts[0]);
      var wb' := WriteSheet(wb, w.sheet, w.rows);
      RunWritesOnlyItsSheets(v, plan[1..], scripts[1..], wb');
      var r' := Run(v, plan[1..], scripts[1..], wb');
      assert w.Persisted?;
      assert r == RunResult(r'.sheets, r'.completed + 1, r'.stop);
      assert plan[..r.completed][1..] == plan[1..][..r'.completed];
    }
  }

  predicate DistinctSheets(plan: seq<WindowText>) {
    forall i, j :: 0 <= i < j < |plan| ==> WindowSheet(plan[i]) != WindowSheet(plan[j])
  }

  lemma DistinctSheetsTail(plan: seq<WindowText>)
    requires |plan| > 0 && DistinctSheets(plan)
    ensures DistinctSheets(plan[1..])
    ensures WindowSheet(plan[0]) !in SheetsOf(plan[1..])
  {
    forall j, k | 0 <= j < k < |plan[1..]|
      ensures WindowSheet(plan[1..][j]) != WindowSheet(plan[1..][k])
    {
      assert plan[1..][j] == plan[j + 1] && plan[1..][k] == plan[k + 1];
    }
    forall j | 0 <= j < |plan[1..]|
      ensures WindowSheet(plan[1..][j]) != WindowSheet(plan[0])
    {
      assert plan[1..][j] == plan[j + 1];
    }
    SheetsOfMembership(plan[1..], WindowSheet(plan[0]));
  }

  /** A sheet outside a list of windows is not in the sheets of any prefix
      of it. */
  lemma SheetsOfPrefix(plan: seq<WindowText>, n: nat, k: string)
    requires n <= |plan| && k !in SheetsOf(plan)
    ensures k !in SheetsOf(plan[..n])
  {
    SheetsOfMembership(plan, k);
    SheetsOfMembership(plan[..n], k);
  }

  /** When the windows have distinct sheet names, every completed window's
      sheet holds exactly that window's rows: no later write clobbers it. */
  lemma {:induction false} RunKeepsEveryWindow(v: Version, plan: seq<WindowText>, scripts: seq<Script>,
                                               wb: Sheets, i: int)
    requires DistinctSheets(plan)
    requires 0 <= i < Run(v, plan, scripts, wb).completed
    ensures RunWindow(v, plan[i], scripts[i]).Persisted?
    ensures WindowSheet(plan[i]) in Run(v, plan, scripts, wb).sheets
    ensures Run(v, plan, scripts, wb).sheets[WindowSheet(plan[i])] == RunWindow(v, plan[i], scripts[i]).rows
    decreases |plan|
  {
    RunStopsAtFirstFailure(v, plan, scripts, wb);
    var w0 := RunWindow(v, plan[0], scripts[0]);
    var wb' := WriteSheet(wb, w0.sheet, w0.rows);
    var r := Run(v, plan[1..], scripts[1..], wb');
    assert Run(v, plan, scripts, wb) == RunResult(r.sheets, r.completed + 1, r.stop);
    DistinctSheetsTail(plan);
    if i == 0 {
      RunWritesOnlyItsSheets(v, plan[1..], scripts[1..], wb');
      SheetsOfPrefix(plan[1..], r.completed, WindowSheet(plan[0]));
    } else {
      RunKeepsEveryWindow(v, plan[1..], scripts[1..], wb', i - 1);
      assert plan[1..][i - 1] == plan[i] && scripts[1..][i - 1] == scripts[i];
    }
  }

  /** Extra days each version scans after the start date. */
  function Span(v: Version, period: int): (n: nat)
    requires 0 <= period <= InputValidation.MaxPeriod
    ensures n <= InputValidation.MaxPeriod
    ensures v == V1 ==> n == V1Span
    ensures v == V12 ==> n == period
  {
    match v
    case V1 => V1Span
    case V12 => period
  }

  /** The calendar windows a version plans are that version's ordinal plan:
      four windows for version 1 whatever the period, period + 1 windows for
      version 1.2. */
  lemma PlannedDaysPerVersion(v: Version, start: Date, end: Date, period: int, i: int)
    requires Valid(start) && Valid(end)
    requires 0 <= period <= InputValidation.MaxPeriod
    requires 0 <= i <= Span(v, period)
    ensures |CalendarWindows(start, end, Span(v, period))| == if v == V1 then 4 else period + 1
    ensures v == V1 ==>
      Ordinal(CalendarWindows(start, end, Span(v, period))[i].search) == PlanV1(Ordinal(start), Ordinal(end))[i].searchDay
      && Ordinal(CalendarWindows(start, end, Span(v, period))[i].ret) == PlanV1(Ordinal(start), Ordinal(end))[i].returnDay
    ensures v == V12 ==>
      Ordinal(CalendarWindows(start, end, Span(v, period))[i].search) == PlanV12(Ordinal(start), Ordinal(end), period)[i].searchDay
      && Ordinal(CalendarWindows(start, end, Span(v, period))[i].ret) == PlanV12(Ordinal(start), Ordinal(end), period)[i].returnDay
  {
    CalendarWindowsMatchOrdinals(start, end, Span(v, period), i);
  }

  /** The whole scraper: plan the windows from the parsed start and end
      dates (and the period, in version 1.2), then run them. */
  function Scrape(v: Version, start: Date, end: Date, period: int, wb: Sheets, scripts: seq<Script>): (r: RunResult)
    requires TwoDigitYearDate(start) && TwoDigitYearDate(end)
    requires 0 <= period <= InputValidation.MaxPeriod
    ensures r.completed <= Span(v, period) + 1 && r.completed <= |scripts|
    ensures r.stop.AllDone? <==> r.completed == Span(v, period) + 1
  {
    Run(v, PlanTexts(start, end, Span(v, period)), scripts, wb)
  }

  /** The planned windows are written to pairwise different sheets: the
      sheet names are the distinct search dates written `MM.DD.YYYY`. */
  lemma PlannedSheetsDistinct(start: Date, end: Date, span: nat)
    requires TwoDigitYearDate(start) && TwoDigitYearDate(end)
    requires span <= InputValidation.MaxPeriod
    ensures DistinctSheets(PlanTexts(start, end, span))
  {
    var ts := PlanTexts(start, end, span);
    var cs := CalendarWindows(start, end, span);
    forall i, j | 0 <= i < j < |ts|
      ensures WindowSheet(ts[i]) != WindowSheet(ts[j])
    {
      SheetNameOfDate(cs[i].search);
      SheetNameOfDate(cs[j].search);
      CalendarWindowsMatchOrdinals(start, end, span, i);
      CalendarWindowsMatchOrdinals(start, end, span, j);
      SearchDaysDistinct(Ordinal(start), Ordinal(end), span, i, j);
      if WindowSheet(ts[i]) == WindowSheet(ts[j]) {
        FormatInjective(cs[i].search, cs[j].search, '.');
        assert false;
      }
    }
  }

  /** After a run, each completed window's search date `MM.DD.YYYY` names a
      sheet holding exactly that window's rows. */
  lemma ScrapeKeepsEveryWindow(v: Version, start: Date, end: Date, period: int, wb: Sheets,
                               scripts: seq<Script>, i: int)
    requires TwoDigitYearDate(start) && TwoDigitYearDate(end)
    requires 0 <= period <= InputValidation.MaxPeriod
    requires 0 <= i < Scrape(v, start, end, period, wb, scripts).completed
    ensures Formattable(CalendarWindows(start, end, Span(v, period))[i].search)
    ensures RunWindow(v, PlanTexts(start, end, Span(v, period))[i], scripts[i]).Persisted?
    ensures FormatDate(CalendarWindows(start, end, Span(v, period))[i].search, '.') in Scrape(v, start, end, period, wb, scripts).sheets
    ensures Scrape(v, start, end, period, wb, scripts).sheets[FormatDate(CalendarWindows(start, end, Span(v, period))[i].search, '.')]
            == RunWindow(v, PlanTexts(start, end, Span(v, period))[i], scripts[i]).rows
  {
    var span := Span(v, period);
    var ts := PlanTexts(start, end, span);
    var c := CalendarWindows(start, end, span)[i];
    var r := Run(v, ts, scripts, wb);
    assert Scrape(v, start, end, period, wb, scripts) == r;
    assert Formattable(c.search) && ts[i] == FormatWindow(c);
    PlannedSheetsDistinct(start, end, span);
    RunKeepsEveryWindow(v, ts, scripts, wb, i);
    SheetNameOfDate(c.search);
    assert WindowSheet(ts[i]) == FormatDate(c.search, '.');
  }

  /** Version 1.2 never skips a carrier: whatever failed attempts come
      first (clicks that raise, waits that give up), the carrier is selected
      again until its table loads, and then its rows are read. */
  lemma ExhaustedCarrierIsRetried(fs: seq<Failure>, k: nat, rest: seq<Outcome>, carrier: string,
                                  t: Table, w: WindowText, acc: seq<FareRow>)
    requires k < MaxAttempts
    ensures CarrierLoop(V12, [carrier], FailuresEvents(fs) + (LoadingAttempt(k) + rest), [t], w, acc, None)
            == Collected(acc + KeepRows(t, w.startDate, w.endDate), Some(SheetName(w.startDate)))
  {
    RetryHasNoCeiling(fs, k, rest);
    assert [t][..1] == [t];
    assert KeptAll([t], w) == KeepRows(t, w.startDate, w.endDate) + KeptAll([], w);
  }

  /** Version 1 has no handler around the carrier click: a click that times
      out ends the whole program, whatever was collected so far. */
  lemma CarrierClickTimeoutCrashesV1(carriers: seq<string>, rest: seq<Outcome>, screens: seq<Table>,
                                     w: WindowText, acc: seq<FareRow>, sheetName: Option<string>)
    requires |carriers| > 0
    ensures CarrierLoop(V1, carriers, [Timeout] + rest, screens, w, acc, sheetName) == CollectCrashed
  {
  }

  // ---------------------------------------------------------------------
  // The sheet name as written: `sheet_name` is only assigned by read_screen
  // inside the carrier loop, and the variable lives across the date loop.

  /** One window as written: the sheet is whatever `sheet_name` holds after
      the carrier loop. With no carriers it still holds the previous
      window's name, or is unbound on the first window (UnboundLocalError). */
  function RunWindowAsWritten(v: Version, w: WindowText, s: Script, sheetName: Option<string>): (r: WindowResult)
    ensures |Carriers(s.headerCells)| > 0 ==> r == RunWindow(v, w, s)
    ensures |Carriers(s.headerCells)| == 0 && r.Persisted? ==> sheetName == Some(r.sheet)
    ensures |Carriers(s.headerCells)| == 0 && sheetName.None? ==> !r.Persisted?
  {
    match Search(v, s.events)
    case Succeeded(used, _) =>
      (match CarrierLoop(v, Carriers(s.headerCells), s.events[used..], s.screens, w, [], sheetName)
       case Collected(rows, Some(name)) => Persisted(name, rows)
       case Collected(rows, None) => WindowCrashed
       case CollectStalled => WindowStalled
       case CollectCrashed => WindowCrashed)
    case Stalled => WindowStalled
    case Crashed => WindowCrashed
  }

  /** The date loop as written, threading `sheet_name` from one window to the
      next. */
  function RunAsWritten(v: Version, plan: seq<WindowText>, scripts: seq<Script>, wb: Sheets,
                        sheetName: Option<string>): (r: RunResult)
    ensures r.completed <= |plan| && r.completed <= |scripts|
    decreases |plan|
  {
    if |plan| == 0 then RunResult(wb, 0, AllDone)
    else if |scripts| == 0 then RunResult(wb, 0, StalledAt)
    else
      match RunWindowAsWritten(v, plan[0], scripts[0], sheetName)
      case Persisted(name, rows) =>
        var r := RunAsWritten(v, plan[1..], scripts[1..], WriteSheet(wb, name, rows), Some(name));
        RunResult(r.sheets, r.completed + 1, r.stop)
      case WindowStalled => RunResult(wb, 0, StalledAt)
      case WindowCrashed => RunResult(wb, 0, CrashedAt)
  }

  /** The defect only shows on a window without carriers: when every window
      has at least one carrier, the code as written and the corrected run
      agree. */
  lemma {:induction false} AsWrittenAgreesWhenCarriers(v: Version, plan: seq<WindowText>, scripts: seq<Script>,
                                                       wb: Sheets, sheetName: Option<string>)
    requires forall i :: 0 <= i < |scripts| ==> |scripts[i].headerCells| >= 2
    ensures RunAsWritten(v, plan, scripts, wb, sheetName) == Run(v, plan, scripts, wb)
    decreases |plan|
  {
    if |plan| > 0 && |scripts| > 0 {
      var w := RunWindow(v, plan[0], scripts[0]);
      if w.Persisted? {
        assert forall i :: 0 <= i < |scripts| - 1 ==> scripts[1..][i] == scripts[i + 1];
        AsWrittenAgreesWhenCarriers(v, plan[1..], scripts[1..], WriteSheet(wb, w.sheet, w.rows), Some(w.sheet));
      }
    }
  }

  /** Two windows of the scan, the second of which shows a comparison table
      with no carrier column. */
  function CounterexamplePlan(): seq<WindowText> {
    [WindowText("01/01/2025", "01/05/2025"), WindowText("01/02/2025", "01/06/2025")]
  }

  function CounterexampleScripts(): seq<Script> {
    [Script([Ready, Ready, Ready, Ready], [HeaderCell(""), HeaderCell("AA")], [[RawRow(Some("AA"), ["$100"])]]),
     Script([Ready, Ready], [HeaderCell("")], [])]
  }

  lemma CounterexampleFirstSearch()
    ensures Search(V12, CounterexampleScripts()[0].events) == Succeeded(2, 0)
    ensures Carriers(CounterexampleScripts()[0].headerCells) == ["AA"]
    ensures CounterexampleScripts()[0].events[2..] == [Ready, Ready]
  {
    assert BoundedWait([Ready, Ready, Ready]) == Loaded(1);
  }

  lemma CounterexampleSecondSearch()
    ensures Search(V12, CounterexampleScripts()[1].events) == Succeeded(2, 0)
    ensures Carriers(CounterexampleScripts()[1].headerCells) == []
  {
    assert BoundedWait([Ready]) == Loaded(1);
  }

  lemma CounterexampleFirstSheetName()
    ensures WindowSheet(CounterexamplePlan()[0]) == "01.01.2025"
  {
    SheetNameIs("01/01/2025", "01.01.2025");
  }

  lemma CounterexampleSecondSheetName()
    ensures WindowSheet(CounterexamplePlan()[1]) == "01.02.2025"
  {
    SheetNameIs("01/02/2025", "01.02.2025");
  }

  /** The first window reads one AA row, whatever `sheet_name` held. */
  lemma CounterexampleFirstCarriers(sheetName: Option<string>)
    ensures CarrierLoop(V12, ["AA"], [Ready, Ready], CounterexampleScripts()[0].screens,
                        CounterexamplePlan()[0], [], sheetName)
            == Collected([FareRow("AA", ["$100"], "01/01/2025", "01/05/2025")], Some("01.01.2025"))
  {
    var w := CounterexamplePlan()[0];
    var t := CounterexampleScripts()[0].screens[0];
    var row := FareRow("AA", ["$100"], "01/01/2025", "01/05/2025");
    assert BoundedWait([Ready]) == Loaded(1);
    assert SelectCarrier(V12, [Ready, Ready]) == Succeeded(2, 0);
    SheetNameIs("01/01/2025", "01.01.2025");
    assert KeepRows(t, w.startDate, w.endDate) == [row];
    var screen := ReadScreen(t, w.startDate, w.endDate, []);
    assert screen == Screen("01.01.2025", [row]);
    assert CarrierLoop(V12, [], [], [], w, [row], Some("01.01.2025")) == Collected([row], Some("01.01.2025"));
  }

  /** A window whose search succeeds and whose carrier loop collects is
      persisted with the collected rows. */
  lemma RunWindowCollected(v: Version, w: WindowText, s: Script, used: nat, retries: nat,
                           rows: seq<FareRow>, sheetName: Option<string>)
    requires Search(v, s.events) == Succeeded(used, retries)
    requires CarrierLoop(v, Carriers(s.headerCells), s.events[used..], s.screens, w, [], None) == Collected(rows, sheetName)
    ensures RunWindow(v, w, s) == Persisted(WindowSheet(w), rows)
  {
  }

  lemma RunWindowAsWrittenCollected(v: Version, w: WindowText, s: Script, used: nat, retries: nat,
                                    rows: seq<FareRow>, before: Option<string>, name: string)
    requires Search(v, s.events) == Succeeded(used, retries)
    requires CarrierLoop(v, Carriers(s.headerCells), s.events[used..], s.screens, w, [], before) == Collected(rows, Some(name))
    ensures RunWindowAsWritten(v, w, s, before) == Persisted(name, rows)
  {
  }

  lemma CounterexampleFirstWindow(sheetName: Option<string>)
    ensures RunWindowAsWritten(V12, CounterexamplePlan()[0], CounterexampleScripts()[0], sheetName)
            == Persisted("01.01.2025", [FareRow("AA", ["$100"], "01/01/2025", "01/05/2025")])
  {
    CounterexampleFirstSearch();
    CounterexampleFirstCarriers(sheetName);
    RunWindowAsWrittenCollected(V12, CounterexamplePlan()[0], CounterexampleScripts()[0], 2, 0,
      [FareRow("AA", ["$100"], "01/01/2025", "01/05/2025")], sheetName, "01.01.2025");
  }

  lemma CounterexampleFirstWindowCorrected()
    ensures RunWindow(V12, CounterexamplePlan()[0], CounterexampleScripts()[0])
            == Persisted("01.01.2025", [FareRow("AA", ["$100"], "01/01/2025", "01/05/2025")])
  {
    CounterexampleFirstSearch();
    CounterexampleFirstCarriers(None);
    CounterexampleFirstSheetName();
    RunWindowCollected(V12, CounterexamplePlan()[0], CounterexampleScripts()[0], 2, 0,
      [FareRow("AA", ["$100"], "01/01/2025", "01/05/2025")], Some("01.01.2025"));
  }

  lemma CounterexampleSecondWindow()
    ensures RunWindowAsWritten(V12, CounterexamplePlan()[1], CounterexampleScripts()[1], Some("01.01.2025"))
            == Persisted("01.01.2025", [])
  {
    CounterexampleSecondSearch();
  }

  lemma CounterexampleSecondWindowCorrected()
    ensures RunWindow(V12, CounterexamplePlan()[1], CounterexampleScripts()[1]) == Persisted("01.02.2025", [])
  {
    CounterexampleSecondSearch();
    CounterexampleSecondSheetName();
  }

  /** As written, the second window overwrites the first window's sheet with
      an empty table and its own sheet is never written. */
  lemma StaleSheetNameCounterexample()
    ensures RunAsWritten(V12, CounterexamplePlan(), CounterexampleScripts(), map[], None).sheets
            == map["01.01.2025" := []]
  {
    var plan := CounterexamplePlan();
    var scripts := CounterexampleScripts();
    CounterexampleFirstWindow(None);
    CounterexampleSecondWindow();
    var wb1 := WriteSheet(map[], "01.01.2025", [FareRow("AA", ["$100"], "01/01/2025", "01/05/2025")]);
    assert RunAsWritten(V12, plan, scripts, map[], None).sheets
        == RunAsWritten(V12, plan[1..], scripts[1..], wb1, Some("01.01.2025")).sheets;
    assert plan[1..][1..] == [];
    assert RunAsWritten(V12, plan[1..], scripts[1..], wb1, Some("01.01.2025")).sheets
        == WriteSheet(wb1, "01.01.2025", []);
    WriteSheetTwice(map[], "01.01.2025", [FareRow("AA", ["$100"], "01/01/2025", "01/05/2025")], []);
  }

  /** The corrected run on the same input keeps the first window's rows and
      gives the second window its own, empty, sheet. */
  lemma StaleSheetNameCorrected()
    ensures Run(V12, CounterexamplePlan(), CounterexampleScripts(), map[]).sheets
            == map["01.01.2025" := [FareRow("AA", ["$100"], "01/01/2025", "01/05/2025")], "01.02.2025" := []]
  {
    var plan := CounterexamplePlan();
    var scripts := CounterexampleScripts();
    CounterexampleFirstWindowCorrected();
    CounterexampleSecondWindowCorrected();
    var wb1 := WriteSheet(map[], "01.01.2025", [FareRow("AA", ["$100"], "01/01/2025", "01/05/2025")]);
    assert Run(V12, plan, scripts, map[]).sheets == Run(V12, plan[1..], scripts[1..], wb1).sheets;
    assert plan[1..][1..] == [];
    assert Run(V12, plan[1..], scripts[1..], wb1).sheets == WriteSheet(wb1, "01.02.2025", []);
  }
}
