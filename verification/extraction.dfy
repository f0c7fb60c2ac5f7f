/** The table extractor (`read_screen`) and the carrier enumerator. A parsed
    table is a list of rows whose "Airline filter_alt" cell is either null or
    a text; the other cells are kept as they were read. */
module Extraction {
  import opened Wrappers
  import opened DateFormat

  /** One row of the first `role="table"` table on the page. */
  datatype RawRow = RawRow(airline: Option<string>, cells: seq<string>)

  type Table = seq<RawRow>

  /** A kept row with the window's `start_date` and `end_date` columns added. */
  datatype FareRow = FareRow(airline: string, cells: seq<string>, startDate: string, endDate: string)

  function Tag(r: RawRow, startDate: string, endDate: string): FareRow
    requires r.airline.Some?
  {
    FareRow(r.airline.value, r.cells, startDate, endDate)
  }

  /** `df[df["Airline filter_alt"].notnull()]` followed by the two date
      columns: the rows with an airline, in table order, all carrying the
      same start and end date. */
  function KeepRows(t: Table, startDate: string, endDate: string): (kept: seq<FareRow>)
    ensures |kept| <= |t|
    ensures forall k :: 0 <= k < |kept| ==> kept[k].startDate == startDate && kept[k].endDate == endDate
    decreases |t|
  {
    if |t| == 0 then []
    else if t[0].airline.Some? then [Tag(t[0], startDate, endDate)] + KeepRows(t[1..], startDate, endDate)
    else KeepRows(t[1..], startDate, endDate)
  }

  /** Every row with an airline is kept, and every kept row is such a row,
      tagged. */
  lemma {:induction false} KeepRowsMembership(t: Table, startDate: string, endDate: string)
    ensures forall i :: 0 <= i < |t| && t[i].airline.Some? ==>
      Tag(t[i], startDate, endDate) in KeepRows(t, startDate, endDate)
    ensures forall x :: x in KeepRows(t, startDate, endDate) ==>
      exists i :: 0 <= i < |t| && t[i].airline.Some? && x == Tag(t[i], startDate, endDate)
    decreases |t|
  {
    if |t| > 0 {
      KeepRowsMembership(t[1..], startDate, endDate);
      assert forall i :: 1 <= i < |t| ==> t[i] == t[1..][i - 1];
    }
  }

  /** Rows with a null airline contribute nothing; the filter keeps the
      table order, so it distributes over concatenation. */
  lemma {:induction false} KeepRowsAppend(a: Table, b: Table, startDate: string, endDate: string)
    ensures KeepRows(a + b, startDate, endDate) == KeepRows(a, startDate, endDate) + KeepRows(b, startDate, endDate)
    decreases |a|
  {
    if |a| > 0 {
      assert (a + b)[1..] == a[1..] + b;
      KeepRowsAppend(a[1..], b, startDate, endDate);
    } else {
      assert a + b == b;
    }
  }

  /** The number of rows kept is the number of rows with an airline. */
  function PresentCount(t: Table): nat
    decreases |t|
  {
    if |t| == 0 then 0 else (if t[0].airline.Some? then 1 else 0) + PresentCount(t[1..])
  }

  lemma {:induction false} KeepRowsCount(t: Table, startDate: string, endDate: string)
    ensures |KeepRows(t, startDate, endDate)| == PresentCount(t)
    decreases |t|
  {
    if |t| > 0 {
      KeepRowsCount(t[1..], startDate, endDate);
    }
  }

  /** `starting_date.replace("/", ".")`. */
  function SheetName(s: string): (r: string)
    ensures |r| == |s|
    ensures forall i :: 0 <= i < |s| ==> r[i] == if s[i] == '/' then '.' else s[i]
    ensures '/' !in r
    decreases |s|
  {
    if |s| == 0 then [] else [if s[0] == '/' then '.' else s[0]] + SheetName(s[1..])
  }

  /** The replacement is determined character by character. */
  lemma SheetNameIs(s: string, r: string)
    requires |r| == |s|
    requires forall i :: 0 <= i < |s| ==> r[i] == if s[i] == '/' then '.' else s[i]
    ensures SheetName(s) == r
  {
  }

  /** The sheet for a window is its search date written `MM.DD.YYYY`. */
  lemma SheetNameOfDate(d: Calendar.Date)
    requires Formattable(d)
    ensures SheetName(FormatDate(d, '/')) == FormatDate(d, '.')
  {
    var a := SheetName(FormatDate(d, '/'));
    var b := FormatDate(d, '.');
    assert forall i :: 0 <= i < 10 ==> a[i] == b[i];
  }

  /** What `read_screen` returns: the sheet name and the accumulator. */
  datatype Screen = Screen(sheetName: string, rows: seq<FareRow>)

  /** `read_screen`: the existing rows stay in front, untouched, and the
      rows kept from this table follow them. */
  function ReadScreen(t: Table, startDate: string, endDate: string, acc: seq<FareRow>): (r: Screen)
    ensures |r.rows| == |acc| + PresentCount(t)
    ensures r.rows[..|acc|] == acc
    ensures forall k :: |acc| <= k < |r.rows| ==> r.rows[k].startDate == startDate && r.rows[k].endDate == endDate
    ensures r.rows[|acc|..] == KeepRows(t, startDate, endDate)
    ensures r.sheetName == SheetName(startDate)
  {
    KeepRowsCount(t, startDate, endDate);
    var rows := acc + KeepRows(t, startDate, endDate);
    assert rows[|acc|..] == KeepRows(t, startDate, endDate);
    Screen(SheetName(startDate), rows)
  }

  /** A three-row fare table, a separator row between an AA row and a DL
      row: the separator is dropped and the AA and DL rows are kept, in order. */
  lemma ExampleTable()
    ensures KeepRows([RawRow(Some("AA"), ["$100"]), RawRow(None, [""]), RawRow(Some("DL"), ["$120"])],
                     "01/01/2025", "01/05/2025")
         == [FareRow("AA", ["$100"], "01/01/2025", "01/05/2025"),
             FareRow("DL", ["$120"], "01/01/2025", "01/05/2025")]
  {
  }

  /** One `mat-header-cell` of the comparison table; its text is the carrier
      label (the first cell labels the row headings). */
  datatype HeaderCell = HeaderCell(text: string)

  function HeaderTexts(cells: seq<HeaderCell>): (texts: seq<string>)
    ensures |texts| == |cells|
    ensures forall i :: 0 <= i < |cells| ==> texts[i] == cells[i].text
    decreases |cells|
  {
    if |cells| == 0 then [] else [cells[0].text] + HeaderTexts(cells[1..])
  }

  /** `carriers[1:]`: the header texts with the first one dropped, in
      document order; N cells give N - 1 carriers (none for no cells). */
  function Carriers(cells: seq<HeaderCell>): (carriers: seq<string>)
    ensures |carriers| == if |cells| == 0 then 0 else |cells| - 1
    ensures forall i :: 0 <= i < |carriers| ==> carriers[i] == cells[i + 1].text
  {
    var texts := HeaderTexts(cells);
    if |texts| == 0 then [] else texts[1..]
  }
}
