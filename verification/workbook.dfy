/** The output workbook as a map from sheet name to rows. Writing a sheet
    uses `if_sheet_exists="replace"`: the named sheet gets exactly the new
    rows and every other sheet is left as it was. */
module Workbook {
  import opened Extraction

  type Sheets = map<string, seq<FareRow>>

  function WriteSheet(wb: Sheets, name: string, rows: seq<FareRow>): (wb': Sheets)
    ensures name in wb' && wb'[name] == rows
    ensures wb'.Keys == wb.Keys + {name}
    ensures forall k :: k in wb && k != name ==> wb'[k] == wb[k]
  {
    wb[name := rows]
  }

  /** Writing the same sheet twice leaves only the second rows: replace, not
      union. */
  lemma WriteSheetTwice(wb: Sheets, name: string, first: seq<FareRow>, second: seq<FareRow>)
    ensures WriteSheet(WriteSheet(wb, name, first), name, second) == WriteSheet(wb, name, second)
  {
  }

  /** Writes to different sheets do not interfere. */
  lemma WriteSheetsCommute(wb: Sheets, n1: string, r1: seq<FareRow>, n2: string, r2: seq<FareRow>)
    requires n1 != n2
    ensures WriteSheet(WriteSheet(wb, n1, r1), n2, r2) == WriteSheet(WriteSheet(wb, n2, r2), n1, r1)
  {
  }
}
