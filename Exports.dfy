/** What the report screens hand to the spreadsheet and PDF libraries:
    `downloadExcel(data, filename)` and `downloadPDF(data, title, headers)`. */
module Exports {

  /** One value of `Object.values(row)`: a text or a number. */
  datatype Cell = Text(s: string) | Number(n: int)

  /** A one-sheet workbook written to `fileName`, its sheet built from the
      rows themselves (`json_to_sheet`). */
  datatype Workbook<R> = Workbook(sheetName: string, fileName: string, rows: seq<R>)

  /** A PDF with a title line and one table, saved as `fileName`. */
  datatype PdfTable = PdfTable(title: string, fileName: string, head: seq<string>, body: seq<seq<Cell>>)

  /** `downloadExcel(data, filename)`. */
  function Excel<R>(data: seq<R>, filename: string): (w: Workbook<R>)
    ensures w.rows == data
    ensures w.sheetName == filename && w.fileName == filename + ".xlsx"
  {
    Workbook(filename, filename + ".xlsx", data)
  }

  /** `downloadPDF(data, title, [headers])`: one body row per data row, the
      row's values in field order. */
  function Pdf<R>(data: seq<R>, title: string, headers: seq<string>, values: R -> seq<Cell>): (t: PdfTable)
    ensures |t.body| == |data|
    ensures forall i :: 0 <= i < |data| ==> t.body[i] == values(data[i])
  {
    PdfTable(title, title + ".pdf", headers, seq(|data|, i requires 0 <= i < |data| => values(data[i])))
  }
}
