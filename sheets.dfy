/** The two in-memory worksheets the endpoint fills, and the value the
    finished workbook is reduced to before it is serialised. */
module Sheets {
  import opened Json

  /** A worksheet row: one cell value per column, in column order. */
  type Row = seq<Json>

  /** A worksheet that rows are appended to one at a time. */
  class Worksheet {
    var title: string
    var rows: seq<Row>

    /** A new, empty sheet with the given title. */
    constructor (title: string)
      ensures this.title == title && rows == []
    {
      this.title := title;
      rows := [];
    }

    /** `ws.append(row)`: the row becomes the sheet's new last row. */
    method Append(row: Row)
      modifies this
      ensures rows == old(rows) + [row]
      ensures title == old(title)
    {
      rows := rows + [row];
    }
  }

  /** The contents of one finished worksheet. */
  datatype Sheet = Sheet(title: string, rows: seq<Row>)

  /** The finished workbook: the invoice sheet first, the item sheet second. */
  datatype Workbook = Workbook(invoices: Sheet, items: Sheet)
}
