/** The cells of a spreadsheet row as the two conversion scripts read them
    through pandas: an empty cell, a not-a-number float, a number, or a
    string. Numbers are modelled as integers. */
module Sheets {
  import opened Errors

  datatype Cell =
    | Blank            // None
    | Nan              // float('nan')
    | Num(n: int)
    | Text(s: string)

  type Row = seq<Cell>

  /** `row.iloc[k]`: IndexError past the end of the row. */
  function CellAt(row: Row, k: nat): (r: Result<Cell>)
    ensures r.Ok? <==> k < |row|
    ensures r.Ok? ==> r.value == row[k]
    ensures r.Err? ==> r.error == IndexError
  {
    if k < |row| then Ok(row[k]) else Err(IndexError)
  }
}
