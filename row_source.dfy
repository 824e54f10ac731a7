/** The delimited-line source the reader pulls rows from (an encoding/csv
    Reader in Go), seen only through its contract: each call
    yields the next tokenized line, and once the lines run out every call
    reports how the stream ended. */
module RowSources {
  import opened Toa5Types

  /** A stream as the tokenizer sees it: its lines and how it ends. */
  datatype Input = Input(rows: seq<Row>, end: SourceFault)

  class RowSource {
    const rows: seq<Row>
    const end: SourceFault
    var pos: nat

    ghost predicate Valid()
      reads this
    {
      pos <= |rows|
    }

    constructor (input: Input)
      ensures Valid()
      ensures rows == input.rows && end == input.end && pos == 0
    {
      rows := input.rows;
      end := input.end;
      pos := 0;
    }

    /** Yields the next line, or the empty row and the end fault. */
    method Read() returns (row: seq<string>, err: Option<Error>)
      requires Valid()
      modifies this
      ensures Valid()
      ensures old(pos) < |rows| ==> row == rows[old(pos)] && err == None && pos == old(pos) + 1
      ensures old(pos) == |rows| ==> row == [] && err == Some(Source(end)) && pos == old(pos)
    {
      if pos < |rows| {
        row, err := rows[pos], None;
        pos := pos + 1;
      } else {
        row, err := [], Some(Source(end));
      }
    }
  }
}
