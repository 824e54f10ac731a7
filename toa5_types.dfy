/** Values shared by the TOA5 reader: errors, records, the header's
    environment line, reader options and the foreign parsers the reader
    calls (time.ParseInLocation and strconv.ParseFloat in Go). */
module Toa5Types {

  datatype Option<+T> = None | Some(value: T)

  datatype Result<+T, +E> = Ok(value: T) | Err(error: E) {
    /** The error of a failed result, as Go's second return value. */
    function Failure(): Option<E> {
      if Ok? then None else Some(error)
    }
  }

  /** A tokenized line. The tokenizer never yields a line without fields. */
  type Row = r: seq<string> | |r| > 0 witness [""]

  /** How the underlying line source ends: io.EOF, or a line it rejects. */
  datatype SourceFault = EOF | Malformed(line: nat, msg: string)

  datatype Error =
    | Source(fault: SourceFault)               // returned verbatim from the row source
    | TimeParse(layout: string, value: string) // time.ParseError: layout tried, text given
    | NoTOA5File                               // ErrNoTOA5File
    | EmptyRecord                              // ErrEmptyRecord
    | NoOptions                                // ErrNoOptions
    | EnvironmentLength                        // ErrEnvironmentLength

  /** An instant, in nanoseconds after Go's zero time (January 1, year 1, UTC). */
  datatype Time = Time(nanos: int)

  /** What time.ParseInLocation returns alongside an error. */
  const ZeroTime := Time(0)

  datatype Location = UTC | Zone(name: string)

  /** An IEEE-754 double, as its bit pattern. */
  type Float64 = bv64

  /** The bit pattern math.NaN() returns. */
  const NaN: Float64 := 0x7FF8_0000_0000_0001

  /** One value of one column of one data row, with the column's metadata. */
  datatype Record = Record(
    timestamp: Time,
    value: Float64,
    name: string,
    unit: string,
    aggregation: string)

  /** The first header line of a TOA5 file. */
  datatype Environment = Environment(
    filetype: string,
    station: string,
    model: string,
    serial: string,
    osVersion: string,
    program: string,
    signature: string,
    table: string)

  /** Reader options; a None location stands for Go's nil *time.Location. */
  datatype Options = Options(timeLayout: string, timeLocation: Option<Location>, delimiter: char)

  /** time.ParseInLocation(layout, value, location), None when it fails. */
  type TimeParser = (string, string, Location) -> Option<Time>

  /** strconv.ParseFloat(cell, 64), None when it fails (range errors included). */
  type FloatParser = string -> Option<Float64>

  datatype Parsers = Parsers(parseTime: TimeParser, parseFloat: FloatParser)

  const Marker := "TOA5"
  const DefaultTimeLayout := "2006-01-02 15:04:05"
  const FallbackTimeLayout := "2006-01-02 15:04"
  const DefaultDelimiter := ','
}
