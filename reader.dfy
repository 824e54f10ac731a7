/** The TOA5 reader: a forward-only cursor that reads the four header lines
    of a stream once, then turns each wide data row into one outcome per
    column after the timestamp, pulling the next row when the current one
    is used up. */
module Toa5 {
  import opened Toa5Types
  import opened RowSources
  import opened Toa5Spec

  /** The timestamp settings of a reader running with options `o`. */
  function TimingOf(o: Options, p: Parsers): TimeSettings
    requires o.timeLocation.Some?
  {
    TimeSettings(o.timeLayout, o.timeLocation.value, p.parseTime)
  }

  class Reader {
    const src: RowSource          // the underlying line reader
    const options: Options
    const parsers: Parsers
    var currentRow: seq<string>   // the data row being served
    var columnIndex: int          // the cell served last
    var rowTimestamp: Time        // the timestamp of currentRow
    var environment: Option<Environment>
    var fields: seq<string>
    var units: seq<string>
    var aggregation: seq<string>

    /** The options have been defaulted. */
    ghost predicate Configured()
    {
      options.timeLayout != "" && options.timeLocation.Some?
    }

    ghost predicate Valid()
      reads this, src
    {
      src.Valid() && Configured() &&
      0 <= columnIndex && (currentRow != [] ==> columnIndex < |currentRow|)
    }

    /** The header has been read from the first four lines of the source,
        and at least one data row after it. */
    ghost predicate Opened()
      reads this, src
    {
      |src.rows| >= 5 && src.pos >= 5 && |src.rows[0]| >= 8 &&
      environment == Some(EnvironmentOf(src.rows[0])) &&
      fields == src.rows[1] && units == src.rows[2] && aggregation == src.rows[3]
    }

    ghost function Timing(): TimeSettings
      requires options.timeLocation.Some?
    {
      TimingOf(options, parsers)
    }

    ghost function Settings(): Setup
      reads this`fields, this`units, this`aggregation
      requires options.timeLocation.Some?
    {
      Setup(fields, units, aggregation, Timing(), parsers.parseFloat)
    }

    /** The cell the next Read indexes lies inside its row and inside the
        three metadata lines. */
    ghost predicate NextReadSafe()
      reads this, src
      requires Valid()
    {
      var i := columnIndex + 1;
      if i < |currentRow| then CellReadable(Settings(), currentRow, i)
      else src.pos < |src.rows| && RowStamp(Timing(), src.rows[src.pos][0]).Ok? ==>
        CellReadable(Settings(), src.rows[src.pos], 1)
    }

    /** Every cell still to be served, in the current row and in the rows
        the source has left, can be read. */
    ghost predicate StreamFits()
      reads this, src
      requires Valid()
    {
      (columnIndex + 1 >= |currentRow| || RowFits(Settings(), currentRow)) &&
      RowsPullFit(Settings(), src.rows, src.pos)
    }

    /** The outcomes the reader still has to give before the source's end:
        the rest of the current row, then every row the source has left. */
    ghost function Pending(): seq<Outcome>
      reads this, src
      requires Valid() && StreamFits()
    {
      PendingOf(Settings(), currentRow, columnIndex, rowTimestamp, src.rows, src.pos)
    }

    constructor (src: RowSource, options: Options, parsers: Parsers)
      requires src.Valid() && options.timeLayout != "" && options.timeLocation.Some?
      ensures Valid()
      ensures this.src == src && this.options == options && this.parsers == parsers
      ensures currentRow == [] && columnIndex == 0 && rowTimestamp == ZeroTime
      ensures environment == None && fields == [] && units == [] && aggregation == []
    {
      this.src := src;
      this.options := options;
      this.parsers := parsers;
      currentRow, columnIndex, rowTimestamp := [], 0, ZeroTime;
      environment, fields, units, aggregation := None, [], [], [];
    }

    /** The first header line, as parsed. */
    function Environment(): (e: Option<Environment>)
      reads this, src
      requires Opened()
      ensures e.Some? && EnvironmentFields(e.value) == src.rows[0][..8]
    {
      environment
    }

    /** The second header line, verbatim. */
    function Fields(): (f: seq<string>)
      reads this, src
      requires Opened()
      ensures f == src.rows[1]
    {
      fields
    }

    /** The third header line, verbatim. */
    function Units(): (u: seq<string>)
      reads this, src
      requires Opened()
      ensures u == src.rows[2]
    {
      units
    }

    /** The fourth header line, verbatim. */
    function Aggregation(): (a: seq<string>)
      reads this, src
      requires Opened()
      ensures a == src.rows[3]
    {
      aggregation
    }

    /** Reads header line 1. Its length is checked before its marker, and
        the environment is stored before the marker is checked. */
    method ReadEnvironmentLine() returns (err: Option<Error>)
      requires src.Valid()
      modifies this`environment, src
      ensures src.Valid()
      ensures old(src.pos) == |src.rows| ==>
        err == Some(Source(src.end)) && src.pos == old(src.pos) && environment == old(environment)
      ensures old(src.pos) < |src.rows| ==>
        var line := src.rows[old(src.pos)];
        src.pos == old(src.pos) + 1 &&
        err == ParseEnvironment(line).Failure() &&
        environment == if |line| >= 8 then Some(EnvironmentOf(line)) else old(environment)
    {
      var line, e := src.Read();
      if e.Some? {
        return e;
      }
      if |line| < 8 {
        return Some(EnvironmentLength);
      }
      environment := Some(EnvironmentOf(line));
      if environment.value.filetype != Marker {
        return Some(NoTOA5File);
      }
      return None;
    }

    /** Reads the four header lines of a fresh source. */
    method ReadHeader() returns (err: Option<Error>)
      requires src.Valid() && src.pos == 0
      modifies this`environment, this`fields, this`units, this`aggregation, src
      ensures src.Valid()
      ensures err == HeaderError(src.rows, src.end)
      ensures err.None? ==>
        src.pos == 4 && environment == Some(EnvironmentOf(src.rows[0])) &&
        fields == src.rows[1] && units == src.rows[2] && aggregation == src.rows[3]
    {
      err := ReadEnvironmentLine();
      if err.Some? {
        return;
      }
      var e;
      fields, e := src.Read();
      if e.Some? {
        return e;
      }
      units, e := src.Read();
      if e.Some? {
        return e;
      }
      aggregation, e := src.Read();
      if e.Some? {
        return e;
      }
      return None;
    }

    /** Pulls the next data row. On a successful pull the row is replaced
        and the column index reset whatever its timestamp gives; the
        timestamp is tried with the primary layout, then the fallback. */
    method ReadNextRow() returns (err: Option<Error>)
      requires src.Valid() && Configured() && 0 <= columnIndex
      modifies this`currentRow, this`columnIndex, this`rowTimestamp, src
      ensures Valid()
      ensures old(src.pos) == |src.rows| ==>
        err == Some(Source(src.end)) && currentRow == [] && src.pos == old(src.pos) &&
        columnIndex == old(columnIndex) && rowTimestamp == old(rowTimestamp)
      ensures old(src.pos) < |src.rows| ==>
        currentRow == src.rows[old(src.pos)] && src.pos == old(src.pos) + 1 && columnIndex == 0 &&
        rowTimestamp == StampOrZero(RowStamp(Timing(), currentRow[0])) &&
        err == RowStamp(Timing(), currentRow[0]).Failure()
    {
      var e;
      currentRow, e := src.Read();
      if e.Some? {
        return e;
      }
      columnIndex := 0;
      var location := options.timeLocation.value;
      var t := parsers.parseTime(options.timeLayout, currentRow[0], location);
      rowTimestamp := if t.Some? then t.value else ZeroTime;
      if t.Some? {
        return None;
      }
      t := parsers.parseTime(FallbackTimeLayout, currentRow[0], location);
      rowTimestamp := if t.Some? then t.value else ZeroTime;
      err := if t.Some? then None else Some(TimeParse(FallbackTimeLayout, currentRow[0]));
    }

    /** When every pending cell fits, so does the one the next read indexes. */
    lemma FitsAreSafe()
      requires Valid() && StreamFits()
      ensures NextReadSafe()
    {
      if columnIndex + 1 >= |currentRow| && src.pos < |src.rows| {
        assert PullFits(Settings(), src.rows[src.pos]);
      }
    }

    /** The outcome of the cell at the column index: its value parsed, NaN
        when it does not parse, and ErrEmptyRecord for an unnamed column. */
    method ServeCell() returns (out: Outcome)
      requires options.timeLocation.Some? && CellReadable(Settings(), currentRow, columnIndex)
      ensures out == CellOutcome(Settings(), currentRow, rowTimestamp, columnIndex)
    {
      var parsed := parsers.parseFloat(currentRow[columnIndex]);
      var v := if parsed.Some? then parsed.value else NaN;
      var name := fields[columnIndex];
      if name == "" {
        return Err(EmptyRecord);
      }
      return Ok(Record(rowTimestamp, v, fields[columnIndex], units[columnIndex], aggregation[columnIndex]));
    }

    /** A read that moves the cursor as ReadMoves says gives the first
        pending outcome and leaves the rest pending. */
    twostate lemma ConsumesPending(out: Outcome)
      requires old(Valid()) && Valid()
      requires unchanged(this`fields, this`units, this`aggregation)
      requires ReadMoves(Settings(), src.rows, src.end, old(currentRow), old(columnIndex), old(rowTimestamp), old(src.pos),
                         currentRow, columnIndex, rowTimestamp, src.pos, out)
      ensures old(StreamFits()) ==>
        StreamFits() && out == Head(old(Pending()), src.end) && Pending() == Tail(old(Pending()))
    {
      if old(StreamFits()) {
        ReadStep(Settings(), src.rows, src.end, old(currentRow), old(columnIndex), old(rowTimestamp), old(src.pos),
                 currentRow, columnIndex, rowTimestamp, src.pos, out);
      }
    }

    /** Gives the outcome of the next cell: the column index is advanced
        first, and a used-up row is replaced by the next one, whose first
        data cell is then served. */
    method Read() returns (out: Outcome)
      requires Valid() && NextReadSafe()
      modifies this`currentRow, this`columnIndex, this`rowTimestamp, src
      ensures Valid()
      ensures old(Opened()) ==> Opened()
      ensures ReadMoves(Settings(), src.rows, src.end, old(currentRow), old(columnIndex), old(rowTimestamp), old(src.pos),
                        currentRow, columnIndex, rowTimestamp, src.pos, out)
      ensures old(StreamFits()) ==>
        StreamFits() && out == Head(old(Pending()), src.end) && Pending() == Tail(old(Pending()))
    {
      columnIndex := columnIndex + 1;
      if columnIndex >= |currentRow| {
        var err := ReadNextRow();
        if err.Some? {
          out := Err(err.value);
        } else {
          columnIndex := columnIndex + 1;
          out := ServeCell();
        }
      } else {
        out := ServeCell();
      }
      ConsumesPending(out);
    }
  }

  /** n successive reads, as a caller's read loop performs them: the
      pending outcomes in order, then the source's end on every later read. */
  method ReadMany(r: Reader, n: nat) returns (outs: seq<Outcome>)
    requires r.Valid() && r.StreamFits()
    modifies r`currentRow, r`columnIndex, r`rowTimestamp, r.src
    ensures r.Valid() && r.StreamFits()
    ensures outs == Upcoming(old(r.Pending()), r.src.end, n)
    ensures r.Pending() == Skip(old(r.Pending()), n)
  {
    ghost var p0 := r.Pending();
    outs := [];
    var i := 0;
    while i < n
      invariant 0 <= i <= n
      invariant r.Valid() && r.StreamFits()
      invariant outs == Upcoming(p0, r.src.end, i)
      invariant r.Pending() == Skip(p0, i)
    {
      r.FitsAreSafe();
      var out := r.Read();
      UpcomingStep(p0, r.src.end, i);
      outs := outs + [out];
      i := i + 1;
    }
  }

  /** Opens a stream: the options are defaulted, the header read, and the
      first data row pulled; any error aborts and no reader is returned. */
  method OpenReader(input: Input, opt: Options, parsers: Parsers) returns (res: Result<Reader, Error>)
    ensures res.Err? <==> OpenError(input.rows, input.end, TimingOf(WithDefaults(opt), parsers)).Some?
    ensures res.Err? ==> Some(res.error) == OpenError(input.rows, input.end, TimingOf(WithDefaults(opt), parsers))
    ensures res.Ok? ==>
      fresh(res.value) && fresh(res.value.src) && OpenedFrom(res.value, input, WithDefaults(opt), parsers)
  {
    var o := WithDefaults(opt);
    var src := new RowSource(input);
    var r := new Reader(src, o, parsers);
    var err := r.ReadHeader();
    if err.Some? {
      return Err(err.value);
    }
    err := r.ReadNextRow();
    if err.Some? {
      return Err(err.value);
    }
    return Ok(r);
  }

  /** A reader freshly opened on `input` with options `o`: the header taken
      from the first four lines, the fifth line as its current row. */
  ghost predicate OpenedFrom(r: Reader, input: Input, o: Options, parsers: Parsers)
    reads r, r.src
  {
    r.Valid() && r.Opened() && r.options == o && r.parsers == parsers &&
    r.src.rows == input.rows && r.src.end == input.end && r.src.pos == 5 &&
    r.currentRow == input.rows[4] && r.columnIndex == 0 &&
    r.rowTimestamp == StampOrZero(RowStamp(TimingOf(o, parsers), input.rows[4][0]))
  }

  /** A reader with the default options and a comma delimiter. */
  method NewReader(input: Input, parsers: Parsers) returns (res: Result<Reader, Error>)
    ensures var o := Options(DefaultTimeLayout, Some(UTC), DefaultDelimiter);
      (res.Err? <==> OpenError(input.rows, input.end, TimingOf(o, parsers)).Some?) &&
      (res.Err? ==> Some(res.error) == OpenError(input.rows, input.end, TimingOf(o, parsers))) &&
      (res.Ok? ==> fresh(res.value) && fresh(res.value.src) && OpenedFrom(res.value, input, o, parsers))
  {
    res := OpenReader(input, Options("", None, DefaultDelimiter), parsers);
  }

  /** A reader with the caller's options; none at all is an error. */
  method NewReaderWithOptions(input: Input, opt: Option<Options>, parsers: Parsers)
    returns (res: Result<Reader, Error>)
    ensures opt.None? ==> res == Err(NoOptions)
    ensures opt.Some? ==> var o := WithDefaults(opt.value);
      (res.Err? <==> OpenError(input.rows, input.end, TimingOf(o, parsers)).Some?) &&
      (res.Err? ==> Some(res.error) == OpenError(input.rows, input.end, TimingOf(o, parsers))) &&
      (res.Ok? ==> fresh(res.value) && fresh(res.value.src) && OpenedFrom(res.value, input, o, parsers))
  {
    if opt.None? {
      return Err(NoOptions);
    }
    res := OpenReader(input, opt.value, parsers);
  }
}
