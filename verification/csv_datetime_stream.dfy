/**
 * `CsvDateTimeStream` (data_streams/src/training/csv_datetime_stream.rs): a
 * training stream whose value is the date of the current CSV row itself.
 */
module CsvDateTimeStreams {
  import opened Wrappers
  import opened TimelineValues
  import opened CsvCursors

  /** The format `get_value` prints the current date with. */
  const DefaultFormat: string := "%Y-%m-%d %H:%M:%S"

  class CsvDateTimeStream {
    /** The records the reader yields; a row carries only its date. */
    const records: seq<CsvRecord<()>>
    var currentDate: Option<int>
    var nextDate: Option<int>
    /** How many records the reader has yielded. */
    var pos: nat

    function State(): Cursor<()>
      reads this
    {
      Cursor(currentDate, nextDate, (), (), pos)
    }

    ghost predicate Valid()
      reads this
    {
      CsvCursors.Valid(records, State())
    }

    constructor FromCursor(records: seq<CsvRecord<()>>, c: Cursor<()>)
      ensures this.records == records && State() == c
    {
      this.records := records;
      currentDate := c.currentDate;
      nextDate := c.nextDate;
      pos := c.pos;
      assert c.value == () && c.nextValue == ();
    }

    /** `CsvDateTimeStream::new`: an error exactly when opening the records is one. */
    static method New(records: seq<CsvRecord<()>>) returns (r: Result<CsvDateTimeStream, ()>)
      ensures r.Err? <==> Open(records, ()).Err?
      ensures r.Ok? ==> fresh(r.value) && r.value.records == records && r.value.Valid()
      ensures r.Ok? ==> r.value.State() == Open(records, ()).value
    {
      var start := Open(records, ());
      if start.Err? {
        return Err(());
      }
      var s := new CsvDateTimeStream.FromCursor(records, start.value);
      return Ok(s);
    }

    /** `step`: shift the next date into the current one and read one more record. */
    method Step()
      requires Valid()
      modifies this
      ensures Valid()
      ensures State() == CsvCursors.Step(records, old(State()))
    {
      if nextDate.Some? {
        currentDate := nextDate;
        if pos < |records| {
          var next := records[pos];
          pos := pos + 1;
          match next
          case DeserializeError =>
          case Record(None, _) =>
            nextDate := None;
          case Record(Some(d), v) =>
            assert v == ();
            nextDate := Some(d);
        } else {
          nextDate := None;
        }
      }
    }

    /** `is_date_in_interval`: the stream is finished, or its next date is after `date`. */
    predicate IsDateInInterval(date: int)
      reads this
      ensures IsDateInInterval(date) <==> nextDate.None? || nextDate.value > date
    {
      CsvCursors.IsDateInInterval(State(), date)
    }

    /** `set_date`: step until `date` lies before the next date, unless the stream is finished. */
    method SetDate(date: int)
      requires Valid()
      modifies this
      ensures Valid()
      ensures State() == CsvCursors.SetDate(records, old(State()), date)
    {
      if IsFinish() {
        return;
      }
      while !IsDateInInterval(date)
        invariant Valid()
        invariant Advance(records, State(), date) == Advance(records, old(State()), date)
        decreases Progress(records, State())
      {
        StepProgress(records, State());
        Step();
      }
    }

    /** `is_finish`: there is no next date. */
    predicate IsFinish()
      reads this
      ensures IsFinish() <==> CsvCursors.IsFinish(State())
    {
      nextDate.None?
    }

    /**
     * `get_value`: the current date printed with the default format by
     * `format`; `current_date.unwrap()` panics (`None`) when there is none.
     */
    function GetValue(format: (int, string) -> string): (r: Option<ComplexTimelineValue>)
      reads this
      ensures r.Some? <==> State().currentDate.Some?
      ensures r.Some? ==> r.value == Datetime(format(State().currentDate.value, DefaultFormat))
    {
      match currentDate
      case None => None
      case Some(d) => Some(Datetime(format(d, DefaultFormat)))
    }
  }

  /** A stream that is not finished has a current date, so `get_value` does not panic. */
  lemma UnfinishedHasValue(s: CsvDateTimeStream, format: (int, string) -> string)
    requires s.Valid() && !s.IsFinish()
    ensures s.GetValue(format).Some?
  {
  }
}
