/**
 * `CsvStream` (data_streams/src/training/csv_stream.rs): a training stream of
 * `f32` values read from a CSV file with `Date` and `Value` columns.
 */
module CsvStreams {
  import opened Wrappers
  import opened TimelineValues
  import opened CsvCursors

  /** The `0.0` that an empty stream reports. */
  const Zero: Float32 := Float32(0)

  class CsvStream {
    /** The records the reader yields, in order. */
    const records: seq<CsvRecord<Float32>>
    var currentDate: Option<int>
    var nextDate: Option<int>
    var value: Float32
    var nextValue: Float32
    /** How many records the reader has yielded. */
    var pos: nat

    function State(): Cursor<Float32>
      reads this
    {
      Cursor(currentDate, nextDate, value, nextValue, pos)
    }

    ghost predicate Valid()
      reads this
    {
      CsvCursors.Valid(records, State())
    }

    constructor FromCursor(records: seq<CsvRecord<Float32>>, c: Cursor<Float32>)
      ensures this.records == records && State() == c
    {
      this.records := records;
      currentDate := c.currentDate;
      nextDate := c.nextDate;
      value := c.value;
      nextValue := c.nextValue;
      pos := c.pos;
    }

    /** `CsvStream::new`: an error exactly when opening the records is one. */
    static method New(records: seq<CsvRecord<Float32>>) returns (r: Result<CsvStream, ()>)
      ensures r.Err? <==> Open(records, Zero).Err?
      ensures r.Ok? ==> fresh(r.value) && r.value.records == records && r.value.Valid()
      ensures r.Ok? ==> r.value.State() == Open(records, Zero).value
    {
      var start := Open(records, Zero);
      if start.Err? {
        return Err(());
      }
      var s := new CsvStream.FromCursor(records, start.value);
      return Ok(s);
    }

    /** `step`: shift the next record into the current one and read one more. */
    method Step()
      requires Valid()
      modifies this
      ensures Valid()
      ensures State() == CsvCursors.Step(records, old(State()))
    {
      if nextDate.Some? {
        currentDate := nextDate;
        value := nextValue;
        if pos < |records| {
          var next := records[pos];
          pos := pos + 1;
          match next
          case DeserializeError =>
          case Record(None, _) =>
            nextDate := None;
          case Record(Some(d), v) =>
            nextDate := Some(d);
            nextValue := v;
        } else {
          nextDate := None;
        }
      }
    }

    /** `is_date_in_interval`: the stream is finished, or its next date is after `date`. */
    predicate IsDateInInterval(date: int)
      reads this
      ensures IsDateInInterval(date) <==> nextDate.None? || nextDate.value > date
    {
      CsvCursors.IsDateInInterval(State(), date)
    }

    /** `set_date`: step until `date` lies before the next date, unless the stream is finished. */
    method SetDate(date: int)
      requires Valid()
      modifies this
      ensures Valid()
      ensures State() == CsvCursors.SetDate(records, old(State()), date)
    {
      if IsFinish() {
        return;
      }
      while !IsDateInInterval(date)
        invariant Valid()
        invariant Advance(records, State(), date) == Advance(records, old(State()), date)
        decreases Progress(records, State())
      {
        StepProgress(records, State());
        Step();
      }
    }

    /** `is_finish`: there is no next date. */
    predicate IsFinish()
      reads this
      ensures IsFinish() <==> CsvCursors.IsFinish(State())
    {
      nextDate.None?
    }

    /** `get_value`: the current value as a `Float`. */
    function GetValue(): (r: ComplexTimelineValue)
      reads this
      ensures r == Float(State().value)
    {
      Float(value)
    }
  }
}
