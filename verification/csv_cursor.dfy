/**
 * The cursor that `CsvStream` and `CsvDateTimeStream`
 * (data_streams/src/training/csv_stream.rs, csv_datetime_stream.rs) keep over
 * their CSV reader: the current and next date, the current and next value,
 * and the reader's position. The reader is the finite sequence of records it
 * would yield; dates are integers (timestamps), already through `parse_date`.
 */
module CsvCursors {
  import opened Wrappers

  /** One `reader.deserialize().next()` item: a deserialisation error, or a row whose date may not parse. */
  datatype CsvRecord<V> = DeserializeError | Record(date: Option<int>, value: V)

  datatype Cursor<V> = Cursor(
    currentDate: Option<int>,
    nextDate: Option<int>,
    value: V,
    nextValue: V,
    pos: nat)

  /** The reader never runs past the end, and a stream with a next date has a current one. */
  predicate Valid<V>(records: seq<CsvRecord<V>>, c: Cursor<V>)
  {
    c.pos <= |records| && (c.nextDate.Some? ==> c.currentDate.Some?)
  }

  predicate IsFinish<V>(c: Cursor<V>)
  {
    c.nextDate.None?
  }

  /** `is_date_in_interval`: there is no next date, or it is after `date`. */
  predicate IsDateInInterval<V>(c: Cursor<V>, date: int)
  {
    match c.nextDate
    case None => true
    case Some(next) => next > date
  }

  function Min(a: nat, b: nat): nat { if a < b then a else b }

  /**
   * `new`: the first two records are read before anything is checked. A
   * deserialisation error in the first record, or in the second after a first
   * date that parses, is an error; otherwise the stream starts on the first
   * record when its date parses, with the second as next when that one parses too.
   */
  function Open<V>(records: seq<CsvRecord<V>>, zero: V): (r: Result<Cursor<V>, ()>)
    ensures r.Ok? ==> Valid(records, r.value) && r.value.pos == Min(2, |records|)
    ensures r.Err? <==>
      || (|records| >= 1 && records[0].DeserializeError?)
      || (|records| >= 2 && records[0].Record? && records[0].date.Some? && records[1].DeserializeError?)
    ensures r.Ok? && r.value.currentDate.None? ==>
      r.value.nextDate.None? && r.value.value == zero && r.value.nextValue == zero
    ensures r.Ok? && r.value.currentDate.Some? ==>
      |records| >= 1 && records[0] == Record(r.value.currentDate, r.value.value)
    ensures r.Ok? && r.value.nextDate.Some? ==>
      |records| >= 2 && records[1] == Record(r.value.nextDate, r.value.nextValue)
    ensures r.Ok? && r.value.currentDate.Some? && r.value.nextDate.None? ==> r.value.nextValue == r.value.value
  {
    var pos := Min(2, |records|);
    if |records| == 0 then Ok(Cursor(None, None, zero, zero, pos))
    else
      match records[0]
      case DeserializeError => Err(())
      case Record(None, _) => Ok(Cursor(None, None, zero, zero, pos))
      case Record(Some(current), value) =>
        if |records| >= 2 && records[1].DeserializeError? then Err(())
        else if |records| >= 2 && records[1].date.Some? then
          Ok(Cursor(Some(current), records[1].date, value, records[1].value, pos))
        else Ok(Cursor(Some(current), None, value, value, pos))
  }

  /**
   * `step`: nothing when the stream is finished; otherwise the next date and
   * value become current and one more record is read. The end of the records
   * or a date that does not parse finishes the stream; a deserialisation error
   * keeps the next date and value, so that row is skipped.
   */
  function Step<V>(records: seq<CsvRecord<V>>, c: Cursor<V>): (r: Cursor<V>)
    requires Valid(records, c)
    ensures Valid(records, r)
    ensures IsFinish(c) ==> r == c
    ensures !IsFinish(c) ==> r.currentDate == c.nextDate && r.value == c.nextValue
    ensures !IsFinish(c) ==> r.pos == Min(c.pos + 1, |records|)
    ensures !IsFinish(c) && c.pos == |records| ==> IsFinish(r)
    ensures !IsFinish(c) && c.pos < |records| ==>
      match records[c.pos]
      case DeserializeError => r.nextDate == c.nextDate && r.nextValue == c.nextValue
      case Record(None, _) => IsFinish(r) && r.nextValue == c.nextValue
      case Record(Some(d), v) => r.nextDate == Some(d) && r.nextValue == v
  {
    if c.nextDate.None? then c
    else
      var shifted := c.(currentDate := c.nextDate, value := c.nextValue);
      if c.pos == |records| then shifted.(nextDate := None)
      else
        match records[c.pos]
        case DeserializeError => shifted.(pos := c.pos + 1)
        case Record(None, _) => shifted.(nextDate := None, pos := c.pos + 1)
        case Record(Some(d), v) => shifted.(nextDate := Some(d), nextValue := v, pos := c.pos + 1)
  }

  /** What is left to read: two per unread record, plus one while a next date is held. */
  function Progress<V>(records: seq<CsvRecord<V>>, c: Cursor<V>): nat
    requires Valid(records, c)
  {
    2 * (|records| - c.pos) + (if c.nextDate.Some? then 1 else 0)
  }

  /** Each effective step reads a record or finishes the stream, so the progress measure drops. */
  lemma StepProgress<V>(records: seq<CsvRecord<V>>, c: Cursor<V>)
    requires Valid(records, c) && !IsFinish(c)
    ensures Progress(records, Step(records, c)) < Progress(records, c)
  {
  }

  /** The `while !is_date_in_interval(date) { step() }` loop of `set_date`. */
  function Advance<V>(records: seq<CsvRecord<V>>, c: Cursor<V>, date: int): (r: Cursor<V>)
    requires Valid(records, c)
    ensures Valid(records, r)
    decreases Progress(records, c)
  {
    if IsDateInInterval(c, date) then c
    else
      StepProgress(records, c);
      Advance(records, Step(records, c), date)
  }

  /** `set_date`: nothing on a finished stream, otherwise step until `date` is in the interval. */
  function SetDate<V>(records: seq<CsvRecord<V>>, c: Cursor<V>, date: int): (r: Cursor<V>)
    requires Valid(records, c)
    ensures Valid(records, r)
  {
    if IsFinish(c) then c else Advance(records, c, date)
  }

  /**
   * On return from `set_date` the stream is finished or its next date is after
   * `date`; if it had to move, its current date is one not after `date`; and
   * the progress measure never grows, dropping whenever it moved.
   */
  lemma {:induction false} AdvanceLands<V>(records: seq<CsvRecord<V>>, c: Cursor<V>, date: int)
    requires Valid(records, c)
    ensures var r := Advance(records, c, date);
      && IsDateInInterval(r, date)
      && (!IsDateInInterval(c, date) ==> r.currentDate.Some? && r.currentDate.value <= date)
      && Progress(records, r) <= Progress(records, c)
      && (!IsDateInInterval(c, date) ==> Progress(records, r) < Progress(records, c))
    decreases Progress(records, c)
  {
    if !IsDateInInterval(c, date) {
      var s := Step(records, c);
      StepProgress(records, c);
      AdvanceLands(records, s, date);
      if IsDateInInterval(s, date) {
        assert s.currentDate == c.nextDate;
      }
    }
  }

  lemma SetDateLands<V>(records: seq<CsvRecord<V>>, c: Cursor<V>, date: int)
    requires Valid(records, c)
    ensures var r := SetDate(records, c, date);
      && (IsFinish(r) || r.nextDate.value > date)
      && (IsFinish(c) ==> r == c)
      && (!IsDateInInterval(c, date) ==> r.currentDate.Some? && r.currentDate.value <= date)
      && Progress(records, r) <= Progress(records, c)
      && (!IsDateInInterval(c, date) ==> Progress(records, r) < Progress(records, c))
  {
    if !IsFinish(c) {
      AdvanceLands(records, c, date);
    }
  }

  /** A finished stream stays finished and unchanged. */
  lemma {:induction false} FinishedIsStationary<V>(records: seq<CsvRecord<V>>, c: Cursor<V>, date: int)
    requires Valid(records, c) && IsFinish(c)
    ensures Step(records, c) == c && SetDate(records, c, date) == c
  {
  }

  /**
   * The rows of the test file csv_stream_test.csv: 2024-05-04 23:00, then
   * 00:00 and 01:00 on 2024-05-05, as minutes from 2024-05-04 23:00.
   */
  function TestRecords<V>(v1: V, v2: V, v3: V): seq<CsvRecord<V>>
  {
    [Record(Some(0), v1), Record(Some(60), v2), Record(Some(120), v3)]
  }

  /**
   * The test sequence: the stream opens on 23:00 with 00:00 next; setting
   * 23:30 keeps it there, 00:00 moves to the second row, and 01:00 moves to
   * the last row and finishes.
   */
  lemma TestSequence<V>(v1: V, v2: V, v3: V, zero: V)
    ensures var records := TestRecords(v1, v2, v3);
      var c0 := Open(records, zero);
      && c0 == Ok(Cursor(Some(0), Some(60), v1, v2, 2))
      && SetDate(records, c0.value, 30) == c0.value
      && SetDate(records, c0.value, 60) == Cursor(Some(60), Some(120), v2, v3, 3)
      && SetDate(records, SetDate(records, c0.value, 60), 120) == Cursor(Some(120), None, v3, v3, 3)
  {
    var records := TestRecords(v1, v2, v3);
    var c0 := Cursor(Some(0), Some(60), v1, v2, 2);
    var c1 := Cursor(Some(60), Some(120), v2, v3, 3);
    var c2 := Cursor(Some(120), None, v3, v3, 3);
    assert Open(records, zero) == Ok(c0);
    assert SetDate(records, c0, 30) == c0;
    assert Step(records, c0) == c1;
    assert Advance(records, c1, 60) == c1;
    assert Advance(records, c0, 60) == c1;
    assert Step(records, c1) == c2;
    assert Advance(records, c2, 120) == c2;
    assert Advance(records, c1, 120) == c2;
  }
}
