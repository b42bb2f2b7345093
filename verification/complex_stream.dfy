/**
 * `ComplexStream` (data_streams/src/training/complex_stream.rs): several
 * training streams advanced together, each step moving every stream to the
 * earliest next date among them.
 */
module ComplexStreams {
  import opened Wrappers
  import opened TimelineValues
  import CsvCursors
  import opened CsvStreams
  import opened CsvDateTimeStreams

  /** One `Box<dyn TrainingStream>`: one of the two CSV stream kinds. */
  datatype TrainingStream = Csv(csv: CsvStream) | CsvDateTime(dateTime: CsvDateTimeStream)
  {
    function Obj(): object
    {
      match this
      case Csv(s) => s
      case CsvDateTime(s) => s
    }

    ghost predicate Valid()
      reads Obj()
    {
      match this
      case Csv(s) => s.Valid()
      case CsvDateTime(s) => s.Valid()
    }

    /** `get_next_date`. */
    function NextDate(): Option<int>
      reads Obj()
    {
      match this
      case Csv(s) => s.nextDate
      case CsvDateTime(s) => s.nextDate
    }

    predicate IsFinish()
      reads Obj()
    {
      NextDate().None?
    }

    /** `get_value`; the date stream panics (`None`) without a current date. */
    function GetValue(format: (int, string) -> string): Option<ComplexTimelineValue>
      reads Obj()
    {
      match this
      case Csv(s) => Some(s.GetValue())
      case CsvDateTime(s) => s.GetValue(format)
    }

    /** The stream's progress measure: what remains to be read. */
    ghost function Progress(): nat
      requires Valid()
      reads Obj()
    {
      match this
      case Csv(s) => CsvCursors.Progress(s.records, s.State())
      case CsvDateTime(s) => CsvCursors.Progress(s.records, s.State())
    }

    /** The stream's state as a value: its records and its cursor. */
    function State(): (r: StreamState)
      reads Obj()
      ensures r.Valid() <==> Valid()
    {
      match this
      case Csv(s) => CsvState(s.records, s.State())
      case CsvDateTime(s) => DateTimeState(s.records, s.State())
    }

    /** The stream's state is what its own `set_date(date)` makes of the old one. */
    twostate predicate SetDateDone(date: int)
      reads Obj()
    {
      old(State()).Valid() && State() == old(State()).SetDate(date)
    }
  }

  /**
   * What `set_date(date)` guarantees of one stream: it is the stream's own
   * `set_date`, the stream ends finished or with its next date after `date`,
   * and its progress measure does not grow, dropping if the next date was not
   * after `date`.
   */
  twostate predicate SetDateOutcome(ts: TrainingStream, date: int)
    reads ts.Obj()
  {
    && old(ts.Valid()) && ts.Valid()
    && ts.SetDateDone(date)
    && (ts.IsFinish() || ts.NextDate().value > date)
    && ts.Progress() <= old(ts.Progress())
    && (old(ts.NextDate()).Some? && old(ts.NextDate()).value <= date ==> ts.Progress() < old(ts.Progress()))
  }

  /** `stream.set_date(date)` through the trait object. */
  method SetStreamDate(ts: TrainingStream, date: int)
    requires ts.Valid()
    modifies ts.Obj()
    ensures ts.Valid()
    ensures SetDateOutcome(ts, date)
  {
    match ts
    case Csv(s) =>
      CsvCursors.SetDateLands(s.records, s.State(), date);
      s.SetDate(date);
    case CsvDateTime(s) =>
      CsvCursors.SetDateLands(s.records, s.State(), date);
      s.SetDate(date);
  }

  /**
   * What a training stream is as a value: the records its reader yields and
   * its cursor over them. The operations below are those of the two stream
   * classes, read off their cursors.
   */
  datatype StreamState =
    | CsvState(csvRecords: seq<CsvCursors.CsvRecord<Float32>>, csvCursor: CsvCursors.Cursor<Float32>)
    | DateTimeState(dateRecords: seq<CsvCursors.CsvRecord<()>>, dateCursor: CsvCursors.Cursor<()>)
  {
    predicate Valid()
    {
      match this
      case CsvState(records, c) => CsvCursors.Valid(records, c)
      case DateTimeState(records, c) => CsvCursors.Valid(records, c)
    }

    function NextDate(): Option<int>
    {
      match this
      case CsvState(_, c) => c.nextDate
      case DateTimeState(_, c) => c.nextDate
    }

    /** `get_value`: the current value, or the current date printed; `None` is the date stream's panic. */
    function Value(format: (int, string) -> string): Option<ComplexTimelineValue>
    {
      match this
      case CsvState(_, c) => Some(Float(c.value))
      case DateTimeState(_, c) =>
        match c.currentDate
        case None => None
        case Some(d) => Some(Datetime(format(d, DefaultFormat)))
    }

    /** `set_date`. */
    function SetDate(date: int): (r: StreamState)
      requires Valid()
      ensures r.Valid()
    {
      match this
      case CsvState(records, c) => CsvState(records, CsvCursors.SetDate(records, c, date))
      case DateTimeState(records, c) => DateTimeState(records, CsvCursors.SetDate(records, c, date))
    }

    function Progress(): nat
      requires Valid()
    {
      match this
      case CsvState(records, c) => CsvCursors.Progress(records, c)
      case DateTimeState(records, c) => CsvCursors.Progress(records, c)
    }
  }

  /** `set_date` never raises a stream's progress measure, and lowers it when the stream had to move. */
  lemma StateSetDateProgress(s: StreamState, date: int)
    requires s.Valid()
    ensures s.SetDate(date).Progress() <= s.Progress()
    ensures s.NextDate().Some? && s.NextDate().value <= date ==> s.SetDate(date).Progress() < s.Progress()
  {
    match s
    case CsvState(records, c) => CsvCursors.SetDateLands(records, c, date);
    case DateTimeState(records, c) => CsvCursors.SetDateLands(records, c, date);
  }

  predicate AllValid(ss: seq<StreamState>)
  {
    forall i :: 0 <= i < |ss| ==> ss[i].Valid()
  }

  predicate AllFinishedStates(ss: seq<StreamState>)
  {
    forall i :: 0 <= i < |ss| ==> ss[i].NextDate().None?
  }

  function NextDatesOfStates(ss: seq<StreamState>): (r: seq<Option<int>>)
    ensures |r| == |ss|
    ensures forall i :: 0 <= i < |ss| ==> r[i] == ss[i].NextDate()
  {
    seq(|ss|, i requires 0 <= i < |ss| => ss[i].NextDate())
  }

  /** The values of all the streams, in order, or `None` when one of them panics. */
  function ValuesOfStates(ss: seq<StreamState>, format: (int, string) -> string): (r: Option<seq<ComplexTimelineValue>>)
    ensures r.Some? <==> forall i :: 0 <= i < |ss| ==> ss[i].Value(format).Some?
    ensures r.Some? ==> |r.value| == |ss|
    ensures r.Some? ==> forall i :: 0 <= i < |ss| ==> Some(r.value[i]) == ss[i].Value(format)
  {
    if |ss| == 0 then Some([])
    else
      match ValuesOfStates(ss[..|ss| - 1], format)
      case None => None
      case Some(init) =>
        match ss[|ss| - 1].Value(format)
        case None => None
        case Some(v) => Some(init + [v])
  }

  /** Some stream is unfinished and the `get_value` of one of them panics. */
  predicate Panics(ss: seq<StreamState>, format: (int, string) -> string)
  {
    !AllFinishedStates(ss) && ValuesOfStates(ss, format).None?
  }

  function SetDateAll(ss: seq<StreamState>, date: int): (r: seq<StreamState>)
    requires AllValid(ss)
    ensures |r| == |ss| && AllValid(r)
    ensures forall i :: 0 <= i < |ss| ==> r[i] == ss[i].SetDate(date)
  {
    seq(|ss|, i requires 0 <= i < |ss| && ss[i].Valid() => ss[i].SetDate(date))
  }

  /** The progress measures of the streams' states are those of the streams. */
  lemma ProgressesAgree(streams: seq<TrainingStream>)
    requires forall i :: 0 <= i < |streams| ==> streams[i].Valid()
    ensures AllValid(StatesOf(streams))
    ensures Progresses(StatesOf(streams)) == ProgressesOf(streams)
  {
    var ss := StatesOf(streams);
    forall i | 0 <= i < |streams|
      ensures ss[i].Valid() && ss[i].Progress() == streams[i].Progress()
    {
      match streams[i]
      case Csv(s) =>
      case CsvDateTime(s) =>
    }
  }

  /** Streams that are all finished have states that are all finished. */
  lemma FinishedStates(streams: seq<TrainingStream>)
    requires AllFinishedOf(streams)
    ensures AllFinishedStates(StatesOf(streams))
  {
    FinishedAgree(streams);
  }

  /** States that are pointwise `set_date(date)` of others are `SetDateAll` of them. */
  lemma SetDateAllOf(before: seq<StreamState>, after: seq<StreamState>, date: int)
    requires AllValid(before) && |after| == |before|
    requires forall i :: 0 <= i < |before| ==> after[i] == before[i].SetDate(date)
    ensures after == SetDateAll(before, date)
  {
  }

  /**
   * `step` on the streams' states: every stream is set to the earliest next
   * date when there is one; otherwise nothing changes.
   */
  function StepStates(ss: seq<StreamState>): (r: seq<StreamState>)
    requires AllValid(ss)
    ensures |r| == |ss| && AllValid(r)
  {
    match MinOf(NextDatesOfStates(ss))
    case None => ss
    case Some(date) => SetDateAll(ss, date)
  }

  function Progresses(ss: seq<StreamState>): (r: seq<nat>)
    requires AllValid(ss)
    ensures |r| == |ss|
    ensures forall i :: 0 <= i < |ss| ==> r[i] == ss[i].Progress()
  {
    seq(|ss|, i requires 0 <= i < |ss| && ss[i].Valid() => ss[i].Progress())
  }

  /**
   * `step` never raises the total progress measure, and lowers it unless
   * every stream is finished: the stream holding the earliest next date moves.
   */
  lemma StepStatesProgress(ss: seq<StreamState>)
    requires AllValid(ss)
    ensures Sum(Progresses(StepStates(ss))) <= Sum(Progresses(ss))
    ensures !AllFinishedStates(ss) ==> Sum(Progresses(StepStates(ss))) < Sum(Progresses(ss))
  {
    var dates := NextDatesOfStates(ss);
    MinOfIsMinimum(dates);
    if MinOf(dates).Some? {
      var date := MinOf(dates).value;
      var before := Progresses(ss);
      var after := Progresses(SetDateAll(ss, date));
      forall i | 0 <= i < |ss|
        ensures after[i] <= before[i]
        ensures ss[i].NextDate() == Some(date) ==> after[i] < before[i]
      {
        StateSetDateProgress(ss[i], date);
      }
      var k := MinAttained(dates);
      SumDecreases(after, before, k);
    }
  }

  /** One step of the running minimum over the next dates. */
  function MinStep(acc: Option<int>, date: Option<int>): Option<int>
  {
    match date
    case None => acc
    case Some(d) =>
      match acc
      case None => Some(d)
      case Some(a) => if a > d then Some(d) else Some(a)
  }

  /** The running minimum of `get_min_next_date` over a list of next dates. */
  function MinOf(dates: seq<Option<int>>): Option<int>
  {
    if |dates| == 0 then None else MinStep(MinOf(dates[..|dates| - 1]), dates[|dates| - 1])
  }

  /**
   * `MinOf` is the minimum of the next dates that exist: `None` exactly when
   * there are none, otherwise one of them and not above any of them.
   */
  lemma {:induction false} MinOfIsMinimum(dates: seq<Option<int>>)
    ensures MinOf(dates).None? <==> forall i :: 0 <= i < |dates| ==> dates[i].None?
    ensures MinOf(dates).Some? ==> exists i :: 0 <= i < |dates| && dates[i] == MinOf(dates)
    ensures MinOf(dates).Some? ==>
      forall i :: 0 <= i < |dates| && dates[i].Some? ==> MinOf(dates).value <= dates[i].value
  {
    if |dates| > 0 {
      var front := dates[..|dates| - 1];
      MinOfIsMinimum(front);
      assert forall i :: 0 <= i < |front| ==> front[i] == dates[i];
      if MinOf(dates).Some? {
        if MinOf(dates) == dates[|dates| - 1] {
        } else {
          var i :| 0 <= i < |front| && front[i] == MinOf(front);
          assert dates[i] == MinOf(dates);
        }
      }
    }
  }

  /** The index of a stream whose next date is the minimum. */
  lemma MinAttained(dates: seq<Option<int>>) returns (k: int)
    requires MinOf(dates).Some?
    ensures 0 <= k < |dates| && dates[k] == MinOf(dates)
  {
    MinOfIsMinimum(dates);
    k :| 0 <= k < |dates| && dates[k] == MinOf(dates);
  }

  function Objs(streams: seq<TrainingStream>): (r: set<object>)
    ensures forall i :: 0 <= i < |streams| ==> streams[i].Obj() in r
  {
    set i | 0 <= i < |streams| :: streams[i].Obj()
  }

  /** The next date of every stream, in order. */
  function NextDatesOf(streams: seq<TrainingStream>): (r: seq<Option<int>>)
    reads Objs(streams)
    ensures |r| == |streams|
    ensures forall i :: 0 <= i < |streams| ==> r[i] == streams[i].NextDate()
  {
    if |streams| == 0 then []
    else
      assert Objs(streams[..|streams| - 1]) <= Objs(streams);
      NextDatesOf(streams[..|streams| - 1]) + [streams[|streams| - 1].NextDate()]
  }

  /**
   * The value of every stream, in order, or `None` (a panic) when some
   * stream has no value: one value per stream, each the stream's own.
   */
  function ValuesOf(streams: seq<TrainingStream>, format: (int, string) -> string): (r: Option<seq<ComplexTimelineValue>>)
    reads Objs(streams)
    ensures r.Some? <==> forall i :: 0 <= i < |streams| ==> streams[i].GetValue(format).Some?
    ensures r.Some? ==> |r.value| == |streams|
    ensures r.Some? ==> forall i :: 0 <= i < |streams| ==> Some(r.value[i]) == streams[i].GetValue(format)
  {
    if |streams| == 0 then Some([])
    else
      assert Objs(streams[..|streams| - 1]) <= Objs(streams);
      match ValuesOf(streams[..|streams| - 1], format)
      case None => None
      case Some(init) =>
        match streams[|streams| - 1].GetValue(format)
        case None => None
        case Some(v) => Some(init + [v])
  }

  /** `is_finish` of every stream holds. */
  predicate AllFinishedOf(streams: seq<TrainingStream>)
    reads Objs(streams)
  {
    forall i :: 0 <= i < |streams| ==> streams[i].IsFinish()
  }

  /** The state of every stream, in order. */
  function StatesOf(streams: seq<TrainingStream>): (r: seq<StreamState>)
    reads Objs(streams)
    ensures |r| == |streams|
    ensures forall i :: 0 <= i < |streams| ==> r[i] == streams[i].State()
  {
    if |streams| == 0 then []
    else
      assert Objs(streams[..|streams| - 1]) <= Objs(streams);
      StatesOf(streams[..|streams| - 1]) + [streams[|streams| - 1].State()]
  }

  /** The streams' next dates are those of their states. */
  lemma NextDatesAgree(streams: seq<TrainingStream>)
    ensures NextDatesOfStates(StatesOf(streams)) == NextDatesOf(streams)
  {
    var ss := StatesOf(streams);
    assert forall i :: 0 <= i < |streams| ==> ss[i].NextDate() == streams[i].NextDate();
  }

  /** The streams' values are those of their states. */
  lemma ValuesAgree(streams: seq<TrainingStream>, format: (int, string) -> string)
    ensures ValuesOfStates(StatesOf(streams), format) == ValuesOf(streams, format)
  {
    var ss := StatesOf(streams);
    forall i | 0 <= i < |streams|
      ensures ss[i].Value(format) == streams[i].GetValue(format)
    {
      match streams[i]
      case Csv(s) =>
      case CsvDateTime(s) =>
    }
    var a := ValuesOfStates(ss, format);
    var b := ValuesOf(streams, format);
    assert a.Some? <==> b.Some?;
    if a.Some? {
      assert forall i :: 0 <= i < |streams| ==> Some(a.value[i]) == Some(b.value[i]);
      assert a.value == b.value;
    }
  }

  /** The streams are all finished exactly when their states are. */
  lemma FinishedAgree(streams: seq<TrainingStream>)
    ensures AllFinishedStates(StatesOf(streams)) == AllFinishedOf(streams)
  {
    var ss := StatesOf(streams);
    assert forall i :: 0 <= i < |streams| ==> ss[i].NextDate() == streams[i].NextDate();
  }

  /** `step` on the streams' states sets them to the earliest of the streams' own next dates. */
  lemma StepStatesOf(streams: seq<TrainingStream>)
    requires forall i :: 0 <= i < |streams| ==> streams[i].Valid()
    ensures AllValid(StatesOf(streams))
    ensures MinOf(NextDatesOf(streams)).None? ==> StepStates(StatesOf(streams)) == StatesOf(streams)
    ensures MinOf(NextDatesOf(streams)).Some? ==>
      StepStates(StatesOf(streams)) == SetDateAll(StatesOf(streams), MinOf(NextDatesOf(streams)).value)
  {
    NextDatesAgree(streams);
  }

  /** The progress measure of every stream, in order. */
  ghost function ProgressesOf(streams: seq<TrainingStream>): (r: seq<nat>)
    requires forall i :: 0 <= i < |streams| ==> streams[i].Valid()
    reads set i | 0 <= i < |streams| :: streams[i].Obj()
    ensures |r| == |streams|
    ensures forall i :: 0 <= i < |streams| ==> r[i] == streams[i].Progress()
  {
    if |streams| == 0 then []
    else
      ProgressesOf(streams[..|streams| - 1]) + [streams[|streams| - 1].Progress()]
  }

  function Sum(xs: seq<nat>): nat
  {
    if |xs| == 0 then 0 else Sum(xs[..|xs| - 1]) + xs[|xs| - 1]
  }

  /** A sum drops when no term grows and one term drops. */
  lemma {:induction false} SumDecreases(a: seq<nat>, b: seq<nat>, k: int)
    requires |a| == |b| && forall i :: 0 <= i < |a| ==> a[i] <= b[i]
    ensures Sum(a) <= Sum(b)
    ensures 0 <= k < |a| && a[k] < b[k] ==> Sum(a) < Sum(b)
  {
    if |a| > 0 {
      var n := |a| - 1;
      SumDecreases(a[..n], b[..n], k);
    }
  }

  /** Each stream is a distinct object (`Box` ownership). */
  predicate Distinct(streams: seq<TrainingStream>)
  {
    forall i, j :: 0 <= i < j < |streams| ==> streams[i].Obj() != streams[j].Obj()
  }

  /** The progress measure depends only on the streams' own state. */
  twostate lemma ProgressFramed(s: ComplexStream)
    requires old(s.Valid()) && unchanged(s.Repr())
    ensures s.Valid() && s.TotalProgress() == old(s.TotalProgress())
    ensures s.AllFinished() == old(s.AllFinished())
    ensures s.States() == old(s.States())
  {}

  class ComplexStream {
    const streams: seq<TrainingStream>

    function Repr(): set<object>
    {
      Objs(streams)
    }

    /** Every stream is valid and a distinct object. */
    ghost predicate Valid()
      reads Repr()
    {
      && (forall i :: 0 <= i < |streams| ==> streams[i].Valid())
      && Distinct(streams)
    }

    /** `ComplexStream::new`. */
    constructor(streams: seq<TrainingStream>)
      ensures this.streams == streams
    {
      this.streams := streams;
    }

    function NextDates(): seq<Option<int>>
      reads Repr()
    {
      NextDatesOf(streams)
    }

    /** The state of every stream, in order. */
    function States(): (r: seq<StreamState>)
      reads Repr()
      ensures |r| == |streams|
      ensures Valid() ==> AllValid(r)
    {
      StatesOf(streams)
    }

    ghost function TotalProgress(): nat
      requires Valid()
      reads Repr()
    {
      Sum(ProgressesOf(streams))
    }

    /** The values `get_value` collects, one per stream. */
    function Values(format: (int, string) -> string): Option<seq<ComplexTimelineValue>>
      reads Repr()
    {
      ValuesOf(streams, format)
    }

    predicate AllFinished()
      reads Repr()
    {
      AllFinishedOf(streams)
    }

    /** `get_value`: one value per stream, in stream order; a panicking stream panics the call. */
    method GetValue(format: (int, string) -> string) returns (r: Option<seq<ComplexTimelineValue>>)
      ensures r == Values(format)
    {
      var result := [];
      for i := 0 to |streams|
        invariant ValuesOf(streams[..i], format) == Some(result)
      {
        assert streams[..i + 1][..i] == streams[..i];
        var value := streams[i].GetValue(format);
        if value.None? {
          return None;
        }
        result := result + [value.value];
      }
      assert streams[..|streams|] == streams;
      return Some(result);
    }

    /** `is_finish`: every stream is finished; true when there are none. */
    method IsFinish() returns (b: bool)
      ensures b <==> AllFinished()
    {
      for i := 0 to |streams|
        invariant forall j :: 0 <= j < i ==> streams[j].IsFinish()
      {
        if !streams[i].IsFinish() {
          return false;
        }
      }
      return true;
    }

    /** `get_min_next_date`: the running minimum over the streams' next dates. */
    method GetMinNextDate() returns (r: Option<int>)
      ensures r == MinOf(NextDates())
    {
      var result := None;
      for i := 0 to |streams|
        invariant result == MinOf(NextDates()[..i])
      {
        var nextDateOption := streams[i].NextDate();
        assert NextDates()[..i + 1][..i] == NextDates()[..i];
        if nextDateOption.Some? {
          var nextDate := nextDateOption.value;
          if result.Some? {
            if result.value > nextDate {
              result := Some(nextDate);
            }
          } else {
            result := Some(nextDate);
          }
        }
      }
      assert NextDates()[..|streams|] == NextDates();
      return result;
    }

    /** The loop of `step`: `set_date(date)` on every stream, in order. */
    method SetEach(date: int)
      requires Valid()
      modifies Repr()
      ensures Valid()
      ensures forall i :: 0 <= i < |streams| ==> SetDateOutcome(streams[i], date)
    {
      for i := 0 to |streams|
        invariant Distinct(streams)
        invariant forall j :: 0 <= j < i ==> SetDateOutcome(streams[j], date)
        invariant forall j :: i <= j < |streams| ==> unchanged(streams[j].Obj())
      {
        label Before:
        SetStreamDate(streams[i], date);
        assert forall j :: 0 <= j < |streams| && j != i ==> unchanged@Before(streams[j].Obj());
      }
    }

    /**
     * The loop of `step` and what it does to the progress measure: it does
     * not grow, and drops when some stream's next date was `date`.
     */
    method SetAllDates(date: int)
      requires Valid()
      modifies Repr()
      ensures Valid()
      ensures forall i :: 0 <= i < |streams| ==> SetDateOutcome(streams[i], date)
      ensures AllValid(old(States())) && States() == SetDateAll(old(States()), date)
      ensures TotalProgress() <= old(TotalProgress())
      ensures (exists k :: 0 <= k < |streams| && old(streams[k].NextDate()) == Some(date)) ==>
        TotalProgress() < old(TotalProgress())
    {
      ghost var states0 := States();
      assert AllValid(states0);
      ghost var before := ProgressesOf(streams);
      SetEach(date);
      forall i | 0 <= i < |streams|
        ensures States()[i] == states0[i].SetDate(date)
      {
        assert SetDateOutcome(streams[i], date);
        assert streams[i].SetDateDone(date);
      }
      SetDateAllOf(states0, States(), date);
      ghost var after := ProgressesOf(streams);
      assert forall i :: 0 <= i < |streams| ==> after[i] <= before[i];
      SumDecreases(after, before, -1);
      forall k | 0 <= k < |streams| && old(streams[k].NextDate()) == Some(date)
        ensures TotalProgress() < old(TotalProgress())
      {
        SumDecreases(after, before, k);
      }
    }

    /**
     * `step`: every stream is set to the earliest next date when there is
     * one; otherwise nothing changes. Afterwards every stream is finished or
     * has its next date after that minimum, and unless all streams were
     * already finished the total progress measure has dropped.
     */
    method Step()
      requires Valid()
      modifies Repr()
      ensures Valid()
      ensures old(MinOf(NextDates())).None? ==> unchanged(Repr())
      ensures old(MinOf(NextDates())).Some? ==>
        forall i :: 0 <= i < |streams| ==> SetDateOutcome(streams[i], old(MinOf(NextDates())).value)
      ensures TotalProgress() <= old(TotalProgress())
      ensures !old(AllFinished()) ==> TotalProgress() < old(TotalProgress())
      ensures States() == StepStates(old(States()))
    {
      // The minimum that `get_min_next_date` returns (see `GetMinNextDate`).
      var nextDateOption := MinOf(NextDates());
      MinOfIsMinimum(NextDates());
      StepStatesOf(streams);
      if nextDateOption.Some? {
        ghost var k := MinAttained(NextDates());
        assert old(streams[k].NextDate()) == nextDateOption;
        SetAllDates(nextDateOption.value);
      }
    }
  }
}
