/**
 * `train_network` (data_streams/src/training/train_network.rs): while the
 * complex stream is not finished, push its current values into the data
 * layer and step it.
 */
module TrainNetworks {
  import opened Wrappers
  import opened TimelineValues
  import opened DataLayers
  import opened ComplexStreams

  /**
   * The bit vectors a run pushes for the value vectors it read, in order:
   * those whose conversion succeeds.
   */
  function Pushes(
    dataToBinary: seq<ComplexTimelineValue> -> Result<seq<bool>, ()>,
    trace: seq<seq<ComplexTimelineValue>>): seq<seq<bool>>
  {
    if |trace| == 0 then []
    else
      Pushes(dataToBinary, trace[..|trace| - 1]) +
      match dataToBinary(trace[|trace| - 1])
      case Ok(bits) => [bits]
      case Err(_) => []
  }

  /** One more value vector read pushes its bits after `log` when its conversion succeeds. */
  lemma PushesSnoc(
    dataToBinary: seq<ComplexTimelineValue> -> Result<seq<bool>, ()>,
    log: seq<seq<bool>>, trace: seq<seq<ComplexTimelineValue>>, data: seq<ComplexTimelineValue>)
    ensures dataToBinary(data).Ok? ==>
      log + Pushes(dataToBinary, trace + [data]) == log + Pushes(dataToBinary, trace) + [dataToBinary(data).value]
    ensures dataToBinary(data).Err? ==>
      log + Pushes(dataToBinary, trace + [data]) == log + Pushes(dataToBinary, trace)
  {
    assert (trace + [data])[..|trace|] == trace;
  }

  /**
   * The training loop on the streams' states: the value vectors it reads, one
   * per iteration, and whether it stops on a panicking `get_value`.
   */
  function Run(ss: seq<StreamState>, format: (int, string) -> string): (seq<seq<ComplexTimelineValue>>, bool)
    requires AllValid(ss)
    decreases Sum(Progresses(ss))
  {
    if AllFinishedStates(ss) then ([], false)
    else
      match ValuesOfStates(ss, format)
      case None => ([], true)
      case Some(values) =>
        StepStatesProgress(ss);
        var rest := Run(StepStates(ss), format);
        ([values] + rest.0, rest.1)
  }

  /**
   * The loop reads at most one value vector per unit of the streams'
   * progress measure, and none when they are all finished.
   */
  lemma {:induction false} RunLength(ss: seq<StreamState>, format: (int, string) -> string)
    requires AllValid(ss)
    ensures |Run(ss, format).0| <= Sum(Progresses(ss))
    ensures AllFinishedStates(ss) ==> Run(ss, format) == ([], false)
    decreases Sum(Progresses(ss))
  {
    if !AllFinishedStates(ss) && ValuesOfStates(ss, format).Some? {
      StepStatesProgress(ss);
      RunLength(StepStates(ss), format);
    }
  }

  /** Dropping the head of a non-empty sequence commutes with appending one element. */
  lemma TailSnoc<T>(s: seq<T>, x: T)
    requires |s| > 0
    ensures (s + [x])[1..] == s[1..] + [x]
  {
  }

  /** Appending to the empty sequence, or to a head and its tail. */
  lemma Append<T>(s: seq<T>, t: seq<T>)
    ensures |s| == 0 ==> s + t == t
    ensures |s| > 0 ==> [s[0]] + (s[1..] + t) == s + t
  {
    if |s| > 0 {
      assert s == [s[0]] + s[1..];
    }
  }

  /**
   * The loop, run from the states `s0`, reads the value vectors `trace`, one
   * per iteration, without finishing or panicking, and arrives at the states `ss`.
   */
  predicate Reaches(
    s0: seq<StreamState>, trace: seq<seq<ComplexTimelineValue>>, ss: seq<StreamState>,
    format: (int, string) -> string)
    requires AllValid(s0)
    decreases |trace|
  {
    if |trace| == 0 then ss == s0
    else
      && !AllFinishedStates(s0)
      && ValuesOfStates(s0, format) == Some(trace[0])
      && Reaches(StepStates(s0), trace[1..], ss, format)
  }

  /** One more iteration from `ss` reads its values and arrives at `StepStates(ss)`. */
  lemma {:induction false} ReachesSnoc(
    s0: seq<StreamState>, trace: seq<seq<ComplexTimelineValue>>, ss: seq<StreamState>,
    format: (int, string) -> string)
    requires AllValid(s0) && AllValid(ss) && Reaches(s0, trace, ss, format)
    requires !AllFinishedStates(ss) && ValuesOfStates(ss, format).Some?
    ensures Reaches(s0, trace + [ValuesOfStates(ss, format).value], StepStates(ss), format)
    decreases |trace|
  {
    if |trace| > 0 {
      ReachesSnoc(StepStates(s0), trace[1..], ss, format);
      TailSnoc(trace, ValuesOfStates(ss, format).value);
    }
  }

  /** Whatever the loop reads after arriving at `ss` follows `trace` in `Run` from `s0`. */
  lemma {:induction false} ReachesRun(
    s0: seq<StreamState>, trace: seq<seq<ComplexTimelineValue>>, ss: seq<StreamState>,
    format: (int, string) -> string)
    requires AllValid(s0) && AllValid(ss) && Reaches(s0, trace, ss, format)
    ensures Run(s0, format) == (trace + Run(ss, format).0, Run(ss, format).1)
    decreases |trace|
  {
    if |trace| == 0 {
      Append(trace, Run(ss, format).0);
    } else {
      ReachesRun(StepStates(s0), trace[1..], ss, format);
      Append(trace, Run(ss, format).0);
    }
  }

  /** When every stream is finished the loop reads nothing and does not panic. */
  lemma RunOfFinished(ss: seq<StreamState>, format: (int, string) -> string)
    requires AllValid(ss) && AllFinishedStates(ss)
    ensures Run(ss, format) == ([], false)
  {
  }

  /**
   * Arriving at states that are all finished, `Run` has read exactly `trace`,
   * without a panic, at most one value vector per unit of progress.
   */
  lemma RunEnds(
    s0: seq<StreamState>, trace: seq<seq<ComplexTimelineValue>>, ss: seq<StreamState>,
    format: (int, string) -> string)
    requires AllValid(s0) && AllValid(ss) && Reaches(s0, trace, ss, format)
    requires AllFinishedStates(ss)
    ensures Run(s0, format) == (trace, false)
    ensures |trace| <= Sum(Progresses(s0))
  {
    ReachesRun(s0, trace, ss, format);
    assert trace + [] == trace;
    RunLength(s0, format);
  }

  /**
   * Arriving at states whose `get_value` panics, `Run` has read exactly
   * `trace` and panics, at most one value vector per unit of progress.
   */
  lemma RunStops(
    s0: seq<StreamState>, trace: seq<seq<ComplexTimelineValue>>, ss: seq<StreamState>,
    format: (int, string) -> string)
    requires AllValid(s0) && AllValid(ss) && Reaches(s0, trace, ss, format)
    requires !AllFinishedStates(ss) && ValuesOfStates(ss, format).None?
    ensures Run(s0, format) == (trace, true)
    ensures |trace| <= Sum(Progresses(s0))
  {
    ReachesRun(s0, trace, ss, format);
    assert trace + [] == trace;
    RunLength(s0, format);
  }

  /**
   * One iteration of the loop after reading `data`: push it into the data
   * layer, then step the stream, whose progress measure drops.
   */
  method PushAndStep(dataLayer: DataLayer<seq<ComplexTimelineValue>>, stream: ComplexStream, data: seq<ComplexTimelineValue>)
    requires stream.Valid() && !stream.AllFinished()
    requires dataLayer !in stream.Repr() && dataLayer.network !in stream.Repr()
    modifies stream.Repr(), dataLayer.network
    ensures stream.Valid()
    ensures stream.TotalProgress() < old(stream.TotalProgress())
    ensures dataLayer.params.dataToBinary(data).Ok? ==>
      dataLayer.network.pushed == old(dataLayer.network.pushed) + [dataLayer.params.dataToBinary(data).value]
    ensures dataLayer.params.dataToBinary(data).Err? ==>
      dataLayer.network.pushed == old(dataLayer.network.pushed)
    ensures stream.States() == StepStates(old(stream.States()))
  {
    label Start:
    dataLayer.PushData(data);
    ProgressFramed@Start(stream);
    ghost var pushed := dataLayer.network.pushed;
    stream.Step();
    assert dataLayer.network.pushed == pushed;
  }

  /**
   * One iteration of the loop: read the streams' values, and unless
   * `get_value` panics, push them and step the stream. The pushes so far and
   * the value vectors read from the starting states move on by this iteration.
   */
  method Iterate(
    dataLayer: DataLayer<seq<ComplexTimelineValue>>,
    stream: ComplexStream,
    format: (int, string) -> string,
    ghost states0: seq<StreamState>,
    ghost trace: seq<seq<ComplexTimelineValue>>,
    ghost pushed0: seq<seq<bool>>)
    returns (data: Option<seq<ComplexTimelineValue>>)
    requires stream.Valid() && !stream.AllFinished()
    requires dataLayer !in stream.Repr() && dataLayer.network !in stream.Repr()
    requires AllValid(states0) && Reaches(states0, trace, stream.States(), format)
    requires dataLayer.network.pushed == pushed0 + Pushes(dataLayer.params.dataToBinary, trace)
    modifies stream.Repr(), dataLayer.network
    ensures stream.Valid()
    ensures data.None? ==> stream.States() == old(stream.States())
    ensures data.None? ==> Panics(stream.States(), format)
    ensures data.None? ==> dataLayer.network.pushed == old(dataLayer.network.pushed)
    ensures data.Some? ==> Sum(Progresses(stream.States())) < Sum(Progresses(old(stream.States())))
    ensures data.Some? ==> Reaches(states0, trace + [data.value], stream.States(), format)
    ensures data.Some? ==>
      dataLayer.network.pushed == pushed0 + Pushes(dataLayer.params.dataToBinary, trace + [data.value])
  {
    // The values that `get_value` returns (see `ComplexStream.GetValue`).
    data := stream.Values(format);
    ValuesAgree(stream.streams, format);
    FinishedAgree(stream.streams);
    if data.None? {
      return;
    }
    ReachesSnoc(states0, trace, stream.States(), format);
    StepStatesProgress(stream.States());
    PushesSnoc(dataLayer.params.dataToBinary, pushed0, trace, data.value);
    PushAndStep(dataLayer, stream, data.value);
  }

  /**
   * The loop of `train_network`. It returns `Err` where a stream's
   * `get_value` panics. `trace` is the value vectors read, one per
   * iteration: the loop run from the streams' starting states reads them and
   * arrives at the final states, which are all finished on `Ok` and panic in
   * `get_value` on `Err`. The network receives exactly their pushes.
   */
  method TrainLoop(
    dataLayer: DataLayer<seq<ComplexTimelineValue>>,
    stream: ComplexStream,
    format: (int, string) -> string)
    returns (r: Result<(), ()>, ghost trace: seq<seq<ComplexTimelineValue>>)
    requires stream.Valid()
    requires dataLayer !in stream.Repr() && dataLayer.network !in stream.Repr()
    modifies stream.Repr(), dataLayer.network
    ensures stream.Valid()
    ensures dataLayer.network.pushed == old(dataLayer.network.pushed) + Pushes(dataLayer.params.dataToBinary, trace)
    ensures AllValid(old(stream.States())) && Reaches(old(stream.States()), trace, stream.States(), format)
    ensures r.Ok? ==> stream.AllFinished() && AllFinishedStates(stream.States())
    ensures r.Err? ==> Panics(stream.States(), format)
  {
    trace := [];
    ghost var states0 := stream.States();
    ghost var network := dataLayer.network;
    ghost var pushed0 := network.pushed;
    ghost var f := dataLayer.params.dataToBinary;
    assert pushed0 + Pushes(f, trace) == pushed0;
    while !stream.AllFinished()
      invariant stream.Valid()
      invariant dataLayer.network == network
      invariant network.pushed == pushed0 + Pushes(f, trace)
      invariant Reaches(states0, trace, stream.States(), format)
      decreases Sum(Progresses(stream.States()))
    {
      var data := Iterate(dataLayer, stream, format, states0, trace, pushed0);
      if data.None? {
        return Err(()), trace;
      }
      trace := trace + [data.value];
    }
    FinishedStates(stream.streams);
    return Ok(()), trace;
  }

  /**
   * `train_network`: the loop, which reads nothing and returns `Ok` when the
   * stream starts finished, seen through `Run`. The network receives exactly the pushes of the
   * value vectors `Run` reads from the streams' starting states, at most one
   * per unit of the streams' progress measure, and `Run` also says whether
   * it returns `Err`.
   */
  method TrainNetwork(
    dataLayer: DataLayer<seq<ComplexTimelineValue>>,
    stream: ComplexStream,
    format: (int, string) -> string)
    returns (r: Result<(), ()>, ghost trace: seq<seq<ComplexTimelineValue>>)
    requires stream.Valid()
    requires dataLayer !in stream.Repr() && dataLayer.network !in stream.Repr()
    modifies stream.Repr(), dataLayer.network
    ensures stream.Valid()
    ensures r.Ok? ==> stream.AllFinished()
    ensures dataLayer.network.pushed == old(dataLayer.network.pushed) + Pushes(dataLayer.params.dataToBinary, trace)
    ensures |trace| <= old(stream.TotalProgress())
    ensures old(stream.AllFinished()) ==> r.Ok? && trace == []
    ensures trace == Run(old(stream.States()), format).0
    ensures r.Err? <==> Run(old(stream.States()), format).1
  {
    ProgressesAgree(stream.streams);
    ghost var states0 := stream.States();
    if stream.AllFinished() {
      FinishedStates(stream.streams);
      RunOfFinished(states0, format);
    }
    r, trace := TrainLoop(dataLayer, stream, format);
    if r.Ok? {
      RunEnds(states0, trace, stream.States(), format);
    } else {
      RunStops(states0, trace, stream.States(), format);
    }
  }
}
