/**
 * The web application shell (webui/src/App.tsx): it posts the form's values
 * to the training or the prediction server and keeps the last prediction
 * received, which it shows under the form.
 *
 * The HTTP posts are recorded in a log; their outcome (the response list,
 * or a rejection) is passed in.
 */
module WebApp {
  import opened Wrappers
  import opened WebTypes
  import opened WebForm

  /** One `axios.post`: the URL and the body. */
  datatype Post = Post(url: string, body: seq<TaggedValue>)

  function PredictUrl(predictionServer: string): string
  {
    predictionServer + "/predict"
  }

  function TrainUrl(trainingServer: string): string
  {
    trainingServer + "/push_data"
  }

  /** The outcome of one awaited callback. */
  datatype Outcome = Predicted(response: Result<seq<TaggedValue>, ()>) | Trained(result: Result<(), ()>)

  /** The `lastPrediction` slot after one outcome: only a successful predict writes it. */
  function AfterOutcome(slot: Option<seq<TaggedValue>>, outcome: Outcome): Option<seq<TaggedValue>>
  {
    match outcome
    case Predicted(Ok(values)) => Some(values)
    case Predicted(Err(_)) => slot
    case Trained(_) => slot
  }

  /** The slot after a run of outcomes, in order. */
  function SlotAfter(slot: Option<seq<TaggedValue>>, outcomes: seq<Outcome>): Option<seq<TaggedValue>>
  {
    if |outcomes| == 0 then slot else AfterOutcome(SlotAfter(slot, outcomes[..|outcomes| - 1]), outcomes[|outcomes| - 1])
  }

  predicate IsPredictSuccess(outcome: Outcome)
  {
    outcome.Predicted? && outcome.response.Ok?
  }

  /** Outcome `k` is the last successful predict of the run. */
  predicate LastPredictSuccess(outcomes: seq<Outcome>, k: int)
  {
    && 0 <= k < |outcomes|
    && IsPredictSuccess(outcomes[k])
    && forall j :: k < j < |outcomes| ==> !IsPredictSuccess(outcomes[j])
  }

  /**
   * Last write wins: after a run of outcomes the slot holds the response of
   * the last successful predict, or what it held before when there was none;
   * trains and rejected predicts never touch it.
   */
  lemma {:induction false} LastWriteWins(slot: Option<seq<TaggedValue>>, outcomes: seq<Outcome>, k: int)
    ensures (forall i :: 0 <= i < |outcomes| ==> !IsPredictSuccess(outcomes[i])) ==> SlotAfter(slot, outcomes) == slot
    ensures LastPredictSuccess(outcomes, k) ==> SlotAfter(slot, outcomes) == Some(outcomes[k].response.value)
  {
    if |outcomes| > 0 {
      var n := |outcomes| - 1;
      LastWriteWins(slot, outcomes[..n], k);
    }
  }

  /**
   * After a run of outcomes the slot holds a prediction, so the panel is
   * shown, exactly when it held one before or some predict succeeded.
   */
  lemma {:induction false} PanelShown(slot: Option<seq<TaggedValue>>, outcomes: seq<Outcome>)
    ensures SlotAfter(slot, outcomes).Some? <==>
      slot.Some? || exists i :: 0 <= i < |outcomes| && IsPredictSuccess(outcomes[i])
  {
    if |outcomes| > 0 {
      var n := |outcomes| - 1;
      PanelShown(slot, outcomes[..n]);
      assert forall i :: 0 <= i < n ==> outcomes[..n][i] == outcomes[i];
      if IsPredictSuccess(outcomes[n]) {
        assert SlotAfter(slot, outcomes).Some?;
      }
    }
  }

  class App {
    const predictionServer: string
    const trainingServer: string
    var lastPrediction: Option<seq<TaggedValue>>
    var posts: seq<Post>

    /** `lastPrediction` starts as `null`, and nothing has been posted. */
    constructor(predictionServer: string, trainingServer: string)
      ensures this.predictionServer == predictionServer && this.trainingServer == trainingServer
      ensures lastPrediction == None && posts == []
    {
      this.predictionServer := predictionServer;
      this.trainingServer := trainingServer;
      lastPrediction := None;
      posts := [];
    }

    /**
     * `onPredict`: posts the values to the prediction server; the response
     * list replaces the last prediction, and a rejected post leaves it as it
     * was and is passed on to the caller.
     */
    method OnPredict(values: seq<TaggedValue>, response: Result<seq<TaggedValue>, ()>) returns (r: Result<(), ()>)
      modifies this
      ensures posts == old(posts) + [Post(PredictUrl(predictionServer), values)]
      ensures lastPrediction == AfterOutcome(old(lastPrediction), Predicted(response))
      ensures r.Ok? <==> response.Ok?
    {
      posts := posts + [Post(PredictUrl(predictionServer), values)];
      if response.Err? {
        return Err(());
      }
      lastPrediction := Some(response.value);
      return Ok(());
    }

    /** `onTrain`: posts the values to the training server; the last prediction is untouched. */
    method OnTrain(values: seq<TaggedValue>, result: Result<(), ()>) returns (r: Result<(), ()>)
      modifies this
      ensures posts == old(posts) + [Post(TrainUrl(trainingServer), values)]
      ensures lastPrediction == old(lastPrediction)
      ensures r == result
    {
      posts := posts + [Post(TrainUrl(trainingServer), values)];
      return result;
    }

    /** The callback a form submission names, with that callback's outcome. */
    method Dispatch(submission: Submission, outcome: Outcome) returns (r: Result<(), ()>)
      requires submission.CallPredict? <==> outcome.Predicted?
      modifies this
      ensures submission.CallPredict? ==> posts == old(posts) + [Post(PredictUrl(predictionServer), submission.predictValues)]
      ensures submission.CallTrain? ==> posts == old(posts) + [Post(TrainUrl(trainingServer), submission.trainValues)]
      ensures lastPrediction == AfterOutcome(old(lastPrediction), outcome)
    {
      match submission
      case CallPredict(values) =>
        r := OnPredict(values, outcome.response);
      case CallTrain(values) =>
        r := OnTrain(values, outcome.result);
    }

    /**
     * The "Last prediction" panel is shown exactly when there is a last
     * prediction, even an empty list, which is truthy.
     */
    predicate ShowsLastPrediction()
      reads this
      ensures ShowsLastPrediction() <==> lastPrediction.Some?
      ensures lastPrediction == Some([]) ==> ShowsLastPrediction()
    {
      lastPrediction.Some?
    }
  }
}
