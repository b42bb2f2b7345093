/**
 * `recount_refract_intervals` (rnn_core/src/recount_refract_intervals.rs):
 * one tick of every neuron's refractory countdown. A neuron that fired
 * (activation above 0.5) restarts its countdown at the initial interval;
 * any other neuron counts down by one and stays at zero once there.
 * Activations (`f32`) are taken as exact reals.
 */
module RefractIntervals {
  import opened TimelineValues

  /** The new interval of one neuron. */
  function RecountOne(neuron: real, interval: U8, initial: U8): U8
  {
    if neuron > 0.5 then initial
    else if interval > 0 then interval - 1
    else 0
  }

  function Min(a: int, b: int): int
  {
    if a <= b then a else b
  }

  function Max(a: int, b: int): int
  {
    if a >= b then a else b
  }

  /**
   * The `zip`/`map`/`collect` over both arrays: it stops at the shorter one,
   * and element `i` is the recount of neuron `i` with interval `i`.
   */
  function RecountRefractIntervals(neurons: seq<real>, intervals: seq<U8>, initial: U8): (r: seq<U8>)
    ensures |r| == Min(|neurons|, |intervals|)
    ensures forall i :: 0 <= i < |r| ==> r[i] == RecountOne(neurons[i], intervals[i], initial)
  {
    if |neurons| == 0 || |intervals| == 0 then []
    else
      [RecountOne(neurons[0], intervals[0], initial)] +
      RecountRefractIntervals(neurons[1..], intervals[1..], initial)
  }

  /**
   * What happens to each interval: a firing neuron resets it, otherwise a
   * positive interval drops by exactly one and zero stays zero (no `u8`
   * underflow); no interval ends above both the initial and its old value.
   */
  lemma RecountEffect(neurons: seq<real>, intervals: seq<U8>, initial: U8, i: int)
    requires 0 <= i < |neurons| && 0 <= i < |intervals|
    ensures i < |RecountRefractIntervals(neurons, intervals, initial)|
    ensures neurons[i] > 0.5 ==> RecountRefractIntervals(neurons, intervals, initial)[i] == initial
    ensures neurons[i] <= 0.5 && intervals[i] > 0 ==>
      RecountRefractIntervals(neurons, intervals, initial)[i] == intervals[i] - 1
    ensures neurons[i] <= 0.5 && intervals[i] == 0 ==> RecountRefractIntervals(neurons, intervals, initial)[i] == 0
    ensures RecountRefractIntervals(neurons, intervals, initial)[i] <= Max(initial, intervals[i])
  {
  }

  /**
   * Element `i` depends only on neuron `i` and interval `i`: two inputs
   * that agree there give the same element `i`.
   */
  lemma RecountIsPointwise(
    neurons: seq<real>, intervals: seq<U8>, neurons': seq<real>, intervals': seq<U8>, initial: U8, i: int)
    requires 0 <= i < |neurons| && 0 <= i < |intervals| && 0 <= i < |neurons'| && 0 <= i < |intervals'|
    requires neurons[i] == neurons'[i] && intervals[i] == intervals'[i]
    ensures RecountRefractIntervals(neurons, intervals, initial)[i] ==
      RecountRefractIntervals(neurons', intervals', initial)[i]
  {
  }

  /**
   * Without firing, every interval reaches zero: `k` quiet ticks bring an
   * interval down to `interval - k`, or zero.
   */
  lemma {:induction false} QuietTicksCountDown(neurons: seq<real>, intervals: seq<U8>, initial: U8, k: nat)
    requires |neurons| == |intervals|
    requires forall i :: 0 <= i < |neurons| ==> neurons[i] <= 0.5
    ensures |Ticks(neurons, intervals, initial, k)| == |intervals|
    ensures forall i :: 0 <= i < |intervals| ==>
      Ticks(neurons, intervals, initial, k)[i] == Max(intervals[i] - k, 0)
  {
    if k > 0 {
      QuietTicksCountDown(neurons, intervals, initial, k - 1);
      var before := Ticks(neurons, intervals, initial, k - 1);
      forall i | 0 <= i < |intervals|
        ensures Ticks(neurons, intervals, initial, k)[i] == Max(intervals[i] - k, 0)
      {
        assert RecountRefractIntervals(neurons, before, initial)[i] == RecountOne(neurons[i], before[i], initial);
      }
    }
  }

  /** `k` ticks with the same activations. */
  function Ticks(neurons: seq<real>, intervals: seq<U8>, initial: U8, k: nat): seq<U8>
  {
    if k == 0 then intervals
    else RecountRefractIntervals(neurons, Ticks(neurons, intervals, initial, k - 1), initial)
  }

  lemma RecountExamples()
    ensures RecountRefractIntervals([0.9, 0.2, 0.5, 0.1], [0, 3, 0, 7, 9], 5) == [5, 2, 0, 6]
  {
  }
}
