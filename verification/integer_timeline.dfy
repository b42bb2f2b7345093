/**
 * `IntegerTimeline` (timeline_helpers/src/integer_timeline.rs): an integer
 * clamped to `[min_value, max_value]`, normalised onto `0 .. 2^capacity - 1`
 * and encoded by `number_to_bits`.
 */
module IntegerTimelines {
  import opened Wrappers
  import opened NumberEncoding
  import opened NumberDecoding
  import opened TimelineValues

  /**
   * The parameters. `getMultiplier` is the optional closure that replaces the
   * linear multiplier; its `f32` result is taken as an exact real.
   */
  datatype IntegerTimelineParams = IntegerTimelineParams(
    minValue: int,
    maxValue: int,
    capacity: U8,
    getMultiplier: Option<int -> real>)

  datatype IntegerTimeline = IntegerTimeline(range: int, maxNormalizeValue: nat, params: IntegerTimelineParams)

  /** The fields `new` derives from the parameters; every timeline is built by `new`. */
  ghost predicate Built(t: IntegerTimeline)
  {
    t.range == t.params.maxValue - t.params.minValue && t.maxNormalizeValue == Pow2(t.params.capacity) - 1
  }

  /** `IntegerTimeline::new`. */
  function New(params: IntegerTimelineParams): (t: IntegerTimeline)
    ensures Built(t)
    ensures t.params.minValue == params.minValue && t.params.maxValue == params.maxValue
    ensures t.params.capacity == params.capacity && t.params.getMultiplier == params.getMultiplier
  {
    IntegerTimeline(params.maxValue - params.minValue, Pow2(params.capacity) - 1, params)
  }

  /**
   * `get_multiplier` for a value inside the range: the supplied closure when
   * there is one, otherwise `(value - min) / range`. With an empty range that
   * quotient is 0/0, a NaN, written `None`.
   */
  function GetMultiplier(t: IntegerTimeline, value: int): (r: Option<real>)
    requires t.range == t.params.maxValue - t.params.minValue
    requires t.params.minValue <= value <= t.params.maxValue
    ensures t.params.getMultiplier.Some? ==> r == Some(t.params.getMultiplier.value(value))
    ensures t.params.getMultiplier.None? ==> (r.None? <==> t.range == 0)
    ensures t.params.getMultiplier.None? && r.Some? ==> 0.0 <= r.value <= 1.0
  {
    match t.params.getMultiplier
    case Some(f) => Some(f(value))
    case None =>
      if t.range == 0 then None
      else Some((value - t.params.minValue) as real / t.range as real)
  }

  /**
   * `f32::round` followed by `as usize`: halves round away from zero, and a
   * negative result saturates to 0.
   */
  function RoundToUsize(x: real): (r: nat)
    ensures x <= 0.0 ==> r == 0
    ensures x > 0.0 ==> r as real - 0.5 <= x < r as real + 0.5
  {
    if x <= 0.0 then 0 else (x + 0.5).Floor
  }

  /**
   * `normalize_value`: the multiplier scaled to `maxNormalizeValue` and
   * rounded to the nearest integer; a NaN, or a scaled value that is not
   * positive, becomes 0.
   */
  function NormalizeValue(t: IntegerTimeline, value: int): (r: nat)
    requires t.range == t.params.maxValue - t.params.minValue
    requires t.params.minValue <= value <= t.params.maxValue
    ensures GetMultiplier(t, value).None? ==> r == 0
    ensures GetMultiplier(t, value).Some? && t.maxNormalizeValue as real * GetMultiplier(t, value).value <= 0.0 ==> r == 0
    ensures GetMultiplier(t, value).Some? && t.maxNormalizeValue as real * GetMultiplier(t, value).value > 0.0 ==>
      r as real - 0.5 <= t.maxNormalizeValue as real * GetMultiplier(t, value).value < r as real + 0.5
  {
    match GetMultiplier(t, value)
    case None => 0
    case Some(m) => RoundToUsize(t.maxNormalizeValue as real * m)
  }

  /**
   * `get_bits`: above `max_value` all trues, below `min_value` all falses,
   * otherwise the normalised value through `number_to_bits`.
   */
  function GetBits(t: IntegerTimeline, value: int): (r: seq<bool>)
    requires t.range == t.params.maxValue - t.params.minValue
    ensures |r| == t.params.capacity
    ensures value > t.params.maxValue ==> r == Repeat(true, t.params.capacity)
    ensures value <= t.params.maxValue && value < t.params.minValue ==> r == Repeat(false, t.params.capacity)
    ensures t.params.minValue <= value <= t.params.maxValue ==>
      r == NumberToBits(NormalizeValue(t, value), t.params.capacity, t.maxNormalizeValue)
  {
    if value > t.params.maxValue then Repeat(true, t.params.capacity)
    else if value < t.params.minValue then Repeat(false, t.params.capacity)
    else NumberToBits(NormalizeValue(t, value), t.params.capacity, t.maxNormalizeValue)
  }

  /**
   * With the linear multiplier, a value inside the range never saturates: it is
   * normalised to at most 2^capacity - 1 and its bits decode to exactly that.
   */
  lemma LinearNormalizeFits(t: IntegerTimeline, value: int)
    requires Built(t) && t.params.getMultiplier.None?
    requires t.params.minValue <= value <= t.params.maxValue
    ensures NormalizeValue(t, value) <= t.maxNormalizeValue
    ensures BitsToNumber(GetBits(t, value)) == NormalizeValue(t, value)
  {
    var n := NormalizeValue(t, value);
    NormalizeAtMost(t, value);
    assert n < Pow2(t.params.capacity);
    DecodeEncode(n, t.params.capacity, t.maxNormalizeValue);
  }

  /** With the linear multiplier the normalised value is at most `maxNormalizeValue`. */
  lemma NormalizeAtMost(t: IntegerTimeline, value: int)
    requires t.range == t.params.maxValue - t.params.minValue && t.params.getMultiplier.None?
    requires t.params.minValue <= value <= t.params.maxValue
    ensures NormalizeValue(t, value) <= t.maxNormalizeValue
  {
    var m := GetMultiplier(t, value);
    if m.Some? {
      var a := t.maxNormalizeValue as real;
      ScaleAtMost(a, m.value);
      RoundAtMost(a * m.value, t.maxNormalizeValue);
    }
  }

  /** Rounding never goes above an integer bound. */
  lemma RoundAtMost(x: real, bound: nat)
    requires x <= bound as real
    ensures RoundToUsize(x) <= bound
  {
    if x > 0.0 {
      assert (x + 0.5).Floor as real <= x + 0.5 < bound as real + 1.0;
    }
  }

  lemma ScaleAtMost(a: real, m: real)
    requires 0.0 <= a && 0.0 <= m <= 1.0
    ensures a * m <= a
  {
    assert a - a * m == a * (1.0 - m);
  }

  /** The timeline of the tests in integer_timeline.rs: capacity 5 over 10..110. */
  function TestTimeline(getMultiplier: Option<int -> real>): IntegerTimeline
  {
    New(IntegerTimelineParams(10, 110, 5, getMultiplier))
  }

  /** The linear tests: 16, 39 and 106 normalise to 2, 9 and 30; 5 and 115 clamp. */
  lemma LinearExamples()
    ensures NormalizeValue(TestTimeline(None), 16) == 2
    ensures NormalizeValue(TestTimeline(None), 39) == 9
    ensures NormalizeValue(TestTimeline(None), 106) == 30
    ensures GetBits(TestTimeline(None), 5) == [false, false, false, false, false]
    ensures GetBits(TestTimeline(None), 115) == [true, true, true, true, true]
    ensures GetBits(TestTimeline(None), 39) == [false, true, false, false, true]
  {
    var t := TestTimeline(None);
    assert t.maxNormalizeValue == 31 && t.range == 100;
    assert RoundToUsize(31.0 * (6.0 / 100.0)) == 2;
    assert RoundToUsize(31.0 * (29.0 / 100.0)) == 9;
    assert RoundToUsize(31.0 * (96.0 / 100.0)) == 30;
    NumberToBitsFitsExamples();
  }

  /** The multiplier of the parabolic test: `((v - 10) / 100)^2`. */
  function ParabolicMultiplier(v: int): real
  {
    ((v - 10) as real / 100.0) * ((v - 10) as real / 100.0)
  }

  /** The parabolic test: the supplied multiplier replaces the linear one. */
  lemma ParabolicExamples()
    ensures NormalizeValue(TestTimeline(Some(ParabolicMultiplier)), 100) == 25
    ensures NormalizeValue(TestTimeline(Some(ParabolicMultiplier)), 39) == 3
    ensures NormalizeValue(TestTimeline(Some(ParabolicMultiplier)), 77) == 14
  {
    var t := TestTimeline(Some(ParabolicMultiplier));
    assert ParabolicMultiplier(100) == 0.81;
    assert ParabolicMultiplier(39) == 0.0841;
    assert ParabolicMultiplier(77) == 0.4489;
    assert RoundToUsize(31.0 * 0.81) == 25;
    assert RoundToUsize(31.0 * 0.0841) == 3;
    assert RoundToUsize(31.0 * 0.4489) == 14;
  }
}
