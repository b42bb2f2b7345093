/** `EnumTimeline` (timeline_helpers/src/enum_timeline.rs): an option encoded through its number. */
module EnumTimelines {
  import opened Wrappers
  import opened NumberEncoding
  import opened NumberDecoding
  import opened TimelineValues

  /** The parameters: the capacity and the two closures between options and numbers. */
  datatype EnumTimelineParams = EnumTimelineParams(
    capacity: U8,
    toNumber: string -> nat,
    toOption: nat -> string)

  datatype EnumTimeline = EnumTimeline(maxNormalizeValue: nat, params: EnumTimelineParams)

  /** `EnumTimeline::new`: the largest value the capacity holds is 2^capacity - 1. */
  function New(params: EnumTimelineParams): (t: EnumTimeline)
    ensures t.maxNormalizeValue == Pow2(params.capacity) - 1
    ensures t.params.capacity == params.capacity
    ensures t.params.toNumber == params.toNumber && t.params.toOption == params.toOption
  {
    EnumTimeline(Pow2(params.capacity) - 1, params)
  }

  /**
   * `get_bits`: an `Enum` value is encoded as `number_to_bits` of its number,
   * saturating at `maxNormalizeValue`; any other variant panics (`None`).
   */
  function GetBits(t: EnumTimeline, value: ComplexTimelineValue): (r: Option<seq<bool>>)
    ensures r.Some? <==> value.Enum?
    ensures r.Some? ==> |r.value| == t.params.capacity
  {
    match value
    case Enum(option) =>
      Some(NumberToBits(t.params.toNumber(option), t.params.capacity, t.maxNormalizeValue))
    case _ => None
  }

  /** `reverse`: the option named by the number the bits spell. */
  function Reverse(t: EnumTimeline, bits: seq<bool>): (r: ComplexTimelineValue)
    ensures r.Enum?
  {
    Enum(t.params.toOption(BitsToNumber(bits)))
  }

  /** `get_capacity`. */
  function GetCapacity(t: EnumTimeline): (c: U8)
    ensures forall v :: GetBits(t, v).Some? ==> |GetBits(t, v).value| == c
  {
    t.params.capacity
  }

  /**
   * The item as a member of a complex timeline: it encodes exactly the enum
   * values, always in `capacity` bits, and decodes every bit vector.
   */
  function AsTimeline(t: EnumTimeline): (r: Timeline)
    ensures r.capacity == t.params.capacity
    ensures WellFormed(r)
    ensures forall v :: r.getBits(v).Some? <==> v.Enum?
    ensures forall bits :: r.reverse(bits).Some? && r.reverse(bits).value.Enum?
  {
    Timeline(GetCapacity(t), v => GetBits(t, v), bits => Some(Reverse(t, bits)))
  }

  /** Encoding an option whose number fits the capacity and decoding it again names `toOption(toNumber(option))`. */
  lemma RoundTrip(params: EnumTimelineParams, option: string)
    requires params.toNumber(option) < Pow2(params.capacity)
    ensures GetBits(New(params), Enum(option)).Some?
    ensures Reverse(New(params), GetBits(New(params), Enum(option)).value)
         == Enum(params.toOption(params.toNumber(option)))
  {
    DecodeEncode(params.toNumber(option), params.capacity, New(params).maxNormalizeValue);
  }

  /** A number beyond 2^capacity - 1 saturates to all trues, which decode to 2^capacity - 1. */
  lemma Saturates(params: EnumTimelineParams, option: string)
    requires params.toNumber(option) >= Pow2(params.capacity)
    ensures GetBits(New(params), Enum(option)) == Some(Repeat(true, params.capacity))
    ensures Reverse(New(params), Repeat(true, params.capacity))
         == Enum(params.toOption(Pow2(params.capacity) - 1))
  {
    AllTrueIsMax(params.capacity);
  }

  /** An enum item is a well-formed complex timeline item of its capacity. */
  /** The closures of the tests in enum_timeline.rs. */
  function TestToNumber(value: string): nat
  {
    match value
    case "one" => 1
    case "two" => 2
    case "three" => 3
    case "four" => 4
    case "five" => 5
    case _ => 0
  }

  function TestToOption(value: nat): string
  {
    match value
    case 1 => "one"
    case 2 => "two"
    case 3 => "three"
    case 4 => "four"
    case 5 => "five"
    case _ => "zero"
  }

  /** The encoding test vectors of enum_timeline.rs at capacity 3. */
  lemma EnumEncodeExamples()
    ensures var t := New(EnumTimelineParams(3, TestToNumber, TestToOption));
      && GetBits(t, Enum("one")) == Some([false, false, true])
      && GetBits(t, Enum("five")) == Some([true, false, true])
      && GetBits(t, Enum("zero")) == Some([false, false, false])
  {
    var t := New(EnumTimelineParams(3, TestToNumber, TestToOption));
    assert t.maxNormalizeValue == 7;
    assert GetBits(t, Enum("one")) == Some([false, false, true]) by {
      assert TestToNumber("one") == 1;
      assert Binary(0, 1) == Binary(0, 0) + [false];
      assert Binary(0, 2) == Binary(0, 1) + [false];
      assert Binary(1, 3) == Binary(0, 2) + [true];
      assert NumberToBits(1, 3, 7) == [false, false, true];
    }
    assert GetBits(t, Enum("five")) == Some([true, false, true]) by {
      assert TestToNumber("five") == 5;
      assert Binary(1, 1) == Binary(0, 0) + [true];
      assert Binary(2, 2) == Binary(1, 1) + [false];
      assert Binary(5, 3) == Binary(2, 2) + [true];
      assert NumberToBits(5, 3, 7) == [true, false, true];
    }
    assert GetBits(t, Enum("zero")) == Some([false, false, false]) by {
      assert TestToNumber("zero") == 0;
      assert Binary(0, 1) == Binary(0, 0) + [false];
      assert Binary(0, 2) == Binary(0, 1) + [false];
      assert Binary(0, 3) == Binary(0, 2) + [false];
      assert NumberToBits(0, 3, 7) == [false, false, false];
    }
  }

  /** The decoding test vectors of enum_timeline.rs at capacity 3. */
  lemma EnumDecodeExamples()
    ensures var t := New(EnumTimelineParams(3, TestToNumber, TestToOption));
      && Reverse(t, [false, true, true]) == Enum("three")
      && Reverse(t, [true, false, false]) == Enum("four")
      && Reverse(t, [false, false, false]) == Enum("zero")
  {
    assert BitsToNumber([false, true, true]) == 3 by {
      assert [false, true, true][..2] == [false, true];
      assert [false, true][..1] == [false];
      assert [false][..0] == [];
    }
    assert BitsToNumber([true, false, false]) == 4 by {
      assert [true, false, false][..2] == [true, false];
      assert [true, false][..1] == [true];
      assert [true][..0] == [];
    }
    assert BitsToNumber([false, false, false]) == 0 by {
      assert [false, false, false][..2] == [false, false];
      assert [false, false][..1] == [false];
      assert [false][..0] == [];
    }
  }
}
