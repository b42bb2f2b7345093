/**
 * The values a timeline item carries and the `Timeline` interface that every
 * item of a complex timeline implements (timeline_helpers/src/structures.rs).
 */
module TimelineValues {
  import opened Wrappers

  /** A Rust `u8`. */
  type U8 = x: int | 0 <= x < 256

  /** An `f32`, carried as its IEEE-754 bit pattern and never interpreted. */
  datatype Float32 = Float32(bits: bv32)

  /** `ComplexTimelineValue`, with the `Datetime` variant that the datetime item uses. */
  datatype ComplexTimelineValue =
    | Float(f: Float32)
    | Integer(i: int)
    | Enum(option: string)
    | Datetime(text: string)

  /**
   * One item of a complex timeline behind `dyn Timeline`: its capacity, its
   * encoder and its decoder. `None` from either function stands for a panic.
   */
  datatype Timeline = Timeline(
    capacity: U8,
    getBits: ComplexTimelineValue -> Option<seq<bool>>,
    reverse: seq<bool> -> Option<ComplexTimelineValue>)

  /**
   * What the complex timeline relies on: every encoding an item produces is
   * exactly `capacity` bits long, and the item decodes every slice of that length.
   */
  ghost predicate WellFormed(t: Timeline)
  {
    && (forall v :: t.getBits(v).Some? ==> |t.getBits(v).value| == t.capacity)
    && (forall bits: seq<bool> :: |bits| == t.capacity ==> t.reverse(bits).Some?)
  }

  /** `for bit in bits { result.push(bit) }`: appends `bits` to `result` one by one. */
  method PushAll(result: seq<bool>, bits: seq<bool>) returns (out: seq<bool>)
    ensures out == result + bits
  {
    out := result;
    for i := 0 to |bits|
      invariant out == result + bits[..i]
    {
      out := out + [bits[i]];
      assert bits[..i + 1] == bits[..i] + [bits[i]];
    }
    assert bits[..|bits|] == bits;
  }
}
