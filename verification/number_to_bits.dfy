/**
 * `number_to_bits` (timeline_helpers) and its non-saturating twin `number_to_bytes`
 * (console_app): fixed-width, most-significant-bit-first binary encodings of a number.
 */
module NumberEncoding {

  /** 2 raised to `n`. */
  function Pow2(n: nat): (r: nat)
    ensures r >= 1
  {
    if n == 0 then 1 else 2 * Pow2(n - 1)
  }

  /** `width` copies of `b` (Rust's `vec![b; width]`). */
  function Repeat(b: bool, width: nat): (r: seq<bool>)
    ensures |r| == width
    ensures forall i :: 0 <= i < width ==> r[i] == b
  {
    seq(width, _ => b)
  }

  /** `s` back to front. */
  function Reversed(s: seq<bool>): (r: seq<bool>)
    ensures |r| == |s|
  {
    seq(|s|, i requires 0 <= i < |s| => s[|s| - 1 - i])
  }

  /**
   * The low `width` binary digits of `n`, most significant first: the last
   * element is the parity of `n`, the rest are the digits of `n / 2`.
   */
  function Binary(n: nat, width: nat): (r: seq<bool>)
    ensures |r| == width
  {
    if width == 0 then [] else Binary(n / 2, width - 1) + [n % 2 == 1]
  }

  /**
   * What `number_to_bits(number, capacity, max)` returns: `capacity` trues when
   * `number` exceeds `max`, otherwise the `capacity` low digits of `number`.
   */
  function NumberToBits(number: nat, capacity: nat, max: nat): (r: seq<bool>)
    ensures |r| == capacity
    ensures number > max ==> r == Repeat(true, capacity)
  {
    if number > max then Repeat(true, capacity) else Binary(number, capacity)
  }

  lemma ReversedPush(s: seq<bool>, b: bool)
    ensures Reversed(s + [b]) == [b] + Reversed(s)
  {
    var l, r := Reversed(s + [b]), [b] + Reversed(s);
    assert |l| == |r|;
    forall i | 0 <= i < |l| ensures l[i] == r[i] {
      if i > 0 { assert l[i] == s[|s| - i]; }
    }
  }

  /** One iteration of the halving loop keeps its invariant. */
  lemma HalvingStep(number: nat, k: nat, tempNumber: nat, result: seq<bool>)
    requires forall j: nat :: Binary(number, k + j) == Binary(tempNumber, j) + Reversed(result)
    ensures forall j: nat :: Binary(number, k + 1 + j) == Binary(tempNumber / 2, j) + Reversed(result + [tempNumber % 2 == 1])
  {
    ReversedPush(result, tempNumber % 2 == 1);
    forall j: nat
      ensures Binary(number, k + 1 + j) == Binary(tempNumber / 2, j) + Reversed(result + [tempNumber % 2 == 1])
    {
      assert Binary(number, k + (j + 1)) == Binary(tempNumber, j + 1) + Reversed(result);
    }
  }

  /**
   * The loop of `number_to_bits`: push the parity of a halving copy of the
   * number `capacity` times, least significant first, then reverse the vector.
   */
  method NumberToBitsLoop(number: nat, capacity: nat, max: nat) returns (result: seq<bool>)
    ensures result == NumberToBits(number, capacity, max)
  {
    if number > max {
      return Repeat(true, capacity);
    }
    result := [];
    var tempNumber := number;
    for k := 0 to capacity
      invariant forall j: nat :: Binary(number, k + j) == Binary(tempNumber, j) + Reversed(result)
    {
      HalvingStep(number, k, tempNumber, result);
      result := result + [tempNumber % 2 == 1];
      tempNumber := tempNumber / 2;
    }
    assert Binary(number, capacity + 0) == Binary(tempNumber, 0) + Reversed(result);
    result := Reversed(result);
  }

  /**
   * `number_to_bytes` of console_app: the same loop with no `max` and hence no
   * saturation; a number of `capacity` or more digits keeps its low digits.
   */
  method NumberToBytes(number: nat, capacity: nat) returns (result: seq<bool>)
    ensures result == Binary(number, capacity)
  {
    result := [];
    var tempNumber := number;
    for k := 0 to capacity
      invariant forall j: nat :: Binary(number, k + j) == Binary(tempNumber, j) + Reversed(result)
    {
      HalvingStep(number, k, tempNumber, result);
      result := result + [if tempNumber % 2 == 1 then true else false];
      tempNumber := tempNumber / 2;
    }
    assert Binary(number, capacity + 0) == Binary(tempNumber, 0) + Reversed(result);
    result := Reversed(result);
  }

  /** Below or at `max`, `number_to_bytes` and `number_to_bits` agree. */
  lemma BytesAgreeWithBits(number: nat, capacity: nat, max: nat)
    requires number <= max
    ensures Binary(number, capacity) == NumberToBits(number, capacity, max)
  {
  }

  /** The test vectors of number_to_bits.rs that fit (capacity 5, max 31). */
  lemma NumberToBitsFitsExamples()
    ensures NumberToBits(0, 5, 31) == [false, false, false, false, false]
    ensures NumberToBits(2, 5, 31) == [false, false, false, true, false]
    ensures NumberToBits(9, 5, 31) == [false, true, false, false, true]
    ensures NumberToBits(30, 5, 31) == [true, true, true, true, false]
    ensures NumberToBits(31, 5, 31) == [true, true, true, true, true]
  {
    assert NumberToBits(0, 5, 31) == [false, false, false, false, false] by {
      assert Binary(0, 1) == Binary(0, 0) + [false];
      assert Binary(0, 2) == Binary(0, 1) + [false];
      assert Binary(0, 3) == Binary(0, 2) + [false];
      assert Binary(0, 4) == Binary(0, 3) + [false];
      assert Binary(0, 5) == Binary(0, 4) + [false];
    }
    assert NumberToBits(2, 5, 31) == [false, false, false, true, false] by {
      assert Binary(0, 1) == Binary(0, 0) + [false];
      assert Binary(0, 2) == Binary(0, 1) + [false];
      assert Binary(0, 3) == Binary(0, 2) + [false];
      assert Binary(1, 4) == Binary(0, 3) + [true];
      assert Binary(2, 5) == Binary(1, 4) + [false];
    }
    assert NumberToBits(9, 5, 31) == [false, true, false, false, true] by {
      assert Binary(0, 1) == Binary(0, 0) + [false];
      assert Binary(1, 2) == Binary(0, 1) + [true];
      assert Binary(2, 3) == Binary(1, 2) + [false];
      assert Binary(4, 4) == Binary(2, 3) + [false];
      assert Binary(9, 5) == Binary(4, 4) + [true];
    }
    assert NumberToBits(30, 5, 31) == [true, true, true, true, false] by {
      assert Binary(1, 1) == Binary(0, 0) + [true];
      assert Binary(3, 2) == Binary(1, 1) + [true];
      assert Binary(7, 3) == Binary(3, 2) + [true];
      assert Binary(15, 4) == Binary(7, 3) + [true];
      assert Binary(30, 5) == Binary(15, 4) + [false];
    }
    assert NumberToBits(31, 5, 31) == [true, true, true, true, true] by {
      assert Binary(1, 1) == Binary(0, 0) + [true];
      assert Binary(3, 2) == Binary(1, 1) + [true];
      assert Binary(7, 3) == Binary(3, 2) + [true];
      assert Binary(15, 4) == Binary(7, 3) + [true];
      assert Binary(31, 5) == Binary(15, 4) + [true];
    }
  }

  /** The overflow test vectors of number_to_bits.rs: above `max`, all true. */
  lemma NumberToBitsOverflowExamples()
    ensures NumberToBits(32, 5, 31) == [true, true, true, true, true]
    ensures NumberToBits(100, 5, 31) == [true, true, true, true, true]
  {
  }
}
