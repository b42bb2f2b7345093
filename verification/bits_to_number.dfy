/**
 * `bits_to_number` (timeline_helpers): the inverse of `number_to_bits`, and the
 * round-trip laws that connect the two.
 */
module NumberDecoding {
  import opened NumberEncoding

  /** The value of `bits` read most significant first: a left fold `acc * 2 + bit`. */
  function BitsToNumber(bits: seq<bool>): (r: nat)
    ensures r < Pow2(|bits|)
  {
    if |bits| == 0 then 0
    else 2 * BitsToNumber(bits[..|bits| - 1]) + (if bits[|bits| - 1] then 1 else 0)
  }

  /** The loop of `bits_to_number`: double the accumulator, add one for a set bit. */
  method BitsToNumberLoop(bits: seq<bool>) returns (result: nat)
    ensures result == BitsToNumber(bits)
  {
    result := 0;
    for i := 0 to |bits|
      invariant result == BitsToNumber(bits[..i])
    {
      assert bits[..i + 1][..i] == bits[..i];
      result := result * 2;
      if bits[i] {
        result := result + 1;
      }
    }
    assert bits[..|bits|] == bits;
  }

  /** The empty slice decodes to 0, and a trailing bit doubles and adds. */
  lemma BitsToNumberPush(bits: seq<bool>, b: bool)
    ensures BitsToNumber([]) == 0
    ensures BitsToNumber(bits + [b]) == 2 * BitsToNumber(bits) + (if b then 1 else 0)
  {
    assert (bits + [b])[..|bits|] == bits;
  }

  /** Division by 2 and the remainder modulo twice a modulus. */
  lemma HalfMod(n: nat, m: nat)
    requires m > 0
    ensures 2 * ((n / 2) % m) + n % 2 == n % (2 * m)
  {
    var a, b := n / 2, n % 2;
    var q, c := a / m, a % m;
    assert n == 2 * a + b;
    assert a == q * m + c;
    assert n == (2 * m) * q + (2 * c + b);
    assert 0 <= 2 * c + b < 2 * m;
    ModOfDecomposition(n, 2 * m, q, 2 * c + b);
  }

  /** A remainder is determined by any quotient/remainder decomposition. */
  lemma ModOfDecomposition(n: nat, d: nat, q: int, r: int)
    requires d > 0 && 0 <= r < d && n == d * q + r
    ensures n % d == r
  {
    var q', r' := n / d, n % d;
    assert d * q == d * q' + d * (q - q');
    assert d * q' == d * q + d * (q' - q);
    MulAtLeast(d, q - q');
    MulAtLeast(d, q' - q);
  }

  /** A positive multiple of `d` is at least `d`. */
  lemma MulAtLeast(d: nat, k: int)
    ensures k >= 1 ==> d * k >= d
  {
    if k > 1 {
      MulAtLeast(d, k - 1);
      assert d * k == d * (k - 1) + d;
    }
  }

  /** Decoding the `width` low digits of `n` gives `n` modulo 2^width. */
  lemma {:induction false} DecodeBinary(n: nat, width: nat)
    ensures BitsToNumber(Binary(n, width)) == n % Pow2(width)
  {
    if width > 0 {
      DecodeBinary(n / 2, width - 1);
      BitsToNumberPush(Binary(n / 2, width - 1), n % 2 == 1);
      HalfMod(n, Pow2(width - 1));
    }
  }

  /** Encoding the value of `bits` at their own width gives `bits` back. */
  lemma {:induction false} BinaryOfDecoded(bits: seq<bool>)
    ensures Binary(BitsToNumber(bits), |bits|) == bits
  {
    if |bits| > 0 {
      var init, last := bits[..|bits| - 1], bits[|bits| - 1];
      assert bits == init + [last];
      BinaryOfDecoded(init);
      var n := BitsToNumber(bits);
      assert n / 2 == BitsToNumber(init) && (n % 2 == 1) == last;
    }
  }

  /**
   * Below or at `max`, `number_to_bits` keeps exactly the residue modulo
   * 2^capacity: bits at or above `capacity` are dropped silently.
   */
  lemma EncodedValue(number: nat, capacity: nat, max: nat)
    requires number <= max
    ensures BitsToNumber(NumberToBits(number, capacity, max)) == number % Pow2(capacity)
  {
    DecodeBinary(number, capacity);
  }

  /** Round trip: a number that is neither saturated nor truncated decodes to itself. */
  lemma DecodeEncode(number: nat, capacity: nat, max: nat)
    requires number <= max && number < Pow2(capacity)
    ensures BitsToNumber(NumberToBits(number, capacity, max)) == number
  {
    EncodedValue(number, capacity, max);
    ModOfDecomposition(number, Pow2(capacity), 0, number);
  }

  /** Round trip: with `max` at least 2^|bits| - 1, re-encoding a decoded vector gives it back. */
  lemma EncodeDecode(bits: seq<bool>, max: nat)
    requires max >= Pow2(|bits|) - 1
    ensures NumberToBits(BitsToNumber(bits), |bits|, max) == bits
  {
    BinaryOfDecoded(bits);
  }

  /** 2^capacity - 1 is the largest number `number_to_bits` encodes without saturating, as all trues. */
  lemma MaxEncodesAllTrue(capacity: nat)
    ensures NumberToBits(Pow2(capacity) - 1, capacity, Pow2(capacity) - 1) == Repeat(true, capacity)
  {
    EncodeDecode(Repeat(true, capacity), Pow2(capacity) - 1);
    AllTrueIsMax(capacity);
  }

  lemma {:induction false} AllTrueIsMax(capacity: nat)
    ensures BitsToNumber(Repeat(true, capacity)) == Pow2(capacity) - 1
  {
    if capacity > 0 {
      AllTrueIsMax(capacity - 1);
      assert Repeat(true, capacity)[..capacity - 1] == Repeat(true, capacity - 1);
    }
  }

  /** The test vectors of bits_to_number.rs, as the encodings of 0, 2, 9, 30 and 31 read back. */
  lemma BitsToNumberExamples()
    ensures BitsToNumber([false, false, false, false, false]) == 0
    ensures BitsToNumber([false, false, false, true, false]) == 2
    ensures BitsToNumber([false, true, false, false, true]) == 9
    ensures BitsToNumber([true, true, true, true, false]) == 30
    ensures BitsToNumber([true, true, true, true, true]) == 31
  {
    NumberToBitsFitsExamples();
    assert Pow2(5) == 32;
    DecodeEncode(0, 5, 31);
    DecodeEncode(2, 5, 31);
    DecodeEncode(9, 5, 31);
    DecodeEncode(30, 5, 31);
    DecodeEncode(31, 5, 31);
  }
}
