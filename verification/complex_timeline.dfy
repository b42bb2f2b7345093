/**
 * `ComplexTimeline` (timeline_helpers/src/complex_timeline.rs): a sequence of
 * timeline items whose encodings are concatenated in order, and split again by
 * the items' capacities when decoding.
 */
module ComplexTimelines {
  import opened Wrappers
  import opened TimelineValues

  datatype ComplexTimeline = ComplexTimeline(items: seq<Timeline>)

  /** The sum of the items' capacities. */
  function TotalCapacity(items: seq<Timeline>): nat
  {
    if |items| == 0 then 0 else items[0].capacity + TotalCapacity(items[1..])
  }

  function PrependBits(prefix: seq<bool>, rest: Option<seq<bool>>): Option<seq<bool>>
  {
    match rest
    case None => None
    case Some(bits) => Some(prefix + bits)
  }

  function PrependValues(prefix: seq<ComplexTimelineValue>, rest: Option<seq<ComplexTimelineValue>>): Option<seq<ComplexTimelineValue>>
  {
    match rest
    case None => None
    case Some(values) => Some(prefix + values)
  }

  lemma PrependNoBits(rest: Option<seq<bool>>)
    ensures PrependBits([], rest) == rest
  {
    if rest.Some? {
      assert [] + rest.value == rest.value;
    }
  }

  lemma PrependNoValues(rest: Option<seq<ComplexTimelineValue>>)
    ensures PrependValues([], rest) == rest
  {
    if rest.Some? {
      assert [] + rest.value == rest.value;
    }
  }

  lemma PrependBitsTwice(a: seq<bool>, b: seq<bool>, rest: Option<seq<bool>>)
    ensures PrependBits(a, PrependBits(b, rest)) == PrependBits(a + b, rest)
  {
    if rest.Some? {
      assert a + (b + rest.value) == (a + b) + rest.value;
    }
  }

  lemma PrependValuesTwice(a: seq<ComplexTimelineValue>, b: seq<ComplexTimelineValue>, rest: Option<seq<ComplexTimelineValue>>)
    ensures PrependValues(a, PrependValues(b, rest)) == PrependValues(a + b, rest)
  {
    if rest.Some? {
      assert a + (b + rest.value) == (a + b) + rest.value;
    }
  }

  /**
   * What `get_bits` computes: the i-th value encoded by the i-th item, all
   * concatenated. A value with no item at its index, or an item that panics,
   * makes the whole call panic (`None`); items beyond the values are unused.
   */
  function EncodeAll(items: seq<Timeline>, values: seq<ComplexTimelineValue>): Option<seq<bool>>
  {
    if |values| == 0 then Some([])
    else if |items| == 0 then None
    else
      match items[0].getBits(values[0])
      case None => None
      case Some(bits) => PrependBits(bits, EncodeAll(items[1..], values[1..]))
  }

  /**
   * What `reverse` computes: each item decodes the next `capacity` bits. Too
   * few bits for an item (the slice panics) or an item that panics gives `None`;
   * bits beyond the total capacity are ignored.
   */
  function DecodeAll(items: seq<Timeline>, bits: seq<bool>): Option<seq<ComplexTimelineValue>>
  {
    if |items| == 0 then Some([])
    else if |bits| < items[0].capacity then None
    else
      match items[0].reverse(bits[..items[0].capacity])
      case None => None
      case Some(v) => PrependValues([v], DecodeAll(items[1..], bits[items[0].capacity..]))
  }

  /** `ComplexTimeline::get_bits`: the loop over the values, pushing each item's bits. */
  method GetBits(t: ComplexTimeline, values: seq<ComplexTimelineValue>) returns (r: Option<seq<bool>>)
    ensures r == EncodeAll(t.items, values)
  {
    var result := [];
    assert t.items[0..] == t.items && values[0..] == values;
    PrependNoBits(EncodeAll(t.items, values));
    for i := 0 to |values|
      invariant i <= |t.items|
      invariant EncodeAll(t.items, values) == PrependBits(result, EncodeAll(t.items[i..], values[i..]))
    {
      if i == |t.items| {
        assert EncodeAll(t.items[i..], values[i..]).None?;
        return None;
      }
      var bits := t.items[i].getBits(values[i]);
      if bits.None? {
        assert EncodeAll(t.items[i..], values[i..]).None?;
        return None;
      }
      ghost var before := result;
      result := PushAll(result, bits.value);
      assert t.items[i..][1..] == t.items[i + 1..] && values[i..][1..] == values[i + 1..];
      PrependBitsTwice(before, bits.value, EncodeAll(t.items[i + 1..], values[i + 1..]));
    }
    assert values[|values|..] == [] && result + [] == result;
    return Some(result);
  }

  /** Decoding the first item to `item` moves it to the values decoded so far. */
  lemma DecodeStep(items: seq<Timeline>, bits: seq<bool>, item: ComplexTimelineValue, res: seq<ComplexTimelineValue>)
    requires |items| > 0 && items[0].capacity <= |bits|
    requires items[0].reverse(bits[..items[0].capacity]) == Some(item)
    ensures PrependValues(res, DecodeAll(items, bits)) ==
      PrependValues(res + [item], DecodeAll(items[1..], bits[items[0].capacity..]))
  {
    PrependValuesTwice(res, [item], DecodeAll(items[1..], bits[items[0].capacity..]));
  }

  /** `ComplexTimeline::reverse`: the loop over the items, advancing the offset by each capacity. */
  method Reverse(t: ComplexTimeline, bits: seq<bool>) returns (r: Option<seq<ComplexTimelineValue>>)
    ensures r == DecodeAll(t.items, bits)
  {
    var res := [];
    var offset := 0;
    assert t.items[0..] == t.items && bits[0..] == bits;
    PrependNoValues(DecodeAll(t.items, bits));
    for k := 0 to |t.items|
      invariant offset <= |bits|
      invariant DecodeAll(t.items, bits) == PrependValues(res, DecodeAll(t.items[k..], bits[offset..]))
    {
      var capacity := t.items[k].capacity;
      var nextOffset := offset + capacity;
      if nextOffset > |bits| {
        assert DecodeAll(t.items[k..], bits[offset..]).None?;
        return None;
      }
      var timelineBits := bits[offset..nextOffset];
      assert bits[offset..][..capacity] == timelineBits;
      var resItem := t.items[k].reverse(timelineBits);
      if resItem.None? {
        assert DecodeAll(t.items[k..], bits[offset..]).None?;
        return None;
      }
      var item := resItem.value;
      DecodeStep(t.items[k..], bits[offset..], item, res);
      res := res + [item];
      assert t.items[k..][1..] == t.items[k + 1..];
      assert bits[offset..][capacity..] == bits[nextOffset..];
      offset := nextOffset;
    }
    assert t.items[|t.items|..] == [];
    assert res + [] == res;
    return Some(res);
  }

  /**
   * `get_bits` succeeds exactly when every value has an item at its index and
   * no item panics on its value.
   */
  lemma {:induction false} EncodeAllSome(items: seq<Timeline>, values: seq<ComplexTimelineValue>)
    ensures EncodeAll(items, values).Some? <==>
      |values| <= |items| && forall i :: 0 <= i < |values| ==> items[i].getBits(values[i]).Some?
  {
    if |values| > 0 && |items| > 0 {
      EncodeAllSome(items[1..], values[1..]);
      if items[0].getBits(values[0]).Some? && EncodeAll(items[1..], values[1..]).Some? {
        forall i | 0 <= i < |values|
          ensures items[i].getBits(values[i]).Some?
        {
          if i > 0 {
            assert items[i] == items[1..][i - 1] && values[i] == values[1..][i - 1];
          }
        }
      }
      if |values| <= |items| && forall i :: 0 <= i < |values| ==> items[i].getBits(values[i]).Some? {
        forall i | 0 <= i < |values| - 1
          ensures items[1..][i].getBits(values[1..][i]).Some?
        {
          assert items[1..][i] == items[i + 1] && values[1..][i] == values[i + 1];
        }
      }
    }
  }

  /** With well-formed items, an encoding is as long as the capacities of the items used. */
  lemma {:induction false} EncodeAllLength(items: seq<Timeline>, values: seq<ComplexTimelineValue>)
    requires forall i :: 0 <= i < |items| ==> WellFormed(items[i])
    requires EncodeAll(items, values).Some?
    ensures |values| <= |items|
    ensures |EncodeAll(items, values).value| == TotalCapacity(items[..|values|])
  {
    if |values| > 0 {
      assert WellFormed(items[0]);
      EncodeAllLength(items[1..], values[1..]);
      assert items[..|values|][1..] == items[1..][..|values| - 1];
    } else {
      assert items[..0] == [];
    }
  }

  /** With well-formed items, `reverse` succeeds exactly when there are enough bits for every item. */
  lemma {:induction false} DecodeAllSome(items: seq<Timeline>, bits: seq<bool>)
    requires forall i :: 0 <= i < |items| ==> WellFormed(items[i])
    ensures DecodeAll(items, bits).Some? <==> |bits| >= TotalCapacity(items)
    ensures DecodeAll(items, bits).Some? ==> |DecodeAll(items, bits).value| == |items|
  {
    if |items| > 0 {
      assert WellFormed(items[0]);
      var c := items[0].capacity;
      if |bits| >= c {
        assert |bits[..c]| == c;
        DecodeAllSome(items[1..], bits[c..]);
      }
    }
  }

  /** Bits beyond the total capacity do not change the decoded values. */
  lemma {:induction false} DecodeIgnoresTail(items: seq<Timeline>, bits: seq<bool>, tail: seq<bool>)
    requires |bits| >= TotalCapacity(items)
    ensures DecodeAll(items, bits + tail) == DecodeAll(items, bits)
  {
    if |items| > 0 {
      var c := items[0].capacity;
      assert (bits + tail)[..c] == bits[..c];
      assert (bits + tail)[c..] == bits[c..] + tail;
      DecodeIgnoresTail(items[1..], bits[c..], tail);
    }
  }

  /**
   * Round trip: with well-formed items and one value per item, decoding the
   * encoding gives, at each index, what that item alone decodes from its own
   * encoding of the value.
   */
  lemma {:induction false} RoundTrip(items: seq<Timeline>, values: seq<ComplexTimelineValue>)
    requires forall i :: 0 <= i < |items| ==> WellFormed(items[i])
    requires |values| == |items|
    requires EncodeAll(items, values).Some?
    ensures DecodeAll(items, EncodeAll(items, values).value).Some?
    ensures var decoded := DecodeAll(items, EncodeAll(items, values).value).value;
      && |decoded| == |items|
      && forall i :: 0 <= i < |items| ==>
           items[i].getBits(values[i]).Some?
           && Some(decoded[i]) == items[i].reverse(items[i].getBits(values[i]).value)
  {
    if |items| > 0 {
      var first := items[0].getBits(values[0]).value;
      var rest := EncodeAll(items[1..], values[1..]).value;
      assert WellFormed(items[0]);
      assert EncodeAll(items, values).value == first + rest;
      assert (first + rest)[..|first|] == first && (first + rest)[|first|..] == rest;
      RoundTrip(items[1..], values[1..]);
      var decodedRest := DecodeAll(items[1..], rest).value;
      var decoded := DecodeAll(items, first + rest).value;
      assert decoded == [items[0].reverse(first).value] + decodedRest;
      forall i | 0 <= i < |items|
        ensures items[i].getBits(values[i]).Some?
        ensures Some(decoded[i]) == items[i].reverse(items[i].getBits(values[i]).value)
      {
        if i > 0 {
          assert items[i] == items[1..][i - 1] && values[i] == values[1..][i - 1];
          assert decoded[i] == decodedRest[i - 1];
        }
      }
    }
  }
}
