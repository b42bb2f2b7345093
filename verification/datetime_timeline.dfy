/**
 * `DatetimeTimeline` (timeline_helpers/src/datetime_timeline.rs): a date string
 * parsed with a chrono format and packed into 24 bits, 8 for the year since
 * 1900, 4 for the month, 5 for the day, 5 for the hour and 2 for the minute
 * divided by four.
 */
module DatetimeTimelines {
  import opened Wrappers
  import opened NumberEncoding
  import opened NumberDecoding
  import opened TimelineValues
  import opened Chrono

  const DefaultFormat: string := "%Y-%m-%d %H:%M:%S"
  const Capacity: U8 := 24

  /** `usize` arithmetic wraps modulo 2^64 (a release build). */
  const UsizeModulus: nat := 0x1_0000_0000_0000_0000

  datatype DatetimeTimelineConfig = DatetimeTimelineConfig(format: Option<string>)
  datatype DatetimeTimeline = DatetimeTimeline(config: DatetimeTimelineConfig)

  /** `get_date_format`: the configured format, or the default one. */
  function GetDateFormat(t: DatetimeTimeline): (f: string)
    ensures t.config.format.Some? ==> f == t.config.format.value
    ensures t.config.format.None? ==> f == DefaultFormat
  {
    match t.config.format
    case Some(f) => f
    case None => DefaultFormat
  }

  /** `date.year() as usize - 1900`, both the cast and the subtraction wrapping. */
  function YearNumber(year: int): nat
  {
    ((year % UsizeModulus) - 1900) % UsizeModulus
  }

  lemma FieldBounds(d: NaiveDateTime)
    requires ValidDateTime(d)
    ensures d.date.year <= MaxYear && d.date.month <= 12 && d.date.day <= 31 && d.hour <= 23 && d.minute <= 59
  {
  }

  lemma YearNumberFrom1900(year: int)
    requires 1900 <= year <= MaxYear
    ensures YearNumber(year) == year - 1900
  {
    assert year % UsizeModulus == year;
    assert (year - 1900) % UsizeModulus == year - 1900;
  }

  /** The five segments, in order, that `get_bits` appends for a parsed date. */
  function Segments(d: NaiveDateTime): seq<seq<bool>>
  {
    [ NumberToBits(YearNumber(d.date.year), 8, 2155),
      NumberToBits(d.date.month, 4, 12),
      NumberToBits(d.date.day, 5, 31),
      NumberToBits(d.hour, 5, 24),
      NumberToBits(d.minute / 4, 2, 16) ]
  }

  function DateBits(d: NaiveDateTime): (r: seq<bool>)
    ensures |r| == Capacity
  {
    var s := Segments(d);
    s[0] + s[1] + s[2] + s[3] + s[4]
  }

  /**
   * `get_bits`: a datetime string that parses is packed into 24 bits, one that
   * does not gives 24 falses; any other kind of value panics (`None`).
   */
  function GetBits(t: DatetimeTimeline, chrono: Chrono, value: ComplexTimelineValue): (r: Option<seq<bool>>)
    ensures r.Some? <==> value.Datetime?
    ensures r.Some? ==> |r.value| == Capacity
    ensures value.Datetime? && chrono.parseFromStr(value.text, GetDateFormat(t)).None? ==>
      r == Some(Repeat(false, Capacity))
  {
    if !value.Datetime? then None
    else
      match chrono.parseFromStr(value.text, GetDateFormat(t))
      case Some(d) => Some(DateBits(d))
      case None => Some(Repeat(false, Capacity))
  }

  /** The `Ok(date)` arm of `get_bits`: five push loops, one per segment. */
  method EncodeDate(d: NaiveDateTime) returns (res: seq<bool>)
    ensures res == DateBits(d)
    ensures |res| == Capacity
  {
    var s := Segments(d);
    res := [];
    res := PushAll(res, s[0]);
    res := PushAll(res, s[1]);
    res := PushAll(res, s[2]);
    res := PushAll(res, s[3]);
    res := PushAll(res, s[4]);
  }

  lemma DateBitsSlices(d: NaiveDateTime)
    ensures var s := Segments(d); var b := DateBits(d);
      b[0..8] == s[0] && b[8..12] == s[1] && b[12..17] == s[2] && b[17..22] == s[3] && b[22..24] == s[4]
  {
    var s := Segments(d);
    var b := DateBits(d);
    assert |s[0]| == 8 && |s[1]| == 4 && |s[2]| == 5 && |s[3]| == 5 && |s[4]| == 2;
    var a1 := s[0] + s[1];
    var a2 := a1 + s[2];
    var a3 := a2 + s[3];
    assert b == a3 + s[4];
    assert b[22..24] == s[4];
    assert b[..22] == a3;
    assert a3[17..22] == s[3];
    assert a3[..17] == a2;
    assert a2[12..17] == s[2];
    assert a2[..12] == a1;
  }

  /** The year segment decodes to the distance from 1900 modulo 256, or to 255 beyond 2155. */
  lemma YearSegmentValue(year: int)
    requires 1900 <= year <= MaxYear
    ensures BitsToNumber(NumberToBits(YearNumber(year), 8, 2155)) ==
      (if year - 1900 <= 2155 then (year - 1900) % 256 else 255)
  {
    YearNumberFrom1900(year);
    assert Pow2(8) == 256;
    if year - 1900 <= 2155 {
      EncodedValue(year - 1900, 8, 2155);
    } else {
      AllTrueIsMax(8);
    }
  }

  /** A segment whose value fits its width decodes to that value. */
  lemma FittingSegment(n: nat, width: nat, max: nat)
    requires n <= max && n < Pow2(width)
    ensures BitsToNumber(NumberToBits(n, width, max)) == n
  {
    DecodeEncode(n, width, max);
  }

  /**
   * The value of each segment once decoded. The year decodes to its distance
   * from 1900 modulo 256 while that distance is at most 2155 and to 255 beyond;
   * the minute keeps only `(minute / 4) % 4`.
   */
  lemma SegmentValues(d: NaiveDateTime)
    requires ValidDateTime(d) && 1900 <= d.date.year
    ensures var b := DateBits(d);
      && BitsToNumber(b[0..8]) == (if d.date.year - 1900 <= 2155 then (d.date.year - 1900) % 256 else 255)
      && BitsToNumber(b[8..12]) == d.date.month
      && BitsToNumber(b[12..17]) == d.date.day
      && BitsToNumber(b[17..22]) == d.hour
      && BitsToNumber(b[22..24]) == (d.minute / 4) % 4
  {
    FieldBounds(d);
    DateBitsSlices(d);
    YearSegmentValue(d.date.year);
    assert Pow2(4) == 16 && Pow2(5) == 32 && Pow2(2) == 4;
    FittingSegment(d.date.month, 4, 12);
    FittingSegment(d.date.day, 5, 31);
    FittingSegment(d.hour, 5, 24);
    EncodedValue(d.minute / 4, 2, 16);
  }

  /** A year before 1900 wraps `usize` and saturates the year segment to eight trues. */
  lemma YearBefore1900(d: NaiveDateTime)
    requires MinYear <= d.date.year < 1900
    ensures DateBits(d)[0..8] == Repeat(true, 8)
  {
    var y := d.date.year;
    if y >= 0 {
      assert YearNumber(y) == y - 1900 + UsizeModulus;
    } else {
      assert y % UsizeModulus == y + UsizeModulus;
      assert YearNumber(y) == y + UsizeModulus - 1900;
    }
    assert DateBits(d)[0..8] == Segments(d)[0];
  }

  function Min(a: nat, b: nat): nat { if a < b then a else b }

  /**
   * `reverse`: slices shorter than 24 bits panic (`None`). Otherwise month,
   * day, hour and minute are clamped, and the year is taken as decoded, without
   * adding 1900 back; a day that does not exist in that month gives "".
   */
  function Reverse(t: DatetimeTimeline, chrono: Chrono, bits: seq<bool>): (r: Option<ComplexTimelineValue>)
    ensures r.Some? <==> |bits| >= Capacity
    ensures r.Some? ==> r.value.Datetime?
    ensures r.Some? ==>
      (r.value.text == "" <== FromYmdOpt(BitsToNumber(bits[0..8]), Min(BitsToNumber(bits[8..12]), 12),
                                         Min(BitsToNumber(bits[12..17]), 31)).None?)
    ensures r.Some? && FromYmdOpt(BitsToNumber(bits[0..8]), Min(BitsToNumber(bits[8..12]), 12),
                                  Min(BitsToNumber(bits[12..17]), 31)).Some? ==>
      r.value.text == chrono.format(
        NaiveDateTime(
          NaiveDate(BitsToNumber(bits[0..8]), Min(BitsToNumber(bits[8..12]), 12), Min(BitsToNumber(bits[12..17]), 31)),
          Min(BitsToNumber(bits[17..22]), 23), Min(BitsToNumber(bits[22..24]) * 4, 59), 0),
        GetDateFormat(t))
  {
    if |bits| < Capacity as int then None
    else
      var year := BitsToNumber(bits[0..8]);
      var month := Min(BitsToNumber(bits[8..12]), 12);
      var day := Min(BitsToNumber(bits[12..17]), 31);
      var hour := Min(BitsToNumber(bits[17..22]), 23);
      var minute := Min(BitsToNumber(bits[22..24]) * 4, 59);
      match FromYmdOpt(year, month, day)
      case None => Some(Datetime(""))
      case Some(date) =>
        match AndHmsOpt(date, hour, minute, 0)
        case None => Some(Datetime(""))
        case Some(datetime) => Some(Datetime(chrono.format(datetime, GetDateFormat(t))))
  }

  /** `get_capacity`: the length of every encoding the item produces. */
  function GetCapacity(t: DatetimeTimeline): (c: U8)
    ensures forall chrono, v :: GetBits(t, chrono, v).Some? ==> |GetBits(t, chrono, v).value| == c
  {
    Capacity
  }

  /**
   * The item as a member of a complex timeline: it encodes exactly the
   * datetime values, always in 24 bits, and decodes exactly the bit vectors of
   * at least 24 bits.
   */
  function AsTimeline(t: DatetimeTimeline, chrono: Chrono): (r: Timeline)
    ensures r.capacity == Capacity
    ensures WellFormed(r)
    ensures forall v :: r.getBits(v).Some? <==> v.Datetime?
    ensures forall bits :: r.reverse(bits).Some? <==> |bits| >= Capacity
  {
    Timeline(GetCapacity(t), v => GetBits(t, chrono, v), bits => Reverse(t, chrono, bits))
  }

  /**
   * Encoding a parsed date from 1900 to 2155 and decoding it gives the date
   * 1900 years earlier, at the minute rounded down to 0, 4, 8 or 12 and second
   * 0, formatted with the same format; "" when that earlier day does not exist.
   */
  lemma RoundTrip(t: DatetimeTimeline, chrono: Chrono, text: string)
    requires ParsesValid(chrono)
    requires chrono.parseFromStr(text, GetDateFormat(t)).Some?
    requires 1900 <= chrono.parseFromStr(text, GetDateFormat(t)).value.date.year <= 2155
    ensures var d := chrono.parseFromStr(text, GetDateFormat(t)).value;
      var date := NaiveDate(d.date.year - 1900, d.date.month, d.date.day);
      Reverse(t, chrono, GetBits(t, chrono, Datetime(text)).value) ==
        Some(Datetime(
          if ValidDate(date)
          then chrono.format(NaiveDateTime(date, d.hour, 4 * ((d.minute / 4) % 4), 0), GetDateFormat(t))
          else ""))
  {
    var d := chrono.parseFromStr(text, GetDateFormat(t)).value;
    assert ValidDateTime(d);
    assert GetBits(t, chrono, Datetime(text)) == Some(DateBits(d));
    DateRoundTrip(t, chrono, d);
  }

  /** `RoundTrip` for the parsed date itself. */
  lemma DateRoundTrip(t: DatetimeTimeline, chrono: Chrono, d: NaiveDateTime)
    requires ValidDateTime(d) && 1900 <= d.date.year <= 2155
    ensures var date := NaiveDate(d.date.year - 1900, d.date.month, d.date.day);
      Reverse(t, chrono, DateBits(d)) ==
        Some(Datetime(
          if ValidDate(date)
          then chrono.format(NaiveDateTime(date, d.hour, 4 * ((d.minute / 4) % 4), 0), GetDateFormat(t))
          else ""))
  {
    var bits := DateBits(d);
    SegmentValues(d);
    DecodedFields(d, BitsToNumber(bits[0..8]), BitsToNumber(bits[8..12]), BitsToNumber(bits[12..17]),
      BitsToNumber(bits[17..22]), BitsToNumber(bits[22..24]));
    ReverseOfFields(t, chrono, bits, NaiveDate(d.date.year - 1900, d.date.month, d.date.day), d.hour, 4 * ((d.minute / 4) % 4));
  }

  /**
   * The fields `reverse` reads back from the segment values of a date from
   * 1900 to 2155: month, day and hour need no clamping, and the minute comes
   * back as four times its quarter.
   */
  lemma DecodedFields(d: NaiveDateTime, year: nat, month: nat, day: nat, hour: nat, quarter: nat)
    requires ValidDateTime(d) && 1900 <= d.date.year <= 2155
    requires year == (d.date.year - 1900) % 256 && month == d.date.month && day == d.date.day
    requires hour == d.hour && quarter == (d.minute / 4) % 4
    ensures year == d.date.year - 1900
    ensures Min(month, 12) == d.date.month && Min(day, 31) == d.date.day && Min(hour, 23) == d.hour
    ensures Min(quarter * 4, 59) == 4 * ((d.minute / 4) % 4)
  {
    FieldBounds(d);
  }

  /** `reverse` of bits whose fields read back as `date`, `hour` and `minute`. */
  lemma ReverseOfFields(t: DatetimeTimeline, chrono: Chrono, bits: seq<bool>, date: NaiveDate, hour: nat, minute: nat)
    requires |bits| >= Capacity as int && hour < 24 && minute < 60
    requires BitsToNumber(bits[0..8]) == date.year
    requires Min(BitsToNumber(bits[8..12]), 12) == date.month
    requires Min(BitsToNumber(bits[12..17]), 31) == date.day
    requires Min(BitsToNumber(bits[17..22]), 23) == hour
    requires Min(BitsToNumber(bits[22..24]) * 4, 59) == minute
    ensures Reverse(t, chrono, bits) ==
      Some(Datetime(if ValidDate(date) then chrono.format(NaiveDateTime(date, hour, minute, 0), GetDateFormat(t)) else ""))
  {
  }

  /**
   * 29 February 2000 is encoded with year 100, which is not a leap year, so
   * decoding it gives "".
   */
  lemma LeapDayDecodesEmpty(t: DatetimeTimeline, chrono: Chrono, text: string)
    requires ParsesValid(chrono)
    requires chrono.parseFromStr(text, GetDateFormat(t)) == Some(NaiveDateTime(NaiveDate(2000, 2, 29), 12, 0, 0))
    ensures Reverse(t, chrono, GetBits(t, chrono, Datetime(text)).value) == Some(Datetime(""))
  {
    RoundTrip(t, chrono, text);
    assert !IsLeapYear(100);
  }
}
