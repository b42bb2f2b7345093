/**
 * The web form's data (webui/src/types.ts): the timeline descriptors of the
 * application configuration, the tagged values sent to the servers, and the
 * JavaScript values a form field can hold.
 */
module WebTypes {
  import opened Wrappers

  /** A JavaScript value as the form library hands it over. */
  datatype JsValue = JsUndefined | JsNull | JsNumber(n: real) | JsString(s: string) | JsOther

  /**
   * One entry of `__APP_CONFIG__.timelines`. The configuration is JSON read
   * at build time, so a descriptor of another type can reach the code:
   * `Unknown` stands for it.
   */
  datatype TimelineItem =
    | FloatItem(minValue: real, maxValue: real, capacity: real)
    | IntegerItem(minValue: real, maxValue: real, capacity: real)
    | EnumItem(options: seq<string>, capacity: real)
    | DatetimeItem(format: Option<string>)
    | Unknown(typeName: string)

  /**
   * `ITimelineValue`: one value tagged with its timeline type. The payload
   * is the field value as it is (`values[index] as number` is a cast that
   * checks nothing).
   */
  datatype TaggedValue = Float(f: JsValue) | Integer(i: JsValue) | Enum(e: JsValue) | Datetime(d: JsValue)

  /** The digit character of `d`. */
  function Digit(d: nat): char
    requires d < 10
  {
    "0123456789"[d]
  }

  function DigitValue(c: char): nat
  {
    if '0' <= c <= '9' then (c - '0') as nat else 0
  }

  /** `String(n)` for a non-negative integer: its decimal digits, most significant first. */
  function DecimalString(n: nat): (r: string)
    ensures |r| >= 1
    ensures forall i :: 0 <= i < |r| ==> '0' <= r[i] <= '9'
  {
    if n < 10 then [Digit(n)] else DecimalString(n / 10) + [Digit(n % 10)]
  }

  /** The number a string of decimal digits denotes. */
  function DecimalValue(s: string): nat
  {
    if |s| == 0 then 0 else DecimalValue(s[..|s| - 1]) * 10 + DigitValue(s[|s| - 1])
  }

  /** Reading `String(n)` back gives `n`. */
  lemma {:induction false} DecimalRoundTrip(n: nat)
    ensures DecimalValue(DecimalString(n)) == n
  {
    var s := DecimalString(n);
    DigitValueOfDigit(n % 10);
    if n < 10 {
      assert s[..0] == [];
    } else {
      DecimalRoundTrip(n / 10);
      assert s[..|s| - 1] == DecimalString(n / 10);
      assert s[|s| - 1] == Digit(n % 10);
      assert n / 10 * 10 + n % 10 == n;
    }
  }

  lemma DigitValueOfDigit(d: nat)
    requires d < 10
    ensures DigitValue(Digit(d)) == d
  {
  }

  /** Different indices give different field names. */
  lemma DecimalStringInjective(a: nat, b: nat)
    ensures DecimalString(a) == DecimalString(b) ==> a == b
  {
    DecimalRoundTrip(a);
    DecimalRoundTrip(b);
  }
}
