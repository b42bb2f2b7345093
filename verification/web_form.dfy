/**
 * The prediction/training form (webui/src/Form.tsx): one field per
 * configured timeline, whose submitted values are tagged with their
 * timeline types and handed to `onTrain` or `onPredict`, as chosen by the
 * button that submitted the form.
 *
 * The form library itself (rendering, validation of the `required` fields)
 * is not part of this model: it is the caller of `handleSubmit`.
 */
module WebForm {
  import opened Wrappers
  import opened WebTypes

  /** The field schemas of `@vtaits/form-schema` that the form uses. */
  datatype FieldSchema =
    | DatetimeField(caption: string, required: bool)
    | InputField(caption: string, required: bool, isNumber: bool)
    | SelectField(
        caption: string,
        required: bool,
        options: seq<string>,
        getOptionLabel: string -> string,
        getOptionValue: string -> string)

  /** The message of the error thrown on a descriptor of an unknown type. */
  const UnknownTypeError := "Unknown timeline item type"

  /** The type word of a descriptor in its field's label. */
  function TypeWord(item: TimelineItem): string
  {
    match item
    case FloatItem(_, _, _) => "float"
    case IntegerItem(_, _, _) => "integer"
    case EnumItem(_, _) => "enum"
    case DatetimeItem(_) => "datetime"
    case Unknown(name) => name
  }

  /** `#<index + 1> <type>`. */
  function FieldLabel(index: nat, item: TimelineItem): string
  {
    "#" + DecimalString(index + 1) + " " + TypeWord(item)
  }

  /** The schema the `switch` builds for descriptor `index`; `None` where it throws. */
  function SchemaFor(index: nat, item: TimelineItem): Option<FieldSchema>
  {
    match item
    case DatetimeItem(_) => Some(DatetimeField(FieldLabel(index, item), true))
    case IntegerItem(_, _, _) => Some(InputField(FieldLabel(index, item), true, true))
    case FloatItem(_, _, _) => Some(InputField(FieldLabel(index, item), true, true))
    case EnumItem(options, _) => Some(SelectField(FieldLabel(index, item), true, options, o => o, o => o))
    case Unknown(_) => None
  }

  /**
   * What a schema promises: every known descriptor gets a required field
   * labelled `#<index + 1> <type>`; the widget is fixed by the type (a
   * datetime picker, a numeric input for integers and floats, a select for
   * enums) and a select offers the configured options unchanged, each shown
   * and submitted as itself.
   */
  lemma SchemaForMeaning(index: nat, item: TimelineItem)
    ensures SchemaFor(index, item).None? <==> item.Unknown?
    ensures SchemaFor(index, item).Some? ==>
      SchemaFor(index, item).value.required && SchemaFor(index, item).value.caption == FieldLabel(index, item)
    ensures item.DatetimeItem? ==> SchemaFor(index, item).value.DatetimeField?
    ensures item.IntegerItem? || item.FloatItem? ==>
      SchemaFor(index, item).value.InputField? && SchemaFor(index, item).value.isNumber
    ensures item.EnumItem? ==>
      && SchemaFor(index, item).value.SelectField?
      && SchemaFor(index, item).value.options == item.options
      && forall o :: SchemaFor(index, item).value.getOptionLabel(o) == o && SchemaFor(index, item).value.getOptionValue(o) == o
  {
  }

  /** The leading decimal digits of `s`. */
  function LeadingDigits(s: string): string
  {
    if |s| == 0 || !('0' <= s[0] <= '9') then [] else [s[0]] + LeadingDigits(s[1..])
  }

  /** The number a label starts with, after its `#`. */
  function LabelNumber(caption: string): nat
  {
    if |caption| == 0 then 0 else DecimalValue(LeadingDigits(caption[1..]))
  }

  lemma {:induction false} LeadingDigitsOf(digits: string, rest: string)
    requires forall i :: 0 <= i < |digits| ==> '0' <= digits[i] <= '9'
    requires |rest| > 0 && rest[0] == ' '
    ensures LeadingDigits(digits + rest) == digits
  {
    if |digits| > 0 {
      assert (digits + rest)[1..] == digits[1..] + rest;
      LeadingDigitsOf(digits[1..], rest);
    }
  }

  /** The label of field `index` reads back as `index + 1`. */
  lemma LabelRoundTrip(index: nat, item: TimelineItem)
    ensures LabelNumber(FieldLabel(index, item)) == index + 1
  {
    var digits := DecimalString(index + 1);
    var rest := " " + TypeWord(item);
    var caption := FieldLabel(index, item);
    assert caption == "#" + (digits + rest);
    assert caption[1..] == digits + rest;
    LeadingDigitsOf(digits, rest);
    DecimalRoundTrip(index + 1);
  }

  /** Labels tell the fields apart: two descriptors at different indices never share a label. */
  lemma LabelsDistinct(i: nat, j: nat, a: TimelineItem, b: TimelineItem)
    ensures i != j ==> FieldLabel(i, a) != FieldLabel(j, b)
  {
    LabelRoundTrip(i, a);
    LabelRoundTrip(j, b);
  }

  /** `names`: `"0"` to `"n-1"`, one per descriptor, in order. */
  function FieldNames(timelines: seq<TimelineItem>): (r: seq<string>)
    ensures |r| == |timelines|
    ensures forall i :: 0 <= i < |r| ==> r[i] == DecimalString(i)
  {
    seq(|timelines|, i requires 0 <= i => DecimalString(i))
  }

  /** No two fields share a name. */
  lemma FieldNamesDistinct(timelines: seq<TimelineItem>)
    ensures forall i, j :: 0 <= i < j < |timelines| ==> FieldNames(timelines)[i] != FieldNames(timelines)[j]
  {
    forall i, j | 0 <= i < j < |timelines|
      ensures FieldNames(timelines)[i] != FieldNames(timelines)[j]
    {
      DecimalStringInjective(i, j);
    }
  }

  /** The name of field `i` reads back as `i`. */
  lemma FieldNamesReadBack(timelines: seq<TimelineItem>)
    ensures forall i :: 0 <= i < |timelines| ==> DecimalValue(FieldNames(timelines)[i]) == i
  {
    forall i | 0 <= i < |timelines|
      ensures DecimalValue(FieldNames(timelines)[i]) == i
    {
      DecimalRoundTrip(i);
    }
  }

  /** No descriptor is of an unknown type. */
  predicate AllKnown(timelines: seq<TimelineItem>)
  {
    forall i :: 0 <= i < |timelines| ==> !timelines[i].Unknown?
  }

  /** The keys of `res` are exactly the first `index` names. */
  ghost predicate KeysFilled(res: map<string, FieldSchema>, names: seq<string>, index: nat)
    requires index <= |names|
  {
    forall name :: name in res <==> name in names[..index]
  }

  /**
   * Under the first `index` names, `res` holds the schemas of the first
   * `index` descriptors.
   */
  ghost predicate SchemasFilled(res: map<string, FieldSchema>, names: seq<string>, timelines: seq<TimelineItem>, index: nat)
    requires index <= |names| && index <= |timelines|
  {
    forall i :: 0 <= i < index ==> names[i] in res && Some(res[names[i]]) == SchemaFor(i, timelines[i])
  }

  lemma KeysStep(res: map<string, FieldSchema>, names: seq<string>, index: nat, schema: FieldSchema)
    requires index < |names| && KeysFilled(res, names, index)
    ensures KeysFilled(res[names[index] := schema], names, index + 1)
  {
    assert names[..index + 1] == names[..index] + [names[index]];
  }

  lemma SchemasStep(
    res: map<string, FieldSchema>, names: seq<string>, timelines: seq<TimelineItem>, index: nat, schema: FieldSchema)
    requires index < |names| && index < |timelines| && SchemasFilled(res, names, timelines, index)
    requires forall i :: 0 <= i < index ==> names[i] != names[index]
    requires SchemaFor(index, timelines[index]) == Some(schema)
    ensures SchemasFilled(res[names[index] := schema], names, timelines, index + 1)
  {
  }

  /**
   * `schemas`: the `reduce` that fills a record keyed by the descriptor
   * index, or the error it throws on the first unknown descriptor (then no
   * schema record exists at all). Its keys are exactly the field names.
   */
  method BuildSchemas(timelines: seq<TimelineItem>) returns (r: Result<map<string, FieldSchema>, string>)
    ensures r.Ok? <==> AllKnown(timelines)
    ensures r.Err? ==> r.error == UnknownTypeError
    ensures r.Ok? ==> forall name :: name in r.value <==> name in FieldNames(timelines)
    ensures r.Ok? ==> forall i :: 0 <= i < |timelines| ==>
      FieldNames(timelines)[i] in r.value && Some(r.value[FieldNames(timelines)[i]]) == SchemaFor(i, timelines[i])
  {
    var res := map[];
    ghost var names := FieldNames(timelines);
    FieldNamesDistinct(timelines);
    for index := 0 to |timelines|
      invariant KeysFilled(res, names, index)
      invariant SchemasFilled(res, names, timelines, index)
      invariant forall i :: 0 <= i < index ==> !timelines[i].Unknown?
    {
      var schema := SchemaFor(index, timelines[index]);
      if schema.None? {
        assert timelines[index].Unknown?;
        return Err(UnknownTypeError);
      }
      var name := FieldNames(timelines)[index];
      KeysStep(res, names, index, schema.value);
      SchemasStep(res, names, timelines, index, schema.value);
      res := res[name := schema.value];
    }
    assert names[..|timelines|] == names;
    return Ok(res);
  }

  /** The field value under `key`, `undefined` when there is none. */
  function Lookup(values: map<string, JsValue>, key: string): JsValue
  {
    if key in values then values[key] else JsUndefined
  }

  /** The type tag of a descriptor: the key of its tagged value. */
  function TypeName(item: TimelineItem): string
  {
    match item
    case FloatItem(_, _, _) => "Float"
    case IntegerItem(_, _, _) => "Integer"
    case EnumItem(_, _) => "Enum"
    case DatetimeItem(_) => "Datetime"
    case Unknown(name) => name
  }

  function Tag(v: TaggedValue): string
  {
    match v
    case Float(_) => "Float"
    case Integer(_) => "Integer"
    case Enum(_) => "Enum"
    case Datetime(_) => "Datetime"
  }

  function Payload(v: TaggedValue): JsValue
  {
    match v
    case Float(x) => x
    case Integer(x) => x
    case Enum(x) => x
    case Datetime(x) => x
  }

  /** A tag and a payload fix a tagged value. */
  lemma TagAndPayloadDetermine(a: TaggedValue, b: TaggedValue)
    ensures Tag(a) == Tag(b) && Payload(a) == Payload(b) ==> a == b
  {
  }

  /** The `switch` in the `map` of `handleSubmit`, for a known descriptor. */
  function TagValue(item: TimelineItem, value: JsValue): TaggedValue
    requires !item.Unknown?
  {
    match item
    case DatetimeItem(_) => Datetime(value)
    case IntegerItem(_, _, _) => Integer(value)
    case FloatItem(_, _, _) => Float(value)
    case EnumItem(_, _) => Enum(value)
  }

  /**
   * The `map` in `handleSubmit`: value `i` is tagged with the type of
   * descriptor `i` and carries the form value named after `i`; an unknown
   * descriptor throws.
   */
  function TagValues(timelines: seq<TimelineItem>, values: map<string, JsValue>): (r: Result<seq<TaggedValue>, string>)
    ensures r.Ok? <==> AllKnown(timelines)
    ensures r.Err? ==> r.error == UnknownTypeError
    ensures r.Ok? ==> |r.value| == |timelines|
    ensures r.Ok? ==> forall i :: 0 <= i < |timelines| ==>
      Tag(r.value[i]) == TypeName(timelines[i]) && Payload(r.value[i]) == Lookup(values, DecimalString(i))
  {
    if !AllKnown(timelines) then Err(UnknownTypeError)
    else Ok(seq(|timelines|, i requires 0 <= i < |timelines| && !timelines[i].Unknown? =>
      TagValue(timelines[i], Lookup(values, DecimalString(i)))))
  }

  /** `submitTypeRef.current`. */
  datatype SubmitType = Train | Predict

  /** The callback a submit calls, with the values it passes. */
  datatype Submission = CallTrain(trainValues: seq<TaggedValue>) | CallPredict(predictValues: seq<TaggedValue>)

  class Form {
    const timelines: seq<TimelineItem>
    var submitType: SubmitType

    /** The intent starts as "train". */
    constructor(timelines: seq<TimelineItem>)
      ensures this.timelines == timelines
      ensures submitType == Train
    {
      this.timelines := timelines;
      submitType := Train;
    }

    /**
     * `handleSubmit`: tags the values, then calls exactly one callback,
     * chosen by the intent at that moment; when tagging throws, neither is
     * called.
     */
    method HandleSubmit(values: map<string, JsValue>) returns (r: Result<Submission, string>)
      ensures TagValues(timelines, values).Err? ==> r == Err(UnknownTypeError)
      ensures TagValues(timelines, values).Ok? && submitType == Predict ==>
        r == Ok(CallPredict(TagValues(timelines, values).value))
      ensures TagValues(timelines, values).Ok? && submitType == Train ==>
        r == Ok(CallTrain(TagValues(timelines, values).value))
    {
      var timelineValues := TagValues(timelines, values);
      if timelineValues.Err? {
        return Err(timelineValues.error);
      }
      match submitType
      case Predict =>
        r := Ok(CallPredict(timelineValues.value));
      case Train =>
        r := Ok(CallTrain(timelineValues.value));
    }

    /** The Train button: the intent becomes "train", then the form is submitted. */
    method ClickTrain(values: map<string, JsValue>) returns (r: Result<Submission, string>)
      modifies this
      ensures submitType == Train
      ensures TagValues(timelines, values).Ok? ==> r == Ok(CallTrain(TagValues(timelines, values).value))
      ensures TagValues(timelines, values).Err? ==> r == Err(UnknownTypeError)
    {
      submitType := Train;
      r := HandleSubmit(values);
    }

    /** The Predict button: the intent becomes "predict", then the form is submitted. */
    method ClickPredict(values: map<string, JsValue>) returns (r: Result<Submission, string>)
      modifies this
      ensures submitType == Predict
      ensures TagValues(timelines, values).Ok? ==> r == Ok(CallPredict(TagValues(timelines, values).value))
      ensures TagValues(timelines, values).Err? ==> r == Err(UnknownTypeError)
    {
      submitType := Predict;
      r := HandleSubmit(values);
    }
  }
}
