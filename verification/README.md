# A Dafny model of the rnn data path

This project models the parts of the `rnn` repository that turn data into
bit vectors for the network and back again. It covers:

- **The bit codec.**
  - `number_to_bits` encodes a number most-significant bit first and saturates above `max`.
  - `bits_to_number` decodes it.
  - The console tool's `number_to_bytes` is the same encoder without saturation.
- **The timelines.**
  - The enum, integer and datetime timeline items.
  - The complex timeline, which concatenates the items' encodings and slices them apart again.
- **The training streams.**
  - The CSV value stream and the CSV datetime stream.
  - The complex stream, which moves every stream to the earliest next date.
  - `train_network`, which pushes the complex stream's values through a data layer until every stream is finished.
- **The neuron helpers.**
  - `recount_refract_intervals`.
  - The boustrophedon field walk of `spiral` (`get_next_field`, `get_last_field`).
- **The terminal viewer.** The `App` state of `console_ui` and `take_event`, its key-event state machine.
- **The web UI.**
  - The `Form`, which builds one required field per configured timeline and tags the submitted values with their timeline types.
  - The `App`, which posts the tagged values and keeps the last prediction.

## How the model is built

Each source file keeps its own form:

- **Pure code** becomes functions and lemmas. This covers the codec, the timelines, `recount_refract_intervals`, `spiral`, the `take_event` state machine and the form's value tagging.
- **Loops** become methods that are proved against those functions: `NumberToBitsLoop`, `BitsToNumberLoop`, `NumberToBytes`, the complex timeline's `GetBits` and `Reverse`, and `BuildSchemas`.
- **Objects whose fields change** become classes with `modifies` clauses. This covers `CsvStream`, `CsvDateTimeStream`, `ComplexStream`, `DataLayer`, the console `App`, the web `Form` and the web `App`.
- **`train_network`** is proved against `Run`, the same loop on the streams' states taken as values (`StreamState`, whose `step` is `StepStates`). `Reaches` follows that loop one iteration at a time. `TrainLoop` is the `while` loop and `Iterate` is one pass of its body; both keep `Reaches` from the starting states, and `TrainNetwork` turns it into `Run` through the lemmas `RunEnds` and `RunStops`.

Conventions used throughout:

- **Panics.** A Rust panic (`unwrap` on `None`, `panic!`, an out-of-range slice) is an `Option` result that is `None`.
- **Closures.** The closures of the source become fields holding Dafny functions: `to_number`, `to_option`, `get_multiplier` and `data_to_binary`.
- **Dates.** A date is an integer timestamp.
- **chrono.** `parse_from_str` and `format` of chrono are function parameters (the `Chrono` datatype). The calendar checks of `from_ymd_opt` and `and_hms_opt` are written out.
- **Floats.**
  - An `f32` that is only carried (the CSV values) is kept as its bit pattern.
  - An `f32` that is computed with (the integer timeline's multiplier) is a `real`.
- **The network** is seen through the data layer's `push_data_binary`. The `Network` class is a stand-in: it records, in order, every bit vector pushed into it, and holds the layer dimensions the viewer reads.
- **The CSV reader** is the finite sequence of records it would yield. Each record is a deserialisation error or a row whose date may not parse. The shared cursor logic is in `CsvCursors`.
- **Aliasing.** `train_network` is modelled with a requires: the data layer and its network are not among the streams' objects. In the source the network sits behind `Rc<RefCell<…>>` and the streams behind `Box<dyn TrainingStream>`.
- **`usize` underflow.**
  - `spiral` and the viewer's `right`/`down` compute `width - 1` and `height - 1` in `usize`. Those members require non-zero dimensions, so the underflow never happens.
  - The datetime timeline's `date.year() as usize - 1900` wraps, and the model writes the wrap out (`YearNumber`): a year before 1900 saturates the year field.

Where the code and its documentation or tests disagree, the model follows the code:

- The datetime stream's test (`csv_datetime_stream.rs:199-205`) expects the value `"2024-05-04 23:30:00"` after `set_date(23:30)`. The code does not move the current date while the next date (00:00) is still later than 23:30, so the value stays at 23:00. `CsvCursors.TestSequence` states what the code does: `SetDate(…, 30)` leaves the cursor unchanged.
- The datetime timeline's `reverse` hands the decoded year, which counts from 1900, straight to `from_ymd_opt` without adding 1900 back. `DatetimeTimelines.RoundTrip` therefore states that a date comes back 1900 years earlier, with its minute rounded down to a multiple of four inside 0..12. It comes back as `""` when that earlier day does not exist (`LeapDayDecodesEmpty`: 29 February 2000 becomes 29 February 100, which is not a leap day).
- The `ComplexTimelineValue` enum in `timeline_helpers/src/structures.rs` has no `Datetime` variant, although the datetime timeline and the datetime stream build one. The model's `ComplexTimelineValue` has the variant.

## Model

| member | source | states |
|---|---|---|
| NumberEncoding.NumberToBits | timeline_helpers/src/number_to_bits.rs:1-19 | the encoding is exactly `capacity` bits long, and a number above `max` saturates to all ones |
| NumberEncoding.NumberToBitsLoop | timeline_helpers/src/number_to_bits.rs:1-19 | the push-low-bit-then-halve loop, followed by the reversal, computes `NumberToBits`: the low `capacity` bits, most significant first, or all ones above `max` |
| NumberEncoding.NumberToBytes | console_app/src/main.rs:5-19 | the same loop without the saturation check yields the low `capacity` bits of the number, most significant first |
| NumberEncoding.BytesAgreeWithBits | console_app/src/main.rs:5-19 | for a number not above `max`, `number_to_bytes` and `number_to_bits` give the same bits |
| NumberEncoding.NumberToBitsFitsExamples | timeline_helpers/src/number_to_bits.rs:26-47 | the test vectors 0, 2, 9, 30 and 31 in five bits with maximum 31 |
| NumberEncoding.NumberToBitsOverflowExamples | timeline_helpers/src/number_to_bits.rs:50-59 | 32 and 100 saturate to five ones |
| NumberDecoding.BitsToNumber | timeline_helpers/src/bits_to_number.rs:15-27 | the decoded number is below 2 to the number of bits |
| NumberDecoding.BitsToNumberLoop | timeline_helpers/src/bits_to_number.rs:15-27 | the shift-and-add loop computes `BitsToNumber`, most significant bit first |
| NumberDecoding.BitsToNumberPush | timeline_helpers/src/bits_to_number.rs:18-24 | no bits decode to 0, and one more bit doubles the number and adds the bit |
| NumberDecoding.DecodeBinary | timeline_helpers/src/bits_to_number.rs:15-27 | decoding the low `width` bits of `n` gives `n` modulo 2^width |
| NumberDecoding.BinaryOfDecoded | timeline_helpers/src/bits_to_number.rs:15-27 | re-encoding a decoded bit vector in as many bits gives the same vector |
| NumberDecoding.EncodedValue | timeline_helpers/src/number_to_bits.rs:1-19 | a number not above `max` decodes back modulo 2^capacity |
| NumberDecoding.DecodeEncode | timeline_helpers/src/number_to_bits.rs:1-19 | a number not above `max` that fits the capacity decodes back to itself |
| NumberDecoding.EncodeDecode | timeline_helpers/src/bits_to_number.rs:15-27 | any bit vector decodes to a number that encodes back to it when `max` admits every vector of that length |
| NumberDecoding.MaxEncodesAllTrue | timeline_helpers/src/number_to_bits.rs:1-19 | 2^capacity - 1 encodes to all ones |
| NumberDecoding.AllTrueIsMax | timeline_helpers/src/bits_to_number.rs:15-27 | all ones decode to 2^capacity - 1, so a saturated encoding decodes to the largest number |
| NumberDecoding.BitsToNumberExamples | timeline_helpers/src/bits_to_number.rs:6-12 | the test vectors decode to 0, 2, 9, 30 and 31 |
| TimelineValues.PushAll | timeline_helpers/src/complex_timeline.rs:20-22 | pushing the bits one by one appends them to the result |
| ComplexTimelines.GetBits | timeline_helpers/src/complex_timeline.rs:12-26 | the loop computes `EncodeAll`: the items' encodings concatenated in order; it panics when there are more values than items or an item rejects its value |
| ComplexTimelines.Reverse | timeline_helpers/src/complex_timeline.rs:28-47 | the loop computes `DecodeAll`: each item decodes its own `capacity` bits at the running offset, in order; it panics when the bits run out |
| ComplexTimelines.EncodeAllSome | timeline_helpers/src/complex_timeline.rs:12-26 | encoding succeeds exactly when there are no more values than items and every item accepts its value |
| ComplexTimelines.EncodeAllLength | timeline_helpers/src/complex_timeline.rs:12-26 | a successful encoding is as long as the capacities of the items used |
| ComplexTimelines.DecodeAllSome | timeline_helpers/src/complex_timeline.rs:28-47 | decoding succeeds exactly when the bits cover the total capacity, and then gives one value per item |
| ComplexTimelines.DecodeIgnoresTail | timeline_helpers/src/complex_timeline.rs:28-47 | bits beyond the total capacity do not change the decoding |
| ComplexTimelines.RoundTrip | timeline_helpers/src/complex_timeline.rs:12-47 | decoding the encoding of one value per item gives, item by item, what that item decodes from its own encoding of its value |
| EnumTimelines.New | timeline_helpers/src/enum_timeline.rs:15-22 | the largest normalised value is 2^capacity - 1 and the parameters are kept |
| EnumTimelines.GetBits | timeline_helpers/src/enum_timeline.rs:26-34 | an enum value encodes to `capacity` bits; any other value panics |
| EnumTimelines.Reverse | timeline_helpers/src/enum_timeline.rs:36-40 | decoding always names an enum option |
| EnumTimelines.RoundTrip | timeline_helpers/src/enum_timeline.rs:26-40 | an option whose number fits the capacity decodes to `to_option(to_number(option))` |
| EnumTimelines.Saturates | timeline_helpers/src/enum_timeline.rs:26-40 | an option whose number does not fit encodes to all ones, which decode to the option of 2^capacity - 1 |
| EnumTimelines.GetCapacity | timeline_helpers/src/enum_timeline.rs:42-44 | the capacity is the length of every encoding the item produces |
| EnumTimelines.AsTimeline | timeline_helpers/src/enum_timeline.rs:25-45 | as a complex timeline item: capacity `capacity`, an encoding exactly for enum values and always `capacity` bits long, and a decoding of every bit vector to an enum value |
| EnumTimelines.EnumEncodeExamples | timeline_helpers/src/enum_timeline.rs:52-101 | the test options "one", "five" and "zero" encode in three bits as the test expects |
| EnumTimelines.EnumDecodeExamples | timeline_helpers/src/enum_timeline.rs:105-161 | the test bit vectors decode to "three", "four" and "zero" |
| IntegerTimelines.New | timeline_helpers/src/integer_timeline.rs:114-123 | the largest normalised value is 2^capacity - 1, the range is `max - min`, and the parameters are kept |
| IntegerTimelines.GetMultiplier | timeline_helpers/src/integer_timeline.rs:125-131 | a configured multiplier function is used as it is; otherwise the value's place in the range, between 0 and 1, or no number when the range is empty (0/0) |
| IntegerTimelines.RoundToUsize | timeline_helpers/src/integer_timeline.rs:136 | rounding to the nearest integer, with the cast to `usize` sending negatives to 0 |
| IntegerTimelines.NormalizeValue | timeline_helpers/src/integer_timeline.rs:133-137 | the scaled multiplier rounded to the nearest integer (within one half); 0 for a NaN multiplier or a scaled value that is not positive |
| IntegerTimelines.GetBits | timeline_helpers/src/integer_timeline.rs:139-155 | `capacity` bits; all ones above the maximum, all zeros below the minimum, and the encoding of the normalised value in between |
| IntegerTimelines.NormalizeAtMost | timeline_helpers/src/integer_timeline.rs:133-137 | with the linear multiplier the normalised value never exceeds 2^capacity - 1 |
| IntegerTimelines.LinearNormalizeFits | timeline_helpers/src/integer_timeline.rs:133-155 | with the linear multiplier an in-range value's bits decode back to its normalised value |
| IntegerTimelines.LinearExamples | timeline_helpers/src/integer_timeline.rs:8-56 | the linear test cases: 16, 39 and 106 normalise to 2, 9 and 30; 5 and 115 clamp; 39 encodes as in the test |
| IntegerTimelines.ParabolicExamples | timeline_helpers/src/integer_timeline.rs:59-97 | the parabolic test cases: 100, 39 and 77 normalise to 25, 3 and 14 |
| DatetimeTimelines.GetDateFormat | timeline_helpers/src/datetime_timeline.rs:28-33 | the configured format, or the default one |
| DatetimeTimelines.YearNumberFrom1900 | timeline_helpers/src/datetime_timeline.rs:51 | for a year from 1900 to 2155 the wrapped `usize` year number is the year minus 1900 |
| DatetimeTimelines.EncodeDate | timeline_helpers/src/datetime_timeline.rs:49-71 | the five push loops build the 24-bit packing of year, month, day, hour and quarter of the minute |
| DatetimeTimelines.GetBits | timeline_helpers/src/datetime_timeline.rs:41-78 | a datetime value encodes to 24 bits, 24 falses when its text does not parse; any other value panics |
| DatetimeTimelines.DateBitsSlices | timeline_helpers/src/datetime_timeline.rs:51-69 | the slices 0..8, 8..12, 12..17, 17..22 and 22..24 of the packing are the five fields' encodings |
| DatetimeTimelines.YearSegmentValue | timeline_helpers/src/datetime_timeline.rs:51-53 | a year from 1900 to 2155 decodes from its eight bits as the year minus 1900 |
| DatetimeTimelines.SegmentValues | timeline_helpers/src/datetime_timeline.rs:51-69 | for a valid date from 1900 on, each of the five slices decodes to its field (the minute divided by four, modulo 4) |
| DatetimeTimelines.YearBefore1900 | timeline_helpers/src/datetime_timeline.rs:51-53 | a year before 1900 wraps to a huge `usize` and saturates the year field to eight ones |
| DatetimeTimelines.Reverse | timeline_helpers/src/datetime_timeline.rs:80-104 | fewer than 24 bits panic; otherwise the clamped fields are formatted as a date whose year is the decoded number as it is, and a day that does not exist gives "" |
| DatetimeTimelines.GetCapacity | timeline_helpers/src/datetime_timeline.rs:106-108 | the capacity, 24, is the length of every encoding the item produces |
| DatetimeTimelines.AsTimeline | timeline_helpers/src/datetime_timeline.rs:40-109 | as a complex timeline item: capacity 24, an encoding exactly for datetime values and always 24 bits long, and a decoding exactly of bit vectors of at least 24 bits |
| DatetimeTimelines.RoundTrip | timeline_helpers/src/datetime_timeline.rs:41-104 | a parsed date from 1900 to 2155 comes back 1900 years earlier, at its hour, with the minute rounded down to 0, 4, 8 or 12 and second 0, or as "" when that earlier day does not exist |
| DatetimeTimelines.DateRoundTrip | timeline_helpers/src/datetime_timeline.rs:51-104 | the same round trip for the packed date itself |
| DatetimeTimelines.LeapDayDecodesEmpty | timeline_helpers/src/datetime_timeline.rs:89-93 | 29 February 2000 decodes to "", because year 100 has no 29 February |
| CsvCursors.Open | data_streams/src/training/csv_stream.rs:43-98 | an error exactly when the first record fails to deserialise, or the second does after a first date that parses; otherwise the stream starts on the first record whose date parses, with the second as next when its date parses too |
| CsvCursors.Step | data_streams/src/training/csv_stream.rs:100-123 | a finished stream does not move; otherwise the next date and value become current and the next record is read; a record that fails to deserialise keeps the old next date, and an unparsable date or the end of the file finishes the stream |
| CsvCursors.StepProgress | data_streams/src/training/csv_stream.rs:100-123 | every step of an unfinished stream consumes progress, so `set_date`'s loop terminates |
| CsvCursors.Advance | data_streams/src/training/csv_stream.rs:150-152 | the `while` loop of `set_date` keeps the cursor valid |
| CsvCursors.SetDate | data_streams/src/training/csv_stream.rs:146-154 | `set_date` keeps the cursor valid |
| CsvCursors.AdvanceLands | data_streams/src/training/csv_stream.rs:125-154 | after the loop the next date is after `date` or there is none; a stream that moved is on a current date not after `date`; progress never grows and drops when it moved |
| CsvCursors.SetDateLands | data_streams/src/training/csv_stream.rs:146-154 | the same for `set_date`, and a finished stream is left as it is |
| CsvCursors.FinishedIsStationary | data_streams/src/training/csv_stream.rs:100-158 | neither `step` nor `set_date` changes a finished stream |
| CsvCursors.TestSequence | data_streams/src/training/csv_stream.rs:166-240 | on the three test rows the stream opens on the first with the second next; setting 23:30 keeps it there, 00:00 moves to the second row, and 01:00 moves to the last and finishes |
| CsvStreams.CsvStream.FromCursor | data_streams/src/training/csv_stream.rs:25-31 | a stream holds its records and the cursor it is given |
| CsvStreams.CsvStream.New | data_streams/src/training/csv_stream.rs:43-98 | construction fails exactly when `Open` does, and otherwise starts on `Open`'s cursor |
| CsvStreams.CsvStream.Step | data_streams/src/training/csv_stream.rs:100-123 | the new cursor is `CsvCursors.Step` of the old one |
| CsvStreams.CsvStream.SetDate | data_streams/src/training/csv_stream.rs:146-154 | the new cursor is `CsvCursors.SetDate` of the old one |
| CsvStreams.CsvStream.IsFinish | data_streams/src/training/csv_stream.rs:156-158 | finished exactly when there is no next date |
| CsvStreams.CsvStream.IsDateInInterval | data_streams/src/training/csv_stream.rs:125-130 | true exactly when the stream is finished or its next date is after `date` |
| CsvStreams.CsvStream.GetValue | data_streams/src/training/csv_stream.rs:134-136 | the current value as a float value |
| CsvDateTimeStreams.CsvDateTimeStream.FromCursor | data_streams/src/training/csv_datetime_stream.rs:24-28 | a stream holds its records and the cursor it is given |
| CsvDateTimeStreams.CsvDateTimeStream.New | data_streams/src/training/csv_datetime_stream.rs:44-91 | construction fails exactly when `Open` does, and otherwise starts on `Open`'s cursor |
| CsvDateTimeStreams.CsvDateTimeStream.Step | data_streams/src/training/csv_datetime_stream.rs:93-114 | the new cursor is `CsvCursors.Step` of the old one |
| CsvDateTimeStreams.CsvDateTimeStream.SetDate | data_streams/src/training/csv_datetime_stream.rs:141-149 | the new cursor is `CsvCursors.SetDate` of the old one |
| CsvDateTimeStreams.CsvDateTimeStream.IsFinish | data_streams/src/training/csv_datetime_stream.rs:151-153 | finished exactly when there is no next date |
| CsvDateTimeStreams.CsvDateTimeStream.IsDateInInterval | data_streams/src/training/csv_datetime_stream.rs:116-121 | true exactly when the stream is finished or its next date is after `date` |
| CsvDateTimeStreams.CsvDateTimeStream.GetValue | data_streams/src/training/csv_datetime_stream.rs:125-131 | the current date formatted with the default format; a panic exactly when there is no current date |
| CsvDateTimeStreams.UnfinishedHasValue | data_streams/src/training/csv_datetime_stream.rs:125-131 | an unfinished stream has a current date, so `get_value` does not panic |
| ComplexStreams.SetStreamDate | data_streams/src/training/structures.rs:14-24 | `set_date` through the trait object: the stream's own `set_date`, after which it is finished or its next date is after `date`, and its progress does not grow |
| ComplexStreams.ValuesOf | data_streams/src/training/complex_stream.rs:15-25 | one value per stream, in order; a panic exactly when some stream panics |
| ComplexStreams.NextDatesOf | data_streams/src/training/complex_stream.rs:40-41 | one next date per stream, in order |
| ComplexStreams.MinOfIsMinimum | data_streams/src/training/complex_stream.rs:37-57 | the running minimum is none exactly when no stream has a next date, and otherwise is one of the next dates and not above any of them |
| ComplexStreams.MinAttained | data_streams/src/training/complex_stream.rs:37-57 | some stream has the minimal next date |
| ComplexStreams.StateSetDateProgress | data_streams/src/training/csv_stream.rs:146-154 | on a stream's state, `set_date` never raises the progress measure and lowers it when the next date was not after `date` |
| ComplexStreams.StepStates | data_streams/src/training/complex_stream.rs:59-67 | `step` on the streams' states: unchanged with no next date, otherwise every state set to the earliest next date; all states stay valid |
| ComplexStreams.StepStatesProgress | data_streams/src/training/complex_stream.rs:59-67 | `step` never raises the total progress measure, and lowers it unless every stream is finished |
| ComplexStreams.StatesOf | data_streams/src/training/complex_stream.rs:6-8 | one state per stream, in order, each the stream's records and cursor |
| ComplexStreams.NextDatesAgree | data_streams/src/training/complex_stream.rs:37-57 | the streams' next dates are those of their states |
| ComplexStreams.ValuesAgree | data_streams/src/training/complex_stream.rs:15-25 | `get_value` of the streams is the values of their states |
| ComplexStreams.FinishedAgree | data_streams/src/training/complex_stream.rs:27-35 | the streams are all finished exactly when their states are |
| ComplexStreams.FinishedStates | data_streams/src/training/complex_stream.rs:27-35 | streams that are all finished have states that are all finished |
| ComplexStreams.ProgressesAgree | data_streams/src/training/complex_stream.rs:6-8 | the streams' states are valid and their progress measures are the streams' own |
| ComplexStreams.StepStatesOf | data_streams/src/training/complex_stream.rs:59-67 | `StepStates` of the streams' states sets them to the minimum of the streams' own next dates |
| ComplexStreams.ComplexStream.constructor | data_streams/src/training/complex_stream.rs:11-13 | the stream holds the given streams |
| ComplexStreams.ComplexStream.GetValue | data_streams/src/training/complex_stream.rs:15-25 | the loop collects `ValuesOf` the streams |
| ComplexStreams.ComplexStream.IsFinish | data_streams/src/training/complex_stream.rs:27-35 | finished exactly when every stream is finished |
| ComplexStreams.ComplexStream.GetMinNextDate | data_streams/src/training/complex_stream.rs:37-57 | the loop computes the minimum of the streams' next dates |
| ComplexStreams.ComplexStream.SetEach | data_streams/src/training/complex_stream.rs:63-65 | every stream has its own `set_date` applied once, its new state being `set_date` of its old one, and lands after `date` or finished |
| ComplexStreams.ComplexStream.SetAllDates | data_streams/src/training/complex_stream.rs:62-66 | the same; the new states are `SetDateAll` of the old ones; the total progress does not grow, dropping when some stream's next date was `date` |
| ComplexStreams.ComplexStream.Step | data_streams/src/training/complex_stream.rs:59-67 | with no next date nothing changes; otherwise every stream is set to the minimum next date; the new states are `StepStates` of the old ones; the total progress drops whenever some stream is unfinished |
| TrainNetworks.Run | data_streams/src/training/train_network.rs:10-16 | the loop on the streams' states: the value vectors read, one per iteration until every stream is finished, and whether `get_value` panics first |
| TrainNetworks.RunLength | data_streams/src/training/train_network.rs:10-16 | the loop reads at most one value vector per unit of progress, and none when every stream starts finished |
| TrainNetworks.RunOfFinished | data_streams/src/training/train_network.rs:10 | with every stream finished the loop reads nothing and does not panic |
| TrainNetworks.ReachesSnoc | data_streams/src/training/train_network.rs:10-16 | after arriving at unfinished states whose values are read, one more iteration reads them and arrives at their `StepStates` |
| TrainNetworks.ReachesRun | data_streams/src/training/train_network.rs:10-16 | what `Run` reads from the starting states is the value vectors read on the way to any states it arrives at, followed by what `Run` reads from there, with the same panic |
| TrainNetworks.RunEnds | data_streams/src/training/train_network.rs:10-16 | arriving at states that are all finished, `Run` has read exactly the value vectors so far, without a panic, at most one per unit of progress |
| TrainNetworks.RunStops | data_streams/src/training/train_network.rs:10-16 | arriving at unfinished states whose `get_value` panics, `Run` has read exactly the value vectors so far and panics, at most one per unit of progress |
| TrainNetworks.PushAndStep | data_streams/src/training/train_network.rs:11-15 | one iteration pushes the read values' bits when their conversion succeeds and steps the stream: its new states are `StepStates` of the old ones, and its progress drops |
| TrainNetworks.Iterate | data_streams/src/training/train_network.rs:11-15 | one iteration: on a panic nothing changes and the states panic; otherwise the values read extend the run from the starting states, their bits extend the pushes, and the progress drops |
| TrainNetworks.TrainLoop | data_streams/src/training/train_network.rs:10-16 | the loop from the starting states reads exactly the value vectors whose bits are pushed and arrives at states that are all finished on `Ok` and that panic on `Err` |
| TrainNetworks.TrainNetwork | data_streams/src/training/train_network.rs:6-17 | the value vectors read are exactly those of `Run` on the streams' starting states, and the loop panics exactly when `Run` does; the network receives exactly their converted bits, in order; at most one iteration per unit of progress; on `Ok` every stream is finished; a stream finished from the start pushes nothing and returns `Ok` |
| DataLayers.Network.PushDataBinary | rnn_core/src/data_layer.rs:32 | a pushed bit vector is appended to the network's log |
| DataLayers.DataLayer.constructor | rnn_core/src/data_layer.rs:16-18 | the layer holds its parameters and network |
| DataLayers.DataLayer.GetNetwork | rnn_core/src/data_layer.rs:20-22 | the shared network itself |
| DataLayers.DataLayer.ReplaceNetwork | rnn_core/src/data_layer.rs:24-26 | the layer uses the new network from then on |
| DataLayers.DataLayer.PushData | rnn_core/src/data_layer.rs:28-34 | a successful conversion pushes its bits into the network; a failed one pushes nothing |
| RefractIntervals.RecountRefractIntervals | rnn_core/src/recount_refract_intervals.rs:3-23 | one interval per zipped pair, as long as the shorter input, each recounted on its own |
| RefractIntervals.RecountEffect | rnn_core/src/recount_refract_intervals.rs:11-21 | a neuron above 0.5 resets its interval to the initial one; otherwise a positive interval drops by one and zero stays zero; no interval exceeds the larger of the initial and the old one |
| RefractIntervals.RecountIsPointwise | rnn_core/src/recount_refract_intervals.rs:8-22 | each result depends only on its own neuron and interval |
| RefractIntervals.QuietTicksCountDown | rnn_core/src/recount_refract_intervals.rs:16-20 | with every neuron at most 0.5, `k` recounts lower each interval by `k`, stopping at 0 |
| RefractIntervals.RecountExamples | rnn_core/src/recount_refract_intervals.rs:3-23 | a concrete recount, including the zip truncation |
| Spiral.GetNextField | rnn_core/src/spiral/mod.rs:3-45 | the next field of a field in the layer is in the layer |
| Spiral.RankInRange | rnn_core/src/spiral/mod.rs:3-45 | every field has a position in the walk among the first `width * height` |
| Spiral.FieldAtRank | rnn_core/src/spiral/mod.rs:3-45 | no two fields share a position, so one round of the walk visits every field once |
| Spiral.NextFieldIsSuccessor | rnn_core/src/spiral/mod.rs:3-45 | the next field is the one at the next position of the boustrophedon, and the last field is followed by (0, 0) |
| Spiral.SpiralExamples | rnn_core/src/spiral/mod.rs:3-45 | concrete steps on 3x2 and 3x3 layers |
| Spiral.GetLastField | rnn_core/src/spiral/mod.rs:47-56 | as written: the row is the last one; x is 0 on an even number of rows and `height - 1` on an odd number |
| Spiral.GetLastFieldIsNotLast | rnn_core/src/spiral/mod.rs:47-56 | on a one-row layer two fields wide, `get_last_field` gives (0, 0), whose successor is (1, 0) and not the start |
| Spiral.LastField | rnn_core/src/spiral/mod.rs:47-56 | the corrected last field is in the layer |
| Spiral.LastFieldIsLast | rnn_core/src/spiral/mod.rs:47-56 | the corrected last field is at the last position and is followed by (0, 0); on a square layer `get_last_field` agrees with it |
| ConsoleUi.BufferBits | console_ui/src/app.rs:46-55 | one bit per buffer character: off for '0', '.' and '-', on for anything else |
| ConsoleUi.App.constructor | console_ui/src/app.rs:30-39 | empty buffer, neurons screen, first layer, cursor at (0, 0) |
| ConsoleUi.App.GetNetwork | console_ui/src/app.rs:41-43 | the shared network itself |
| ConsoleUi.App.TickBuffer | console_ui/src/app.rs:45-60 | the buffer's bits are pushed into the network and the buffer is emptied; nothing else changes |
| ConsoleUi.App.Left | console_ui/src/app.rs:62-66 | x drops by one unless it is 0 |
| ConsoleUi.App.Right | console_ui/src/app.rs:68-74 | x grows by one unless it is in the last column |
| ConsoleUi.App.Up | console_ui/src/app.rs:76-80 | y drops by one unless it is 0 |
| ConsoleUi.App.Down | console_ui/src/app.rs:82-88 | y grows by one unless it is in the last row |
| ConsoleUi.App.TakeEvent | console_ui/src/take_event.rs:5-68 | the new state and the quit flag are those of the event's branch of `AfterEvent` |
| ConsoleUi.QuitsOnlyOnQ | console_ui/src/take_event.rs:7-15 | the viewer quits exactly on a pressed 'q', and quitting changes nothing |
| ConsoleUi.IgnoredEvents | console_ui/src/take_event.rs:5-68 | releases, non-key events and unlisted keys change nothing |
| ConsoleUi.TabTwice | console_ui/src/take_event.rs:40-45 | Tab switches the layer, and Tab twice restores the state |
| ConsoleUi.CursorStaysInside | console_ui/src/app.rs:62-88 | no event moves the cursor out of the layer |
| ConsoleUi.ArrowsMoveOneStep | console_ui/src/take_event.rs:46-62 | only the arrow keys move the cursor, and only by one step along their axis |
| ConsoleUi.EventKeepsTypedBuffer | console_ui/src/take_event.rs:25-36 | typing keeps the buffer made of '+' and '-'; the network log changes only on Enter, by the buffer's bits, after which the buffer is empty |
| ConsoleUi.KeysBecomeBits | console_ui/src/take_event.rs:28-33 | '+' and '1' add an on bit to the buffer; '.', '0' and '-' add an off bit |
| WebTypes.DecimalString | webui/src/Form.tsx:59 | `String(index)` is a non-empty string of decimal digits |
| WebTypes.DecimalRoundTrip | webui/src/Form.tsx:59 | the digits of `String(n)` read back as `n` |
| WebTypes.DecimalStringInjective | webui/src/Form.tsx:59 | different indices have different names |
| WebForm.SchemaForMeaning | webui/src/Form.tsx:11-57 | a descriptor of an unknown type throws; every known one gets a required field labelled `#<index + 1> <type>`, whose widget is fixed by the type, and a select offers the configured options unchanged |
| WebForm.LabelRoundTrip | webui/src/Form.tsx:11-57 | the number in a field's label is its index plus one |
| WebForm.LabelsDistinct | webui/src/Form.tsx:11-57 | fields at different indices have different labels |
| WebForm.FieldNames | webui/src/Form.tsx:59 | one name per timeline; name `i` is `String(i)` |
| WebForm.FieldNamesDistinct | webui/src/Form.tsx:59 | the field names are pairwise different |
| WebForm.FieldNamesReadBack | webui/src/Form.tsx:59 | the name of field `i` reads back as `i` |
| WebForm.BuildSchemas | webui/src/Form.tsx:11-57 | the `reduce` throws exactly when some descriptor has an unknown type; otherwise its keys are exactly the field names, and each holds the schema of its own descriptor |
| WebForm.TagAndPayloadDetermine | webui/src/types.ts:28-40 | a tagged value is determined by its tag and its payload |
| WebForm.TagValues | webui/src/Form.tsx:71-98 | the tagging throws exactly when some descriptor has an unknown type; otherwise it gives one value per timeline, tagged with that timeline's type and carrying the form value under its index |
| WebForm.Form.constructor | webui/src/Form.tsx:66-67 | the submit type starts as "train" |
| WebForm.Form.HandleSubmit | webui/src/Form.tsx:69-114 | the tagging error is passed on; otherwise the tagged values go to `onPredict` when the submit type is "predict" and to `onTrain` when it is "train" |
| WebForm.Form.ClickTrain | webui/src/Form.tsx:130-137 | the Train button sets the submit type to "train" and submits to `onTrain` |
| WebForm.Form.ClickPredict | webui/src/Form.tsx:139-146 | the Predict button sets the submit type to "predict" and submits to `onPredict` |
| WebApp.LastWriteWins | webui/src/App.tsx:7-21 | after a run of callbacks the last prediction is the response of the last successful predict, or unchanged when there was none |
| WebApp.PanelShown | webui/src/App.tsx:7-33 | after a run of callbacks there is a last prediction, so the panel is shown, exactly when there was one before or some predict succeeded |
| WebApp.App.constructor | webui/src/App.tsx:7-9 | no last prediction, nothing posted |
| WebApp.App.OnPredict | webui/src/App.tsx:11-14 | the values are posted to `<prediction server>/predict`; a response replaces the last prediction, and a rejection leaves it and is passed on |
| WebApp.App.OnTrain | webui/src/App.tsx:16-21 | the values are posted to `<training server>/push_data`; the last prediction is untouched |
| WebApp.App.Dispatch | webui/src/App.tsx:30 | the form's submission reaches the callback it names, with the effects above |
| WebApp.App.ShowsLastPrediction | webui/src/App.tsx:33-41 | the panel is shown exactly when there is a last prediction, an empty list included |

## Left out

- I/O is outside the model:
  - opening and reading the CSV files (the records are a parameter);
  - the HTTP posts (the outcome is a parameter, and the model keeps a log of the posts);
  - `event::read` (the event is a parameter);
  - all terminal rendering, and `save_state` of the console `App`.
- chrono's `parse_from_str` and `format` are function parameters. The model does not restate their formats. `ParsesValid` only requires that a parsed date is a real calendar date.
- The float timeline is not part of this model. CSV float values are carried as `f32` bit patterns and never interpreted.
- The network's layers, synapses and neurons are not part of this model. `Network` only records what is pushed into it and holds the dimensions the viewer reads.
- Concurrency is not modelled: the `Arc<RwLock<…>>` and `Rc<RefCell<…>>` sharing. The non-aliasing requires of `TrainNetworks.TrainNetwork` stands for it.
- `ComplexStream.Step` and `TrainNetwork` use the specification functions `MinOf` and `Values`. The methods `GetMinNextDate` and `GetValue` are proved to compute them.
- IntegerTimelines.RoundToUsize: `f32` rounding is modelled on reals. The model does not capture precision loss, or the saturating cast of values beyond `usize`.
- The `i32` overflow of `max_value - min_value`, and of `value - min_value` in the integer timeline, is not modelled.
- `usize` overflow of `2usize.pow(capacity)` for capacities of 64 or more is not modelled.
- NumberDecoding.BitsToNumber: the number is unbounded. The wrap of `result *= 2` (timeline_helpers/src/bits_to_number.rs:19) in a release build, once there are more than 64 bits, is not modelled; every capacity is a `u8`, but only vectors of at most 64 bits decode as the source does.
- Debug-build overflow panics are not modelled. `usize` subtraction is modelled as wrapping (a release build), and only where the source reaches it on valid input (the datetime year).
- The form library is outside the model: rendering, the `required` validation, and the select's option labels. `handleSubmit` is modelled from the point where the library calls it.
- The "Unknown submit type" error of `handleSubmit` is unreachable: the submit type is either "train" or "predict" by construction.
- The `"Last prediction"` panel's JSON rendering is outside the model. Only whether a last prediction exists is.

## Findings

| source | as written | input that shows it | evidently intended | confidence | as-written member | corrected member |
|---|---|---|---|---|---|---|
| rnn_core/src/spiral/mod.rs:47-56 | on an odd number of rows the last field's x is `layer_height - 1`, although the last row runs left to right and ends at `layer_width - 1` | `layer_width = 2`, `layer_height = 1`: it returns (0, 0), whose next field is (1, 0) | x is `layer_width - 1` on an odd number of rows, so the next field after it is (0, 0) | not executed | Spiral.GetLastFieldIsNotLast | Spiral.LastFieldIsLast |
