# COROS training plan exporter — a Dafny model of the conversion core

The exporter turns a COROS training plan into an iCalendar file. The plan can
come from the COROS plan API as JSON or from text copied from the COROS web
page. This project models the core of `convert_to_ics.py` in Dafny and proves
properties about it. The core has these parts:

- **Translation** (`translate_key`): looks a COROS dictionary key up, falls
  back to the key itself, and truncates to `max_length` characters plus
  `"..."` when `max_length` is truthy. The dictionary is a parameter.
- **ApiDecoder**: the entity loop of `scrape_from_url`. It does the following:
  - indexes the plan's programs by `idInPlan`, the last one winning;
  - turns `dayNo` into a week and a weekday;
  - skips entities that have neither an `exerciseBarChart` nor a `sport`;
  - in the bar-chart format, builds the "name: target" detail lines, the time
    and distance totals, the fallback title (the first five parts, then
    "+ N more", or "Workout"), the "Workout Structure" description, and the
    duration and distance fields;
  - in the legacy `sport` format, does the same with pace intensities and
    the sport's own totals and training load.

  The loops are methods (`DecodeEntities`, `SummarizeBarChart`,
  `CollectSportDetails`, `BuildFallbackTitle`), each proved equal to a
  specification function (`DecodeAll`, `BarChartDetails`, `TimeTotal`,
  `DistanceTotal`, `SportDetails`, `FallbackTitle`). Lemmas state the
  properties of those functions.
- **TextParser** (`parse_training_data`): the line scanner over stripped,
  non-blank lines. It covers week markers, summary lines, title detection
  (the next line is a time or a distance, or the line says "Target race
  day"), and the inner detail loop with its stop conditions and its
  classification of detail lines. The outer `while` loop is `ScanLines`,
  one turn of it `ScanLine`, and the inner loop `ReadDetails`. They are
  proved against `ParseFrom`, the outer loop written as a recursive
  function. `ParseTrainingData` is then proved equal to `ParseLines`, which
  reads one record per title position (`TitleStarts`).
- **Scheduler** (`calculate_plan_dates`): the stable sort on
  `(week, day_of_week)`. The first record is anchored to the first date on or
  after the start date with its weekday. Every record is then dated from the
  week-1 Monday, and its weekday name is attached. Dates are day ordinals;
  ordinal 1 (1 January of year 1) is a Monday, as in Python's `toordinal`.
- **Emitter** (the event loop of `create_ics_file`): dates the records when
  the first one has none. It then makes one all-day event per record: the
  title, the date, the next day, and a description built from the distance,
  duration and training-load lines plus the free text.
- **Text** and **Wrappers**: Python's `str.strip`, `split`, `join` and
  `replace`, integer formatting and parsing, and `Option`/`Result`.

Python's floor `//` and `%` agree with Dafny's Euclidean operators for the
positive divisors used here (7, 60). Python truthiness is written out: empty
strings, zero ids and `None` fields are false.

### Behaviour of the code that is easy to misread

The model follows the code in each case.

- The weekday is `dayNo % 7`, which the comment at `convert_to_ics.py:111`
  maps as 0 = Monday to 6 = Sunday. The week is `((dayNo - 1) // 7) + 1`.
  So `dayNo` 0 gives week 0, weekday 0: weeks are not always at least 1.
  And `dayNo` 7 gives week 1, weekday 0, a day that comes before `dayNo` 6
  (week 1, weekday 6). See `ApiDecoder.DayCoordinateExamples`.
- The comments at `convert_to_ics.py:139` and `convert_to_ics.py:160-161`
  say that the bar-chart branch tracks the segments other than warm-up and
  cool-down. That list is never read: the fallback title is built from
  every detail line, warm-ups included. See
  `ApiDecoder.WarmUpNamesTheWorkout`.
- In the text parser, a time line that is followed by a distance line is
  itself taken as a title. So "Week 1 / Easy Run / 00:30:00 / 3.00 km"
  gives two records: "Easy Run" with no fields, and "00:30:00" with the
  distance "3.00 km". See `TextParser.EasyRunExample`.

## Model

| member | source | states |
|---|---|---|
| Translation.TranslateKey | convert_to_ics.py:46-51 | The result is the dictionary's entry for the key, or the key itself when it has none. When `max_length` is truthy and the text is longer, the result is the first `max_length` characters plus "..."; a negative bound drops that many characters from the end. Otherwise the text is unchanged. |
| ApiDecoder.ProgramIndexIsLast | convert_to_ics.py:105 | An id is in the program index iff it is non-zero and some program has it. The program found is the last one in the list with that id. |
| ApiDecoder.DayCoordinates | convert_to_ics.py:108-111 | The weekday is in 0..6. The week and weekday point back at the day number, except that multiples of 7 land a week early. |
| ApiDecoder.DayCoordinateExamples | convert_to_ics.py:109-111 | Day numbers 0, 6, 7 and 13 give (week 0, day 0), (week 1, day 6), (week 1, day 0) and (week 2, day 6). |
| ApiDecoder.DayCoordinatesRoundTrip | convert_to_ics.py:110-111 | The day number can be recovered from its week and weekday. |
| ApiDecoder.TargetPresent | convert_to_ics.py:146-156 | A target text is non-empty iff the target type is time (2) or distance (5). |
| ApiDecoder.TimeTextReadsBack | convert_to_ics.py:151 | A time target of 60 s or more reads back as "<whole minutes>min"; a shorter one as "<seconds>s". |
| ApiDecoder.DurationReadsBack | convert_to_ics.py:198 | The duration is present iff the total is positive. Its number parses back to the total's whole minutes. |
| ApiDecoder.BarChartDetailsAreKept | convert_to_ics.py:141-159 | Every detail line comes from some exercise's "name: target" line, and every exercise with a non-empty name and target contributes its line. There are at most as many lines as exercises, and exactly as many when every exercise has a name and a target. |
| ApiDecoder.BarChartDetailsComplete | convert_to_ics.py:141-159 | Every exercise with a non-empty name and target has its "name: target" line among the details. |
| ApiDecoder.UnnamedTimeStillCounts | convert_to_ics.py:141-198 | An exercise with no name gives no detail line, but its time still counts: one unnamed 600 s exercise gives no details and the duration "10min". |
| ApiDecoder.TitlePartOfDetail | convert_to_ics.py:177 | A title part is its detail line with every ": " replaced by a space; for a name and a target without ": " it is "name target". |
| ApiDecoder.FallbackTitleCounts | convert_to_ics.py:174-184 | No details give "Workout". One to five details give their title parts joined by " + ". More than five give the first five parts plus " + N more", where N reads back as the number left out. |
| ApiDecoder.WarmUpNamesTheWorkout | convert_to_ics.py:158-184 | A warm-up is not filtered out of the fallback title: a chart holding only a 10-minute "Warm Up" is titled "Warm Up 10min". |
| ApiDecoder.StructureBlockLines | convert_to_ics.py:193 | Split on newlines, the structure block is the "Workout Structure:" heading followed by one "• " bullet per detail. |
| ApiDecoder.DescriptionsAgree | convert_to_ics.py:247-252 | The legacy description equals the bar-chart description built from the same overview and details. |
| ApiDecoder.SportDetailExtendsBarChart | convert_to_ics.py:241-245 | A legacy detail exists exactly when the bar-chart detail does. It is that detail, followed by " " and the intensity when there is one. |
| ApiDecoder.IntensityPresent | convert_to_ics.py:232-239 | An intensity is shown iff the intensity type is pace (3) and the percentage is positive. |
| ApiDecoder.SportDetailsCount | convert_to_ics.py:216-245 | The legacy detail list has as many lines as the bar-chart detail list of the same exercises. |
| ApiDecoder.SportDetailSource | convert_to_ics.py:216-245 | The n-th legacy line comes from an exercise i. It is the n-th bar-chart line, which is exercise i's, plus " " and that exercise's intensity when there is one. Exactly n lines come from the exercises before i. |
| ApiDecoder.SportDetailsComplete | convert_to_ics.py:216-245 | Every exercise with a non-empty name and target has its legacy line in the list. |
| ApiDecoder.DecodeEntityShape | convert_to_ics.py:108-266 | An entity gives a record iff it has a bar chart or a sport. The record has the week and weekday of the entity's day number, with a weekday in 0..6. A bar-chart record has no training load; its title is the program's translated name when that is non-empty, the fallback title otherwise, and never empty. A legacy record's title is the translated sport name, or "Workout" when the name is missing or empty. Its training load is present iff the load is positive, and then reads back as that load. A title is empty only for a legacy record whose name the dictionary maps to "". |
| ApiDecoder.BarChartTitlePopulated | convert_to_ics.py:170-184 | A bar-chart record's title is never empty. |
| ApiDecoder.FallbackTitleNotEmpty | convert_to_ics.py:174-184 | The fallback title is never empty when its first detail is not. |
| ApiDecoder.SportRecordFields | convert_to_ics.py:204-256 | The legacy title is the translated sport name, or "Workout" for a missing or empty name. It is empty iff the dictionary maps the name to "". The training load is present iff the load is positive, and its text parses back to the load. |
| ApiDecoder.DecodeAllAppend | convert_to_ics.py:108-266 | Decoding a concatenation decodes each part in order. |
| ApiDecoder.DecodeAllStep | convert_to_ics.py:258-266 | Each entity appends its own record, if it has one, to the records before it. |
| ApiDecoder.DecodeAllCount | convert_to_ics.py:129-131 | The number of records is the number of entities with workout data, which is at most the number of entities. |
| ApiDecoder.SummarizeBarChart | convert_to_ics.py:141-167 | The loop yields the detail lines and the time and distance totals. |
| ApiDecoder.CollectSportDetails | convert_to_ics.py:216-245 | The loop yields the legacy detail lines. |
| ApiDecoder.DescribeSportExercise | convert_to_ics.py:218-245 | One exercise gives the "name: target" line, plus the intensity after a space when there is one. It gives none when the name or the target is empty. |
| ApiDecoder.BuildFallbackTitle | convert_to_ics.py:174-184 | The loop yields the fallback title. |
| ApiDecoder.DecodeOne | convert_to_ics.py:108-266 | One pass of the entity loop yields the entity's record, or none when it is skipped. |
| ApiDecoder.DecodeBarChart | convert_to_ics.py:134-200 | The bar-chart branch yields the bar-chart record. |
| ApiDecoder.DecodeSport | convert_to_ics.py:202-256 | The legacy branch yields the sport record. |
| ApiDecoder.DecodeEntities | convert_to_ics.py:102-268 | The whole loop yields the decoded records in entity order, one per entity with workout data. |
| TextParser.NonBlank | convert_to_ics.py:274 | Every prepared line is non-empty and has no surrounding whitespace, and there are no more lines than pieces of the split. |
| TextParser.NonBlankKeepsPieces | convert_to_ics.py:274 | Every piece that is not blank once stripped is among the prepared lines, stripped. |
| TextParser.NonBlankSource | convert_to_ics.py:274 | The n-th prepared line is a stripped non-blank piece k, and exactly n lines come from the pieces before k. So the lines are the stripped non-blank pieces in their order. |
| TextParser.DropEmptyKeeps | convert_to_ics.py:274 | The `if line.strip()` filter keeps every non-empty string. |
| TextParser.DropEmptySource | convert_to_ics.py:274 | The n-th string the filter keeps is the non-empty string k, and exactly n strings before k are kept. |
| TextParser.DistanceMatchesRegex | convert_to_ics.py:310 | The distance test holds iff the line starts with digits, a dot, digits and " km". |
| TextParser.TimeIsNotDistance | convert_to_ics.py:309-310 | A line that starts like a time is never a distance. |
| TextParser.DistanceIsNotTime | convert_to_ics.py:309-310 | A line that starts like a distance is never a time. |
| TextParser.PlaceholdersTakenEarlier | convert_to_ics.py:336-343 | "0.00 km", "00:00:00" and "0 TL" are caught as distance, duration and load before the placeholder test. Only "/" is skipped. |
| TextParser.LastOfKindIsLast | convert_to_ics.py:336-341 | A detail field is None iff no line of its kind occurs. Otherwise it is the last line of that kind. |
| TextParser.TextLinesArePlain | convert_to_ics.py:340-343 | Description lines come from the detail lines. They are non-empty, not placeholders, and not time, distance or load lines. |
| TextParser.TextLineIsPlain | convert_to_ics.py:336-343 | A detail line goes into the description iff it is non-empty, not a placeholder, and not a time, distance or load line. |
| TextParser.TextLinesKeepPlain | convert_to_ics.py:336-343 | Every plain line of the detail block is among the description lines. |
| TextParser.TextLinesSource | convert_to_ics.py:336-343 | The n-th description line is a plain line j of the block, and exactly n description lines come from the lines before j. So the description lines are the block's plain lines, in order. |
| TextParser.DetailEndIsFirstStop | convert_to_ics.py:322-333 | The detail loop ends at the first week marker, summary label or line followed by a time or distance. |
| TextParser.TitleStartsAreTitles | convert_to_ics.py:304-312 | Records start only at title lines, in increasing line order. |
| TextParser.TitleStartsExactly | convert_to_ics.py:286-362 | The scan takes a line as a title iff it is a title line that does not lie inside the detail block of a title taken before it. |
| TextParser.WeekAtStable | convert_to_ics.py:289-297 | The current week changes only at week markers. |
| TextParser.ParseTrainingData | convert_to_ics.py:271-364 | The two nested loops yield one record per title position. There are never more records than lines. |
| TextParser.ScanLines | convert_to_ics.py:286-364 | The outer loop yields the records of the recursive reading of the scan from line 0 in week 0. |
| TextParser.ScanLine | convert_to_ics.py:287-362 | One turn of the outer loop moves strictly forward. What it emits, followed by the scan from where it resumes, is the scan from this line. |
| TextParser.ReadWorkout | convert_to_ics.py:313-360 | A title line's record holds the title, the current week, the last duration, distance and load of its detail block, and its description lines joined by spaces. The scan resumes where the block ends. |
| TextParser.ParseFromTitleStarts | convert_to_ics.py:286-362 | Scanning from a line, in the week in force there, yields exactly the records at the title lines found from that line on. |
| TextParser.ReadDetails | convert_to_ics.py:322-345 | The inner loop stops where the detail block ends. It yields the last duration, distance and load lines and the description lines. |
| TextParser.RecordsAreTitled | convert_to_ics.py:350-360 | Every record's title is a title line. Its week is the week in force there, and it has no weekday. |
| TextParser.RecordsInLineOrder | convert_to_ics.py:286-362 | Records come out in the order of their titles in the text. |
| TextParser.RecordDuration | convert_to_ics.py:336-337 | The duration is None iff the detail block has no time line. Otherwise it is the last time line. |
| TextParser.RecordDescription | convert_to_ics.py:342-356 | The description is the block's description lines joined by single spaces, and it is empty iff the detail block has no description line. |
| TextParser.TextLinesEmpty | convert_to_ics.py:342-343 | There are no description lines iff no detail line is classified as description text. |
| TextParser.TimeThenDistanceTitles | convert_to_ics.py:305-333 | In "marker, title, time, distance", both the title and the time line start a record. |
| TextParser.TimeThenDistance | convert_to_ics.py:304-360 | Such a block parses into two records: the title with nothing, and the time line with the distance. |
| TextParser.EasyRunExample | convert_to_ics.py:271-364 | "Week 1 / Easy Run / 00:30:00 / 3.00 km" gives the records "Easy Run" (no fields) and "00:30:00" (distance "3.00 km"), both in week 1. |
| Scheduler.Weekday | convert_to_ics.py:392 | A date's weekday is in 0..6. |
| Scheduler.TupleOrderIsKeyOrder | convert_to_ics.py:380 | Comparing the key tuples fails iff the two records are in one week and only one has a weekday. Otherwise it is the strict form of the key order. |
| Scheduler.InsertSorted | convert_to_ics.py:380 | Inserting into a sorted list keeps it sorted and adds exactly that element. |
| Scheduler.InsertPermutes | convert_to_ics.py:380 | Insertion adds exactly the inserted record and keeps all the others. |
| Scheduler.SortByKeySorted | convert_to_ics.py:380 | The sort yields records ordered by (week, weekday) and is a permutation of its input. |
| Scheduler.SortByKeyStable | convert_to_ics.py:380 | The sort is stable: records with equal keys keep their relative order. |
| Scheduler.CalculatePlanDates | convert_to_ics.py:366-435 | The loop yields the schedule: sorted records, each with its date and weekday name. |
| Scheduler.ScheduleOrder | convert_to_ics.py:372-380 | No records give no schedule. Otherwise the scheduled records are sorted, a permutation of the input and stable. |
| Scheduler.DateDifferences | convert_to_ics.py:426-427 | Two scheduled dates differ by 7 times the week difference plus the weekday difference. |
| Scheduler.FirstDateAnchored | convert_to_ics.py:383-397 | The first record falls on the only date in the week starting at the start date that has its weekday. |
| Scheduler.DatesKeepWeekdays | convert_to_ics.py:406-431 | Every date falls on its record's weekday and carries that day's name. A record without a weekday lands on a Monday. |
| Scheduler.DatedFromMonday | convert_to_ics.py:410-431 | Dated from a Monday, a record falls on its weekday modulo 7 and carries that day's name. |
| Scheduler.BaseIsMonday | convert_to_ics.py:406 | The base date of the plan is a Monday. |
| Scheduler.ShiftLandsOnWeekday | convert_to_ics.py:392-397 | The anchor shift lands on the first record's weekday. |
| Scheduler.DatesAscend | convert_to_ics.py:380-427 | Scheduled dates never decrease along the schedule. |
| Emitter.EventDescriptionEmpty | convert_to_ics.py:473-483 | An event description is empty iff the record has no distance, duration, training load or description. |
| Emitter.EventDescriptionLines | convert_to_ics.py:472-483 | Split on newlines, the description is the "Distance:", "Duration:" and "Training Load:" lines that apply. If the record has a description, they are followed by a blank line and the description's own lines. |
| Emitter.DescribeWorkout | convert_to_ics.py:472-483 | The loop builds the event description. |
| Emitter.FirstUndated | convert_to_ics.py:459-460 | Every item before the index has a date, and the item at the index (if any) has none. |
| Emitter.CreateIcsEvents | convert_to_ics.py:446-486 | The event loop yields the events, or fails at the first record without a date. |
| Emitter.EmitShape | convert_to_ics.py:459-483 | Scheduling always succeeds. There is one event per record: its summary is the title, it ends the day after it starts, and it has the record's description. |
| Emitter.EmitAsGiven | convert_to_ics.py:446-460 | Dated records are used as given. Emission succeeds iff every record has a date, and each event starts on its record's date. Otherwise the failure names the first undated record. |
| Emitter.EmitScheduled | convert_to_ics.py:446-447 | Undated records become the events of their schedule, in schedule order. |

## Left out

- Loading the dictionary file and its process-wide cache: the dictionary is a parameter of every operation that translates.
- Fetching the plan over HTTP, the URL and JSON-structure checks, and the handling of JSON `null` or wrongly typed fields: entities arrive as typed Dafny values, and missing keys are `None`.
- `load_training_data`, `main` and `app.py`: file reading, the command line and the web front end are I/O around the core.
- Serialising the calendar to iCalendar text and writing the file, and the calendar-level properties: an event is modelled as its summary, start, end and description.
- `datetime.now()` as the default start date: the start date is always a parameter.
- The datetime-to-date conversion of `create_ics_file` and `date_str` (`strftime('%Y-%m-%d')`): dates are day ordinals.
- Float formatting of kilometres (`/ 100000` with two decimals) and of intensity percentages: it is the `Formats` parameter of the decoder, because Dafny has no floating point.
- `strftime('%A')` (`convert_to_ics.py:431`) gives the weekday name in the current locale; the model always uses the English names.
- `\d` in the text parser's patterns matches ASCII digits only; Python also matches other Unicode digits.
- The `training_exercises` list of the bar-chart branch: the code builds it and never reads it.
- The extra keys that `w.copy()` carries into the dated records: a dated record holds the workout, its date and its weekday name.
- The `x.get('week', 1)` default of the scheduler: every record the decoders produce has a week.
- Scheduler.CalculatePlanDates: requires that the records of one week agree on whether they have a weekday, because otherwise Python's tuple comparison raises TypeError; `TupleOrderIsKeyOrder` characterises exactly when that happens.
- Emitter.CreateIcsEvents: carries the same requirement as `CalculatePlanDates` when it has to schedule.
- Scheduler.FirstDateAnchored: requires the first record's weekday to be in 0..6, which the API decoder guarantees (`DecodeEntityShape`). A weekday outside that range is anchored modulo 7.
- Scheduler.DatesAscend: requires every weekday to be in 0..6; with larger weekdays, a later record of an earlier week can fall after an earlier one.
- TextParser.EasyRunExample: stated on the prepared lines rather than on the raw text block.
- Scheduler.Schedule: dates are unbounded day ordinals, so the `OverflowError` that Python's `date ± timedelta` raises outside years 1 to 9999 (`convert_to_ics.py:397`, `:406`, `:427`) is not modelled; every input gets dates.
- Scheduler.CalculatePlanDates: likewise never fails on a date outside years 1 to 9999, where the source raises `OverflowError` (`convert_to_ics.py:397`, `:406`, `:427`).
- Emitter.EventFor: the end date is the day after the start even after 31 December 9999, where `event_date_val + timedelta(days=1)` (`convert_to_ics.py:470`) raises `OverflowError`.
- Emitter.CreateIcsEvents: returns events where the source raises `OverflowError` for a date outside years 1 to 9999 (`convert_to_ics.py:397`, `:406`, `:427`, `:470`); the error results it models are the missing-date ones.
