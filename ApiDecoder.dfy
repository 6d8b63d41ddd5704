/**
 * The entity loop of scrape_from_url: the already-fetched `entities` and
 * `programs` of a COROS plan become workout records. Programs are indexed by
 * idInPlan, each entity's dayNo gives its week and weekday, and either its
 * exerciseBarChart list or its legacy sport object is decoded into a title,
 * a description and the duration, distance and training-load strings.
 *
 * JSON objects become datatypes whose fields are optional (a missing key is
 * None). Python's float formatting of distances and intensity percentages is
 * the parameter `fmt`.
 */
module ApiDecoder {
  import opened Wrappers
  import opened Text
  import opened Workouts
  import opened Translation

  // ------------------------------------------------------------ data model

  datatype Exercise = Exercise(
    name: Option<string>,
    targetType: Option<int>,
    targetValue: Option<int>,
    intensityType: Option<int>,
    intensityPercent: Option<int>,
    intensityPercentExtend: Option<int>)

  /** The legacy `sport` object; `otherKeys` records keys the decoder does not read (they make the object truthy). */
  datatype Sport = Sport(
    name: Option<string>,
    overview: Option<string>,
    distance: Option<int>,
    duration: Option<int>,
    trainingLoad: Option<int>,
    exercises: Option<seq<Exercise>>,
    otherKeys: bool)

  datatype Program = Program(idInPlan: Option<int>, name: Option<string>, overview: Option<string>)

  datatype Entity = Entity(
    dayNo: Option<int>,
    idInPlan: Option<int>,
    exerciseBarChart: Option<seq<Exercise>>,
    sport: Option<Sport>)

  /**
   * The two float renderings: `km(v)` is `f"{v / 100000:.2f}"` and
   * `percent(v)` is `f"{v / 1000:.0f}"`.
   */
  datatype Formats = Formats(km: int -> string, percent: int -> string)

  const TimeTarget := 2
  const DistanceTarget := 5
  const PaceIntensity := 3

  // ------------------------------------------------------------ programs

  /** A Python-truthy idInPlan: present and non-zero. */
  predicate IdTruthy(id: Option<int>) {
    id.Some? && id.value != 0
  }

  /** `{p.get('idInPlan'): p for p in programs if p.get('idInPlan')}`: a later program with the same id replaces an earlier one. */
  function ProgramIndex(programs: seq<Program>): map<int, Program>
    decreases |programs|
  {
    if programs == [] then map[]
    else
      var index := ProgramIndex(programs[..|programs| - 1]);
      var p := programs[|programs| - 1];
      if IdTruthy(p.idInPlan) then index[p.idInPlan.value := p] else index
  }

  /**
   * An id is a key exactly when some program carries it (and it is non-zero);
   * its entry is the last such program.
   */
  lemma {:induction false} ProgramIndexIsLast(programs: seq<Program>, id: int)
    ensures var index := ProgramIndex(programs);
      && (id in index <==> id != 0 && exists i :: 0 <= i < |programs| && programs[i].idInPlan == Some(id))
      && (id in index ==> exists i :: 0 <= i < |programs| && programs[i] == index[id]
                                      && programs[i].idInPlan == Some(id)
                                      && forall j :: i < j < |programs| ==> programs[j].idInPlan != Some(id))
    decreases |programs|
  {
    if programs != [] {
      var init := programs[..|programs| - 1];
      var p := programs[|programs| - 1];
      ProgramIndexIsLast(init, id);
      if !(IdTruthy(p.idInPlan) && p.idInPlan.value == id) {
        if id in ProgramIndex(init) {
          var i :| 0 <= i < |init| && init[i] == ProgramIndex(init)[id] && init[i].idInPlan == Some(id)
                   && forall j :: i < j < |init| ==> init[j].idInPlan != Some(id);
          assert programs[i] == init[i];
        }
        if id != 0 && exists i :: 0 <= i < |programs| && programs[i].idInPlan == Some(id) {
          var i :| 0 <= i < |programs| && programs[i].idInPlan == Some(id);
          assert i < |init| && init[i].idInPlan == Some(id);
        }
      }
    }
  }

  /** `programs.get(entity.get('idInPlan'), {})`, None standing for the empty object. */
  function ProgramOf(e: Entity, index: map<int, Program>): Option<Program> {
    if e.idInPlan.Some? && e.idInPlan.value in index then Some(index[e.idInPlan.value]) else None
  }

  // ------------------------------------------------------------ days

  /** `entity.get('dayNo', 1)` */
  function DayNo(e: Entity): int {
    e.dayNo.GetOr(1)
  }

  /** `((dayNo - 1) // 7) + 1`; Dafny's division by a positive divisor floors like Python's. */
  function WeekOf(dayNo: int): int {
    (dayNo - 1) / 7 + 1
  }

  /** `dayNo % 7` */
  function DayOf(dayNo: int): int {
    dayNo % 7
  }

  /**
   * The weekday is in 0..6, and week and weekday point back at dayNo except
   * on the multiples of 7, which land a week earlier: dayNo 7 is week 1 day 0
   * and dayNo 0 is week 0 day 0.
   */
  lemma DayCoordinates(dayNo: int)
    ensures 0 <= DayOf(dayNo) < 7
    ensures (WeekOf(dayNo) - 1) * 7 + DayOf(dayNo) == if dayNo % 7 == 0 then dayNo - 7 else dayNo
  {
  }

  /**
   * Day numbers 0, 6, 7 and 13 fall in weeks 0, 1, 1 and 2, on weekdays 0,
   * 6, 0 and 6: day 7 comes out as the Monday of the week that day 6 ends.
   */
  lemma DayCoordinateExamples()
    ensures WeekOf(0) == 0 && DayOf(0) == 0
    ensures WeekOf(6) == 1 && DayOf(6) == 6
    ensures WeekOf(7) == 1 && DayOf(7) == 0
    ensures WeekOf(13) == 2 && DayOf(13) == 6
  {
  }

  /** The day number a (week, weekday) pair comes from. */
  function DayNoOf(week: int, day: int): int {
    if day == 0 then week * 7 else (week - 1) * 7 + day
  }

  /** Distinct day numbers get distinct (week, weekday) pairs: DayNoOf undoes the split. */
  lemma DayCoordinatesRoundTrip(dayNo: int)
    ensures DayNoOf(WeekOf(dayNo), DayOf(dayNo)) == dayNo
  {
    DayCoordinates(dayNo);
  }

  // ------------------------------------------------------------ targets

  function TargetValue(ex: Exercise): int {
    ex.targetValue.GetOr(0)
  }

  /** Whole minutes from a minute up, seconds below. */
  function TimeText(seconds: int): string {
    if seconds >= 60 then IntToString(seconds / 60) + "min" else IntToString(seconds) + "s"
  }

  /** The target of an exercise: a time, a distance, or "" for any other target type. */
  function TargetText(targetType: Option<int>, value: int, fmt: Formats): string {
    if targetType == Some(TimeTarget) then TimeText(value)
    else if targetType == Some(DistanceTarget) then fmt.km(value) + "km"
    else ""
  }

  /** A target is empty exactly for the target types other than time and distance. */
  lemma TargetPresent(targetType: Option<int>, value: int, fmt: Formats)
    ensures TargetText(targetType, value, fmt) != "" <==> targetType in {Some(TimeTarget), Some(DistanceTarget)}
  {
  }

  /** The number in a time target reads back as the whole minutes (from 60 s up) or the seconds. */
  lemma TimeTextReadsBack(seconds: int)
    ensures var r := TimeText(seconds);
      if seconds >= 60 then
        |r| > 3 && r[|r| - 3..] == "min" && ParseInt(r[..|r| - 3]) == Some(seconds / 60)
      else
        |r| > 1 && r[|r| - 1..] == "s" && ParseInt(r[..|r| - 1]) == Some(seconds)
  {
    var r := TimeText(seconds);
    if seconds >= 60 {
      assert r[..|r| - 3] == IntToString(seconds / 60);
      IntToStringRoundTrip(seconds / 60);
    } else {
      assert r[..|r| - 1] == IntToString(seconds);
      IntToStringRoundTrip(seconds);
    }
  }

  /** The duration of a record: the whole minutes of a positive total. */
  function DurationText(totalSeconds: int): Option<string> {
    if totalSeconds > 0 then Some(IntToString(totalSeconds / 60) + "min") else None
  }

  /** A duration is present exactly when the total is positive, and its number is the total's whole minutes. */
  lemma DurationReadsBack(totalSeconds: int)
    ensures DurationText(totalSeconds).Some? <==> totalSeconds > 0
    ensures totalSeconds > 0 ==>
      var r := DurationText(totalSeconds).value;
      |r| > 3 && r[|r| - 3..] == "min" && ParseInt(r[..|r| - 3]) == Some(totalSeconds / 60)
  {
    if totalSeconds > 0 {
      var r := DurationText(totalSeconds).value;
      assert r[..|r| - 3] == IntToString(totalSeconds / 60);
      IntToStringRoundTrip(totalSeconds / 60);
    }
  }

  /** The distance of a record: the formatted kilometres of a positive total. */
  function DistanceText(totalCentimetres: int, fmt: Formats): Option<string> {
    if totalCentimetres > 0 then Some(fmt.km(totalCentimetres) + " km") else None
  }

  // ------------------------------------------------------------ exercise details

  /** `translate_key(exercise.get('name', ''), dictionary)` */
  function ExerciseName(ex: Exercise, dictionary: map<string, string>): string {
    TranslateKey(ex.name.GetOr(""), dictionary, None)
  }

  /** The "name: target" line of a bar-chart exercise, kept only when both halves are non-empty. */
  function BarChartDetail(ex: Exercise, dictionary: map<string, string>, fmt: Formats): Option<string> {
    var name := ExerciseName(ex, dictionary);
    var target := TargetText(ex.targetType, TargetValue(ex), fmt);
    if name != "" && target != "" then Some(name + ": " + target) else None
  }

  function AsList(d: Option<string>): seq<string> {
    if d.Some? then [d.value] else []
  }

  /** The exercise_details list the bar-chart loop builds. */
  function BarChartDetails(chart: seq<Exercise>, dictionary: map<string, string>, fmt: Formats): seq<string>
    decreases |chart|
  {
    if chart == [] then []
    else BarChartDetails(chart[..|chart| - 1], dictionary, fmt)
         + AsList(BarChartDetail(chart[|chart| - 1], dictionary, fmt))
  }

  /** The sum of the time targets: every exercise counts, whether or not it got a detail line. */
  function TimeTotal(chart: seq<Exercise>): int
    decreases |chart|
  {
    if chart == [] then 0
    else
      var ex := chart[|chart| - 1];
      TimeTotal(chart[..|chart| - 1]) + (if ex.targetType == Some(TimeTarget) then TargetValue(ex) else 0)
  }

  /** The sum of the distance targets, likewise. */
  function DistanceTotal(chart: seq<Exercise>): int
    decreases |chart|
  {
    if chart == [] then 0
    else
      var ex := chart[|chart| - 1];
      DistanceTotal(chart[..|chart| - 1]) + (if ex.targetType == Some(DistanceTarget) then TargetValue(ex) else 0)
  }

  /**
   * Every detail is the line of an exercise whose name and target are both
   * non-empty, and every such exercise's line is among the details. There
   * are at most as many details as exercises, and exactly as many when every
   * exercise qualifies.
   */
  lemma {:induction false} BarChartDetailsAreKept(chart: seq<Exercise>, dictionary: map<string, string>, fmt: Formats)
    ensures var ds := BarChartDetails(chart, dictionary, fmt);
      && |ds| <= |chart|
      && forall k :: 0 <= k < |ds| ==> exists i :: 0 <= i < |chart| && BarChartDetail(chart[i], dictionary, fmt) == Some(ds[k])
    ensures forall i :: 0 <= i < |chart| && BarChartDetail(chart[i], dictionary, fmt).Some? ==>
      BarChartDetail(chart[i], dictionary, fmt).value in BarChartDetails(chart, dictionary, fmt)
    ensures (forall i :: 0 <= i < |chart| ==> BarChartDetail(chart[i], dictionary, fmt).Some?)
            ==> |BarChartDetails(chart, dictionary, fmt)| == |chart|
    decreases |chart|
  {
    BarChartDetailsComplete(chart, dictionary, fmt);
    if chart != [] {
      var init := chart[..|chart| - 1];
      BarChartDetailsAreKept(init, dictionary, fmt);
      var ds := BarChartDetails(chart, dictionary, fmt);
      var head := BarChartDetails(init, dictionary, fmt);
      forall k | 0 <= k < |ds|
        ensures exists i :: 0 <= i < |chart| && BarChartDetail(chart[i], dictionary, fmt) == Some(ds[k])
      {
        if k < |head| {
          var i :| 0 <= i < |init| && BarChartDetail(init[i], dictionary, fmt) == Some(head[k]);
          assert chart[i] == init[i];
        } else {
          assert BarChartDetail(chart[|chart| - 1], dictionary, fmt) == Some(ds[k]);
        }
      }
      if forall i :: 0 <= i < |chart| ==> BarChartDetail(chart[i], dictionary, fmt).Some? {
        assert forall i :: 0 <= i < |init| ==> init[i] == chart[i];
      }
    }
  }

  lemma {:induction false} BarChartDetailsComplete(chart: seq<Exercise>, dictionary: map<string, string>, fmt: Formats)
    ensures forall i :: 0 <= i < |chart| && BarChartDetail(chart[i], dictionary, fmt).Some? ==>
      BarChartDetail(chart[i], dictionary, fmt).value in BarChartDetails(chart, dictionary, fmt)
    decreases |chart|
  {
    if chart != [] {
      var init := chart[..|chart| - 1];
      BarChartDetailsComplete(init, dictionary, fmt);
      var ds := BarChartDetails(chart, dictionary, fmt);
      var head := BarChartDetails(init, dictionary, fmt);
      assert ds == head + AsList(BarChartDetail(chart[|chart| - 1], dictionary, fmt));
      forall i | 0 <= i < |init| && BarChartDetail(chart[i], dictionary, fmt).Some?
        ensures BarChartDetail(chart[i], dictionary, fmt).value in ds
      {
        assert chart[i] == init[i];
      }
    }
  }

  /**
   * An exercise whose name translates to "" adds no detail line but its time
   * still counts toward the duration: one unnamed 600-second exercise gives
   * no details and a total of 600 seconds, so the record's duration is
   * "10min" while its description lists nothing.
   */
  lemma UnnamedTimeStillCounts(fmt: Formats)
    ensures var chart := [Exercise(None, Some(TimeTarget), Some(600), None, None, None)];
      && BarChartDetails(chart, map[], fmt) == []
      && TimeTotal(chart) == 600
      && DurationText(TimeTotal(chart)) == Some("10min")
  {
    var chart := [Exercise(None, Some(TimeTarget), Some(600), None, None, None)];
    assert chart[..0] == [];
    assert ExerciseName(chart[0], map[]) == "";
    assert IntToString(10) == "10" by {
      assert Digit(1) == '1' && Digit(0) == '0';
      assert NatToString(10) == NatToString(1) + [Digit(0)];
    }
    assert TimeTotal(chart) == 600 by {
      assert TimeTotal(chart[..0]) == 0;
    }
    assert DurationText(600) == Some(IntToString(600 / 60) + "min");
    assert "10" + "min" == "10min";
  }

  // ------------------------------------------------------------ title and description

  /** `detail.replace(": ", " ")` */
  function TitlePart(detail: string): string {
    ReplaceAll(detail, ": ", " ")
  }

  function TitleParts(details: seq<string>): (parts: seq<string>)
    ensures |parts| == |details|
  {
    seq(|details|, k requires 0 <= k < |details| => TitlePart(details[k]))
  }

  /** `exercise_details[:5]` */
  function FirstFive(details: seq<string>): seq<string> {
    if |details| <= 5 then details else details[..5]
  }

  /**
   * The title built from the details when the program gives none: the first
   * five parts joined by " + ", a count of the rest, or "Workout" when there
   * are no details.
   */
  function FallbackTitle(details: seq<string>): string {
    var parts := TitleParts(FirstFive(details));
    if |details| > 5 then Join(" + ", parts) + " + " + IntToString(|details| - 5) + " more"
    else if parts != [] then Join(" + ", parts)
    else "Workout"
  }

  /**
   * A detail "name: target" enters a title as "name target": the separator
   * becomes a space and the halves are rewritten on their own. When neither
   * half holds ": " the part is exactly "name target".
   */
  lemma TitlePartOfDetail(name: string, target: string)
    ensures TitlePart(name + ": " + target) == TitlePart(name) + " " + TitlePart(target)
    ensures !Contains(name, ": ") && !Contains(target, ": ") ==> TitlePart(name + ": " + target) == name + " " + target
  {
    ReplaceColonSpaceAround(name, target);
    if !Contains(name, ": ") && !Contains(target, ": ") {
      ReplaceAbsent(name, ": ", " ");
      ReplaceAbsent(target, ": ", " ");
    }
  }

  /**
   * At most five details are named in a fallback title; beyond five the title
   * ends in " more" after a number that reads back as the count of the rest.
   */
  lemma FallbackTitleCounts(details: seq<string>)
    ensures details == [] ==> FallbackTitle(details) == "Workout"
    ensures 0 < |details| <= 5 ==> FallbackTitle(details) == Join(" + ", TitleParts(details))
    ensures |details| > 5 ==>
      exists count: string ::
        && FallbackTitle(details) == Join(" + ", TitleParts(details[..5])) + " + " + count + " more"
        && ParseInt(count) == Some(|details| - 5)
  {
    if |details| > 5 {
      var count := IntToString(|details| - 5);
      IntToStringRoundTrip(|details| - 5);
      assert FallbackTitle(details) == Join(" + ", TitleParts(details[..5])) + " + " + count + " more";
    }
  }

  /**
   * Warm-up segments are not filtered out of the fallback title: a bar chart
   * holding only a 600-second "Warm Up", for an entity without a program, is
   * titled "Warm Up 10min".
   */
  lemma WarmUpNamesTheWorkout(fmt: Formats)
    ensures var chart := [Exercise(Some("Warm Up"), Some(TimeTarget), Some(600), None, None, None)];
      BarChartRecord(chart, None, 1, 0, map[], fmt).title == "Warm Up 10min"
  {
    var chart := [Exercise(Some("Warm Up"), Some(TimeTarget), Some(600), None, None, None)];
    TenMinutes();
    assert ExerciseName(chart[0], map[]) == "Warm Up";
    assert TargetText(Some(TimeTarget), 600, fmt) == "10min";
    assert BarChartDetail(chart[0], map[], fmt) == Some("Warm Up" + ": " + "10min");
    assert "Warm Up" + ": " + "10min" == "Warm Up: 10min";
    assert chart[..0] == [];
    assert BarChartDetails(chart, map[], fmt) == BarChartDetails([], map[], fmt) + ["Warm Up: 10min"];
    WarmUpPart();
    assert TitleParts(["Warm Up: 10min"]) == ["Warm Up 10min"];
  }

  lemma TenMinutes()
    ensures TimeText(600) == "10min"
  {
    assert IntToString(10) == "10" by {
      assert Digit(1) == '1' && Digit(0) == '0';
      assert NatToString(10) == NatToString(1) + [Digit(0)];
    }
    assert "10" + "min" == "10min";
  }

  /** The one detail of that chart enters the title with its separator turned into a space. */
  lemma WarmUpPart()
    ensures TitlePart("Warm Up: 10min") == "Warm Up 10min"
  {
    TitlePartWithoutColons("Warm Up", "10min");
    assert "Warm Up" + ": " + "10min" == "Warm Up: 10min";
    assert "Warm Up" + " " + "10min" == "Warm Up 10min";
  }

  /** A detail whose halves hold no ':' enters a title as the two halves around a space. */
  lemma TitlePartWithoutColons(name: string, target: string)
    requires ':' !in name && ':' !in target
    ensures TitlePart(name + ": " + target) == name + " " + target
  {
    NotContainsFirst(name, ": ");
    NotContainsFirst(target, ": ");
    TitlePartOfDetail(name, target);
  }

  /** `[f"• {d}" for d in details]` */
  function Bullets(details: seq<string>): (lines: seq<string>)
    ensures |lines| == |details|
  {
    seq(|details|, k requires 0 <= k < |details| => "• " + details[k])
  }

  /** "Workout Structure:" followed by one bullet line per detail. */
  function StructureBlock(details: seq<string>): string {
    "Workout Structure:\n" + Join("\n", Bullets(details))
  }

  /** The structure block splits back into its header and one bullet per detail, when no detail spans lines. */
  lemma StructureBlockLines(details: seq<string>)
    requires details != []
    requires forall k :: 0 <= k < |details| ==> '\n' !in details[k]
    ensures Split(StructureBlock(details), '\n') == ["Workout Structure:"] + Bullets(details)
  {
    var bullets := Bullets(details);
    forall k | 0 <= k < |bullets|
      ensures '\n' !in bullets[k]
    {
      assert bullets[k] == "• " + details[k];
    }
    SplitJoin(bullets, '\n');
    assert "\n" == ['\n'];
    assert StructureBlock(details) == "Workout Structure:" + ['\n'] + Join(['\n'], bullets);
    assert '\n' !in "Workout Structure:";
    SplitAfterFirst("Workout Structure:", '\n', Join(['\n'], bullets));
  }

  /** `translate_key(key, dictionary) if key else None` */
  function KeyText(key: Option<string>, dictionary: map<string, string>): Option<string> {
    var k := key.GetOr("");
    if k != "" then Some(TranslateKey(k, dictionary, None)) else None
  }

  /** The bar-chart description: the overview, a blank line when both are present, the structure block; stripped. */
  function BarChartDescription(overview: Option<string>, details: seq<string>): string {
    var description := if Truthy(overview) then overview.value else "";
    if details == [] then Strip(description)
    else Strip((if description != "" then description + "\n\n" else description) + StructureBlock(details))
  }

  /** The legacy description: the overview text and, when there are details, a blank line and the structure block; stripped. */
  function SportDescription(overview: string, details: seq<string>): string {
    Strip(if details != [] then overview + ("\n\nWorkout Structure:\n" + Join("\n", Bullets(details))) else overview)
  }

  /**
   * The two shapes describe the same overview and details identically: the
   * legacy path's unconditional blank line before the block disappears in the
   * strip when the overview is empty.
   */
  lemma DescriptionsAgree(overview: string, details: seq<string>)
    ensures SportDescription(overview, details) == BarChartDescription(Some(overview), details)
  {
    if details != [] {
      var block := StructureBlock(details);
      var lines := Join("\n", Bullets(details));
      assert "\n\nWorkout Structure:\n" == "\n\n" + "Workout Structure:\n";
      assert overview + ("\n\nWorkout Structure:\n" + lines) == (overview + "\n\n") + block;
      if overview == "" {
        assert (overview + "\n\n") + block == "\n\n" + block;
        assert "" + block == block;
        StripAfterSpaces("\n\n", block);
      }
    }
  }

  // ------------------------------------------------------------ legacy sport

  /** `@ P-E% threshold` for a pace intensity with a positive percentage, "" otherwise. */
  function IntensityText(ex: Exercise, fmt: Formats): string {
    if ex.intensityType.GetOr(0) == PaceIntensity && ex.intensityPercent.GetOr(0) > 0 then
      "@ " + fmt.percent(ex.intensityPercent.GetOr(0)) + "-" + fmt.percent(ex.intensityPercentExtend.GetOr(0)) + "% threshold"
    else ""
  }

  /** The detail line of a legacy exercise: "name: target", then the intensity after a space when there is one. */
  function SportDetail(ex: Exercise, dictionary: map<string, string>, fmt: Formats): Option<string> {
    var name := ExerciseName(ex, dictionary);
    var target := TargetText(ex.targetType, TargetValue(ex), fmt);
    var intensity := IntensityText(ex, fmt);
    if name != "" && target != "" then
      var base := name + ": " + target;
      Some(if intensity != "" then base + (" " + intensity) else base)
    else None
  }

  function SportDetails(exercises: seq<Exercise>, dictionary: map<string, string>, fmt: Formats): seq<string>
    decreases |exercises|
  {
    if exercises == [] then []
    else SportDetails(exercises[..|exercises| - 1], dictionary, fmt)
         + AsList(SportDetail(exercises[|exercises| - 1], dictionary, fmt))
  }

  /** A legacy detail is the bar-chart detail of the same exercise, with the intensity appended when there is one. */
  lemma SportDetailExtendsBarChart(ex: Exercise, dictionary: map<string, string>, fmt: Formats)
    ensures SportDetail(ex, dictionary, fmt).Some? <==> BarChartDetail(ex, dictionary, fmt).Some?
    ensures SportDetail(ex, dictionary, fmt).Some? ==>
      var base := BarChartDetail(ex, dictionary, fmt).value;
      SportDetail(ex, dictionary, fmt).value
        == if IntensityText(ex, fmt) == "" then base else base + " " + IntensityText(ex, fmt)
  {
  }

  /** The legacy list has one line per bar-chart line of the same exercises. */
  lemma {:induction false} SportDetailsCount(xs: seq<Exercise>, dictionary: map<string, string>, fmt: Formats)
    ensures |SportDetails(xs, dictionary, fmt)| == |BarChartDetails(xs, dictionary, fmt)|
    decreases |xs|
  {
    if xs != [] {
      SportDetailsCount(xs[..|xs| - 1], dictionary, fmt);
      SportDetailExtendsBarChart(xs[|xs| - 1], dictionary, fmt);
    }
  }

  /**
   * The n-th legacy line comes from exercise i: it is the n-th bar-chart
   * line, which is that exercise's, with the exercise's intensity appended
   * when there is one; and exactly n lines come from the exercises before i.
   */
  lemma {:induction false} SportDetailSource(xs: seq<Exercise>, dictionary: map<string, string>, fmt: Formats, n: nat)
      returns (i: nat)
    requires n < |SportDetails(xs, dictionary, fmt)|
    ensures i < |xs| && |BarChartDetails(xs[..i], dictionary, fmt)| == n
    ensures n < |BarChartDetails(xs, dictionary, fmt)|
    ensures BarChartDetail(xs[i], dictionary, fmt) == Some(BarChartDetails(xs, dictionary, fmt)[n])
    ensures var base := BarChartDetails(xs, dictionary, fmt)[n];
      SportDetails(xs, dictionary, fmt)[n]
        == if IntensityText(xs[i], fmt) == "" then base else base + " " + IntensityText(xs[i], fmt)
    decreases |xs|
  {
    var init := xs[..|xs| - 1];
    var last := xs[|xs| - 1];
    SportDetailsCount(init, dictionary, fmt);
    SportDetailExtendsBarChart(last, dictionary, fmt);
    var sd := SportDetails(xs, dictionary, fmt);
    var bd := BarChartDetails(xs, dictionary, fmt);
    if n < |SportDetails(init, dictionary, fmt)| {
      assert sd[n] == SportDetails(init, dictionary, fmt)[n];
      assert bd[n] == BarChartDetails(init, dictionary, fmt)[n];
      i := SportDetailSource(init, dictionary, fmt, n);
      assert xs[i] == init[i] && xs[..i] == init[..i];
    } else {
      i := |xs| - 1;
      assert xs[..i] == init;
    }
  }

  /** Every exercise with a name and a target contributes its legacy line. */
  lemma SportDetailsComplete(xs: seq<Exercise>, dictionary: map<string, string>, fmt: Formats)
    ensures forall i :: 0 <= i < |xs| && SportDetail(xs[i], dictionary, fmt).Some? ==>
      SportDetail(xs[i], dictionary, fmt).value in SportDetails(xs, dictionary, fmt)
  {
    forall i | 0 <= i < |xs| && SportDetail(xs[i], dictionary, fmt).Some?
      ensures SportDetail(xs[i], dictionary, fmt).value in SportDetails(xs, dictionary, fmt)
    {
      SportLineKept(xs, dictionary, fmt, i);
    }
  }

  lemma {:induction false} SportLineKept(xs: seq<Exercise>, dictionary: map<string, string>, fmt: Formats, i: nat)
    requires i < |xs| && SportDetail(xs[i], dictionary, fmt).Some?
    ensures SportDetail(xs[i], dictionary, fmt).value in SportDetails(xs, dictionary, fmt)
    decreases |xs|
  {
    SportDetailsExtend(xs, dictionary, fmt);
    if i < |xs| - 1 {
      var init := xs[..|xs| - 1];
      assert xs[i] == init[i];
      SportLineKept(init, dictionary, fmt, i);
    }
  }

  /** One more exercise keeps the earlier legacy lines and adds its own, if it has one. */
  lemma SportDetailsExtend(xs: seq<Exercise>, dictionary: map<string, string>, fmt: Formats)
    requires xs != []
    ensures forall x :: x in SportDetails(xs[..|xs| - 1], dictionary, fmt) ==> x in SportDetails(xs, dictionary, fmt)
    ensures SportDetail(xs[|xs| - 1], dictionary, fmt).Some? ==>
      SportDetail(xs[|xs| - 1], dictionary, fmt).value in SportDetails(xs, dictionary, fmt)
  {
  }

  /** The intensity is present exactly for a pace intensity with a positive percentage. */
  lemma IntensityPresent(ex: Exercise, fmt: Formats)
    ensures IntensityText(ex, fmt) != "" <==>
      ex.intensityType.GetOr(0) == PaceIntensity && ex.intensityPercent.GetOr(0) > 0
  {
  }

  /** Python truthiness of the `sport` object: present with at least one key. */
  predicate SportTruthy(sport: Option<Sport>) {
    && sport.Some?
    && var s := sport.value;
       s.name.Some? || s.overview.Some? || s.distance.Some? || s.duration.Some?
       || s.trainingLoad.Some? || s.exercises.Some? || s.otherKeys
  }

  function SportRecord(sport: Sport, week: int, day: int, dictionary: map<string, string>, fmt: Formats): Workout {
    var name := sport.name.GetOr("");
    var overview := sport.overview.GetOr("");
    var title := if name != "" then TranslateKey(name, dictionary, None) else "Workout";
    var description := if overview != "" then TranslateKey(overview, dictionary, None) else "";
    var details := SportDetails(sport.exercises.GetOr([]), dictionary, fmt);
    var load := sport.trainingLoad.GetOr(0);
    Workout(week, Some(day), title, SportDescription(description, details),
            DurationText(sport.duration.GetOr(0)),
            DistanceText(sport.distance.GetOr(0), fmt),
            if load > 0 then Some(IntToString(load)) else None)
  }

  // ------------------------------------------------------------ bar chart

  function BarChartRecord(chart: seq<Exercise>, program: Option<Program>, week: int, day: int,
                          dictionary: map<string, string>, fmt: Formats): Workout
  {
    var programTitle := if program.Some? then KeyText(program.value.name, dictionary) else None;
    var overview := if program.Some? then KeyText(program.value.overview, dictionary) else None;
    var details := BarChartDetails(chart, dictionary, fmt);
    var title := if Truthy(programTitle) then programTitle.value else FallbackTitle(details);
    Workout(week, Some(day), title, BarChartDescription(overview, details),
            DurationText(TimeTotal(chart)), DistanceText(DistanceTotal(chart), fmt), None)
  }

  // ------------------------------------------------------------ entities

  /** `entity.get('exerciseBarChart', [])` */
  function Chart(e: Entity): seq<Exercise> {
    e.exerciseBarChart.GetOr([])
  }

  /** An entity yields a record exactly when it has a non-empty bar chart or a truthy sport object. */
  predicate HasWorkout(e: Entity) {
    Chart(e) != [] || SportTruthy(e.sport)
  }

  /** The record of one entity, or None when the loop skips it. */
  function DecodeEntity(e: Entity, index: map<int, Program>, dictionary: map<string, string>, fmt: Formats): Option<Workout> {
    if !HasWorkout(e) then None
    else
      var dayNo := DayNo(e);
      if Chart(e) != [] then
        Some(BarChartRecord(Chart(e), ProgramOf(e, index), WeekOf(dayNo), DayOf(dayNo), dictionary, fmt))
      else
        Some(SportRecord(e.sport.value, WeekOf(dayNo), DayOf(dayNo), dictionary, fmt))
  }

  /**
   * A record exists exactly for the entities with workout data. It carries
   * the week and weekday of the entity's dayNo, the weekday in 0..6. A
   * bar-chart record has no training load and takes the program's translated
   * name as its title when that is non-empty, the fallback title otherwise.
   * A legacy record takes the translated sport name or "Workout", and its
   * training load is the positive load written out. The title is empty only
   * for a legacy record whose sport name the dictionary maps to "".
   */
  lemma DecodeEntityShape(e: Entity, index: map<int, Program>, dictionary: map<string, string>, fmt: Formats)
    ensures DecodeEntity(e, index, dictionary, fmt).Some? <==> HasWorkout(e)
    ensures DecodeEntity(e, index, dictionary, fmt).Some? ==>
      var w := DecodeEntity(e, index, dictionary, fmt).value;
      && w.week == WeekOf(DayNo(e))
      && w.dayOfWeek == Some(DayOf(DayNo(e)))
      && 0 <= w.dayOfWeek.value < 7
    ensures DecodeEntity(e, index, dictionary, fmt).Some? && Chart(e) != [] ==>
      var w := DecodeEntity(e, index, dictionary, fmt).value;
      var programTitle := if ProgramOf(e, index).Some? then KeyText(ProgramOf(e, index).value.name, dictionary) else None;
      && w.trainingLoad.None?
      && w.title == (if Truthy(programTitle) then programTitle.value else FallbackTitle(BarChartDetails(Chart(e), dictionary, fmt)))
      && w.title != ""
    ensures DecodeEntity(e, index, dictionary, fmt).Some? && Chart(e) == [] ==>
      var w := DecodeEntity(e, index, dictionary, fmt).value;
      var name := e.sport.value.name.GetOr("");
      var load := e.sport.value.trainingLoad.GetOr(0);
      && w.title == (if name != "" then TranslateKey(name, dictionary, None) else "Workout")
      && (w.title == "" <==> name != "" && name in dictionary && dictionary[name] == "")
      && (w.trainingLoad.Some? <==> load > 0)
      && (load > 0 ==> ParseInt(w.trainingLoad.value) == Some(load))
  {
    DayCoordinates(DayNo(e));
    if HasWorkout(e) {
      var dayNo := DayNo(e);
      if Chart(e) != [] {
        BarChartTitlePopulated(Chart(e), ProgramOf(e, index), WeekOf(dayNo), DayOf(dayNo), dictionary, fmt);
      } else {
        SportRecordFields(e.sport.value, WeekOf(dayNo), DayOf(dayNo), dictionary, fmt);
      }
    }
  }

  /** A bar-chart record always has a title: the fallback for a chart whose details are kept is never empty. */
  lemma BarChartTitlePopulated(chart: seq<Exercise>, program: Option<Program>, week: int, day: int,
                               dictionary: map<string, string>, fmt: Formats)
    ensures BarChartRecord(chart, program, week, day, dictionary, fmt).title != ""
  {
    var details := BarChartDetails(chart, dictionary, fmt);
    if details != [] {
      BarChartDetailsAreKept(chart, dictionary, fmt);
      var i :| 0 <= i < |chart| && BarChartDetail(chart[i], dictionary, fmt) == Some(details[0]);
    }
    FallbackTitleNotEmpty(details);
  }

  /** The fallback title is never empty when its first detail is not. */
  lemma FallbackTitleNotEmpty(details: seq<string>)
    requires details != [] ==> details[0] != ""
    ensures FallbackTitle(details) != ""
  {
    if 0 < |details| <= 5 {
      var parts := TitleParts(FirstFive(details));
      assert parts[0] == ReplaceAll(details[0], ": ", " ");
      assert parts[0] != "";
    }
  }

  /**
   * The legacy record's title is the translated sport name, or "Workout" when
   * the name is missing or empty; it is empty only when the dictionary maps
   * the name to "". Its training load is present exactly for a positive load
   * and reads back as that load.
   */
  lemma SportRecordFields(sport: Sport, week: int, day: int, dictionary: map<string, string>, fmt: Formats)
    ensures var w := SportRecord(sport, week, day, dictionary, fmt);
      var name := sport.name.GetOr("");
      var load := sport.trainingLoad.GetOr(0);
      && w.title == (if name != "" then TranslateKey(name, dictionary, None) else "Workout")
      && (w.title == "" <==> name != "" && name in dictionary && dictionary[name] == "")
      && (w.trainingLoad.Some? <==> load > 0)
      && (load > 0 ==> ParseInt(w.trainingLoad.value) == Some(load))
  {
    var load := sport.trainingLoad.GetOr(0);
    if load > 0 {
      IntToStringRoundTrip(load);
    }
  }

  /** The records of the entity loop: one per entity with workout data, in entity order. */
  function DecodeAll(entities: seq<Entity>, index: map<int, Program>, dictionary: map<string, string>, fmt: Formats): seq<Workout>
    decreases |entities|
  {
    if entities == [] then []
    else
      var last := DecodeEntity(entities[|entities| - 1], index, dictionary, fmt);
      DecodeAll(entities[..|entities| - 1], index, dictionary, fmt) + (if last.Some? then [last.value] else [])
  }

  /** The number of entities with workout data. */
  function CountWithWorkout(entities: seq<Entity>): nat
    decreases |entities|
  {
    if entities == [] then 0
    else CountWithWorkout(entities[..|entities| - 1]) + (if HasWorkout(entities[|entities| - 1]) then 1 else 0)
  }

  /** Decoding a concatenation decodes each part in turn: records keep the order of their entities. */
  lemma {:induction false} DecodeAllAppend(a: seq<Entity>, b: seq<Entity>, index: map<int, Program>,
                                           dictionary: map<string, string>, fmt: Formats)
    ensures DecodeAll(a + b, index, dictionary, fmt) == DecodeAll(a, index, dictionary, fmt) + DecodeAll(b, index, dictionary, fmt)
    decreases |b|
  {
    if b == [] {
      assert a + b == a;
    } else {
      var b' := b[..|b| - 1];
      assert (a + b)[..|a + b| - 1] == a + b';
      assert (a + b)[|a + b| - 1] == b[|b| - 1];
      DecodeAllAppend(a, b', index, dictionary, fmt);
    }
  }

  /** One more entity appends its record, if any. */
  lemma DecodeAllStep(entities: seq<Entity>, i: nat, index: map<int, Program>,
                      dictionary: map<string, string>, fmt: Formats)
    requires i < |entities|
    ensures var w := DecodeEntity(entities[i], index, dictionary, fmt);
      DecodeAll(entities[..i + 1], index, dictionary, fmt)
      == DecodeAll(entities[..i], index, dictionary, fmt) + (if w.Some? then [w.value] else [])
  {
    assert entities[..i + 1][..i] == entities[..i];
  }

  /** There is exactly one record per entity with workout data. */
  lemma {:induction false} DecodeAllCount(entities: seq<Entity>, index: map<int, Program>,
                                          dictionary: map<string, string>, fmt: Formats)
    ensures |DecodeAll(entities, index, dictionary, fmt)| == CountWithWorkout(entities) <= |entities|
    decreases |entities|
  {
    if entities != [] {
      DecodeAllCount(entities[..|entities| - 1], index, dictionary, fmt);
      DecodeEntityShape(entities[|entities| - 1], index, dictionary, fmt);
    }
  }

  // ------------------------------------------------------------ the loops

  /**
   * The loop over a bar chart: the totals take every time and distance
   * target, the details only the exercises with a name and a target.
   */
  method SummarizeBarChart(chart: seq<Exercise>, dictionary: map<string, string>, fmt: Formats)
      returns (details: seq<string>, totalDuration: int, totalDistance: int)
    ensures details == BarChartDetails(chart, dictionary, fmt)
    ensures totalDuration == TimeTotal(chart) && totalDistance == DistanceTotal(chart)
  {
    details, totalDuration, totalDistance := [], 0, 0;
    var i := 0;
    while i < |chart|
      invariant 0 <= i <= |chart|
      invariant details == BarChartDetails(chart[..i], dictionary, fmt)
      invariant totalDuration == TimeTotal(chart[..i]) && totalDistance == DistanceTotal(chart[..i])
    {
      var exercise := chart[i];
      var exName := TranslateKey(exercise.name.GetOr(""), dictionary, None);
      var targetType := exercise.targetType;
      var targetValue := exercise.targetValue.GetOr(0);
      assert exercise == chart[i] && targetValue == TargetValue(exercise);
      BarChartStep(chart, i, dictionary, fmt);
      var target;
      if targetType == Some(TimeTarget) {
        totalDuration := totalDuration + targetValue;
        target := if targetValue >= 60 then IntToString(targetValue / 60) + "min" else IntToString(targetValue) + "s";
      } else if targetType == Some(DistanceTarget) {
        totalDistance := totalDistance + targetValue;
        target := fmt.km(targetValue) + "km";
      } else {
        target := "";
      }
      assert target == TargetText(exercise.targetType, targetValue, fmt);
      if exName != "" && target != "" {
        details := details + [exName + ": " + target];
      }
      i := i + 1;
    }
    assert chart[..|chart|] == chart;
  }

  /** One more exercise of a bar chart: its detail, if any, and its targets are added. */
  lemma BarChartStep(chart: seq<Exercise>, i: nat, dictionary: map<string, string>, fmt: Formats)
    requires i < |chart|
    ensures BarChartDetails(chart[..i + 1], dictionary, fmt)
         == BarChartDetails(chart[..i], dictionary, fmt) + AsList(BarChartDetail(chart[i], dictionary, fmt))
    ensures TimeTotal(chart[..i + 1])
         == TimeTotal(chart[..i]) + (if chart[i].targetType == Some(TimeTarget) then TargetValue(chart[i]) else 0)
    ensures DistanceTotal(chart[..i + 1])
         == DistanceTotal(chart[..i]) + (if chart[i].targetType == Some(DistanceTarget) then TargetValue(chart[i]) else 0)
  {
    assert chart[..i + 1][..i] == chart[..i];
  }

  /** One more legacy exercise: its detail, if any, is added. */
  lemma SportStep(exercises: seq<Exercise>, i: nat, dictionary: map<string, string>, fmt: Formats)
    requires i < |exercises|
    ensures SportDetails(exercises[..i + 1], dictionary, fmt)
         == SportDetails(exercises[..i], dictionary, fmt) + AsList(SportDetail(exercises[i], dictionary, fmt))
  {
    assert exercises[..i + 1][..i] == exercises[..i];
  }

  /** The loop over a legacy sport's exercises. */
  method CollectSportDetails(exercises: seq<Exercise>, dictionary: map<string, string>, fmt: Formats)
      returns (details: seq<string>)
    ensures details == SportDetails(exercises, dictionary, fmt)
  {
    details := [];
    var i := 0;
    while i < |exercises|
      invariant 0 <= i <= |exercises|
      invariant details == SportDetails(exercises[..i], dictionary, fmt)
    {
      var detail := DescribeSportExercise(exercises[i], dictionary, fmt);
      SportStep(exercises, i, dictionary, fmt);
      if detail.Some? {
        details := details + [detail.value];
      }
      i := i + 1;
    }
    assert exercises[..|exercises|] == exercises;
  }

  /** The body of the legacy exercise loop: the detail line of one exercise, None when it is not kept. */
  method DescribeSportExercise(exercise: Exercise, dictionary: map<string, string>, fmt: Formats)
      returns (detail: Option<string>)
    ensures detail == SportDetail(exercise, dictionary, fmt)
  {
    var exName := TranslateKey(exercise.name.GetOr(""), dictionary, None);
    var targetValue := exercise.targetValue.GetOr(0);
    var target := TargetText(exercise.targetType, targetValue, fmt);
    var intensityStr := "";
    if exercise.intensityType.GetOr(0) == PaceIntensity {
      if exercise.intensityPercent.GetOr(0) > 0 {
        intensityStr := "@ " + fmt.percent(exercise.intensityPercent.GetOr(0)) + "-"
                        + fmt.percent(exercise.intensityPercentExtend.GetOr(0)) + "% threshold";
      }
    }
    assert intensityStr == IntensityText(exercise, fmt);
    detail := None;
    if exName != "" && target != "" {
      var line := exName + ": " + target;
      if intensityStr != "" {
        line := line + (" " + intensityStr);
      }
      detail := Some(line);
    }
  }

  /** The loop that collects the title parts of the first five details. */
  method BuildFallbackTitle(details: seq<string>) returns (title: string)
    ensures title == FallbackTitle(details)
  {
    var head := FirstFive(details);
    var titleParts := [];
    var k := 0;
    while k < |head|
      invariant 0 <= k <= |head|
      invariant |titleParts| == k
      invariant forall j :: 0 <= j < k ==> titleParts[j] == TitlePart(head[j])
    {
      titleParts := titleParts + [ReplaceAll(head[k], ": ", " ")];
      k := k + 1;
    }
    assert titleParts == TitleParts(head);
    if |details| > 5 {
      title := Join(" + ", titleParts) + " + " + IntToString(|details| - 5) + " more";
    } else if titleParts != [] {
      title := Join(" + ", titleParts);
    } else {
      title := "Workout";
    }
  }

  /** The body of the entity loop: None when the entity is skipped. */
  method DecodeOne(entity: Entity, programs: map<int, Program>, dictionary: map<string, string>, fmt: Formats)
      returns (workout: Option<Workout>)
    ensures workout == DecodeEntity(entity, programs, dictionary, fmt)
  {
    var dayNo := entity.dayNo.GetOr(1);
    var week := (dayNo - 1) / 7 + 1;
    var dayOfWeek := dayNo % 7;
    var program := ProgramOf(entity, programs);
    var exerciseBarChart := entity.exerciseBarChart.GetOr([]);
    assert week == WeekOf(DayNo(entity)) && dayOfWeek == DayOf(DayNo(entity));
    assert exerciseBarChart == Chart(entity);
    if exerciseBarChart == [] && !SportTruthy(entity.sport) {
      return None;
    }
    if exerciseBarChart != [] {
      var w := DecodeBarChart(exerciseBarChart, program, week, dayOfWeek, dictionary, fmt);
      workout := Some(w);
    } else {
      var w := DecodeSport(entity.sport.value, week, dayOfWeek, dictionary, fmt);
      workout := Some(w);
    }
  }

  /** The bar-chart branch of the entity loop. */
  method DecodeBarChart(exerciseBarChart: seq<Exercise>, program: Option<Program>,
                        week: int, dayOfWeek: int, dictionary: map<string, string>, fmt: Formats)
      returns (workout: Workout)
    ensures workout == BarChartRecord(exerciseBarChart, program, week, dayOfWeek, dictionary, fmt)
  {
    var workoutTitle := if program.Some? then KeyText(program.value.name, dictionary) else None;
    var workoutOverview := if program.Some? then KeyText(program.value.overview, dictionary) else None;
    var exerciseDetails, totalDuration, totalDistance := SummarizeBarChart(exerciseBarChart, dictionary, fmt);
    var title;
    if Truthy(workoutTitle) {
      title := workoutTitle.value;
    } else {
      title := BuildFallbackTitle(exerciseDetails);
    }
    assert title == if Truthy(workoutTitle) then workoutTitle.value else FallbackTitle(exerciseDetails);
    var description := if Truthy(workoutOverview) then workoutOverview.value else "";
    if exerciseDetails != [] {
      if description != "" {
        description := description + "\n\n";
      }
      description := description + StructureBlock(exerciseDetails);
    }
    description := Strip(description);
    assert description == BarChartDescription(workoutOverview, exerciseDetails);
    var duration := if totalDuration > 0 then Some(IntToString(totalDuration / 60) + "min") else None;
    var distance := if totalDistance > 0 then Some(fmt.km(totalDistance) + " km") else None;
    assert duration == DurationText(TimeTotal(exerciseBarChart));
    assert distance == DistanceText(DistanceTotal(exerciseBarChart), fmt);
    workout := Workout(week, Some(dayOfWeek), title, description, duration, distance, None);
  }

  /** The legacy sport branch of the entity loop. */
  method DecodeSport(sport: Sport, week: int, dayOfWeek: int, dictionary: map<string, string>, fmt: Formats)
      returns (workout: Workout)
    ensures workout == SportRecord(sport, week, dayOfWeek, dictionary, fmt)
  {
    var nameKey := sport.name.GetOr("");
    var overviewKey := sport.overview.GetOr("");
    var title := if nameKey != "" then TranslateKey(nameKey, dictionary, None) else "Workout";
    var description := if overviewKey != "" then TranslateKey(overviewKey, dictionary, None) else "";
    ghost var overview := description;
    var distanceCm := sport.distance.GetOr(0);
    var durationSec := sport.duration.GetOr(0);
    var trainingLoad := sport.trainingLoad.GetOr(0);
    var exerciseDetails := CollectSportDetails(sport.exercises.GetOr([]), dictionary, fmt);
    if exerciseDetails != [] {
      description := description + ("\n\nWorkout Structure:\n" + Join("\n", Bullets(exerciseDetails)));
    }
    description := Strip(description);
    assert description == SportDescription(overview, exerciseDetails);
    var duration := if durationSec > 0 then Some(IntToString(durationSec / 60) + "min") else None;
    var distance := if distanceCm > 0 then Some(fmt.km(distanceCm) + " km") else None;
    var load := if trainingLoad > 0 then Some(IntToString(trainingLoad)) else None;
    assert duration == DurationText(durationSec) && distance == DistanceText(distanceCm, fmt);
    workout := Workout(week, Some(dayOfWeek), title, description, duration, distance, load);
  }

  /**
   * The entity loop of scrape_from_url after the fetch: the programs are
   * indexed by idInPlan, then every entity with workout data appends its
   * record.
   */
  method DecodeEntities(entities: seq<Entity>, programList: seq<Program>, dictionary: map<string, string>, fmt: Formats)
      returns (workouts: seq<Workout>)
    ensures workouts == DecodeAll(entities, ProgramIndex(programList), dictionary, fmt)
    ensures |workouts| == CountWithWorkout(entities)
  {
    var programs := ProgramIndex(programList);
    workouts := [];
    var i := 0;
    while i < |entities|
      invariant 0 <= i <= |entities|
      invariant workouts == DecodeAll(entities[..i], programs, dictionary, fmt)
    {
      var workout := DecodeOne(entities[i], programs, dictionary, fmt);
      DecodeAllStep(entities, i, programs, dictionary, fmt);
      if workout.Some? {
        workouts := workouts + [workout.value];
      }
      i := i + 1;
    }
    assert entities[..|entities|] == entities;
    DecodeAllCount(entities, programs, dictionary, fmt);
  }
}
