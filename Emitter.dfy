/**
 * The event list of create_ics_file: records without dates are dated by the
 * scheduler first, then every record becomes one all-day calendar event whose
 * description lists distance, duration and training load before the free
 * text. The iCalendar serialisation itself is not part of this model.
 */
module Emitter {
  import opened Wrappers
  import opened Text
  import opened Workouts
  import opened Scheduler

  /** A record as create_ics_file receives it: with a `date_obj` when one was attached earlier. */
  datatype PlanItem = PlanItem(workout: Workout, date: Option<int>)

  /** An all-day event: it starts on `dtstart` and ends the next day. */
  datatype Event = Event(summary: string, dtstart: int, dtend: int, description: string)

  /** The KeyError of `workout['date_obj']` on the item at `index`. */
  datatype EmitError = MissingDate(index: nat)

  // ------------------------------------------------------------ descriptions

  /** The "Distance:", "Duration:" and "Training Load:" lines, each only for a truthy field, in that order. */
  function HeaderLines(w: Workout): seq<string> {
    (if Truthy(w.distance) then ["Distance: " + w.distance.value] else [])
    + (if Truthy(w.duration) then ["Duration: " + w.duration.value] else [])
    + (if Truthy(w.trainingLoad) then ["Training Load: " + w.trainingLoad.value] else [])
  }

  /** `description_parts`: the header lines, then the free text after a newline when there is any. */
  function DescriptionParts(w: Workout): seq<string> {
    HeaderLines(w) + (if w.description != "" then ["\n" + w.description] else [])
  }

  /** The event description: the parts joined by newlines. */
  function EventDescription(w: Workout): string {
    Join("\n", DescriptionParts(w))
  }

  /** The description is empty exactly when the record has none of the four fields. */
  lemma EventDescriptionEmpty(w: Workout)
    ensures EventDescription(w) == "" <==>
      !Truthy(w.distance) && !Truthy(w.duration) && !Truthy(w.trainingLoad) && w.description == ""
  {
    var parts := DescriptionParts(w);
    forall k | 0 <= k < |parts|
      ensures parts[k] != ""
    {
      var h := HeaderLines(w);
      if k < |h| {
        assert h[k][0] in "DT";
      } else {
        assert parts[k] == "\n" + w.description;
      }
    }
    JoinEmpty("\n", parts);
  }

  /**
   * Read line by line, the description gives back the header lines in order
   * and then, when there is free text, an empty line and the lines of the
   * free text (provided no field value spans lines).
   */
  lemma EventDescriptionLines(w: Workout)
    requires Truthy(w.distance) ==> '\n' !in w.distance.value
    requires Truthy(w.duration) ==> '\n' !in w.duration.value
    requires Truthy(w.trainingLoad) ==> '\n' !in w.trainingLoad.value
    ensures var h := HeaderLines(w);
      var lines := Split(EventDescription(w), '\n');
      if w.description == "" then (h == [] ==> lines == [""]) && (h != [] ==> lines == h)
      else lines == h + [""] + Split(w.description, '\n')
  {
    var h := HeaderLines(w);
    forall k | 0 <= k < |h|
      ensures '\n' !in h[k]
    {
      HeaderLineHasNoNewline(w, k);
    }
    assert "\n" == ['\n'];
    if w.description == "" {
      assert DescriptionParts(w) == h;
      if h != [] {
        SplitJoin(h, '\n');
      }
    } else {
      var text := "\n" + w.description;
      assert Split(text, '\n') == [""] + Split(w.description, '\n') by {
        assert text[0] == '\n' && text[1..] == w.description;
      }
      if h == [] {
        assert DescriptionParts(w) == [text];
      } else {
        assert DescriptionParts(w) == h + [text];
        JoinAppend("\n", h, text);
        assert EventDescription(w) == Join(['\n'], h) + ['\n'] + text;
        SplitJoinThen(h, '\n', text);
      }
    }
  }

  lemma HeaderLineHasNoNewline(w: Workout, k: nat)
    requires Truthy(w.distance) ==> '\n' !in w.distance.value
    requires Truthy(w.duration) ==> '\n' !in w.duration.value
    requires Truthy(w.trainingLoad) ==> '\n' !in w.trainingLoad.value
    requires k < |HeaderLines(w)|
    ensures '\n' !in HeaderLines(w)[k]
  {
  }

  /** Joining with one more part appends the separator and that part. */
  lemma {:induction false} JoinAppend(sep: string, parts: seq<string>, last: string)
    requires parts != []
    ensures Join(sep, parts + [last]) == Join(sep, parts) + sep + last
    decreases |parts|
  {
    if |parts| == 1 {
      assert (parts + [last])[1..] == [last];
    } else {
      JoinAppend(sep, parts[1..], last);
      assert (parts + [last])[1..] == parts[1..] + [last];
    }
  }

  /** The description built step by step, as create_ics_file does. */
  method DescribeWorkout(workout: Workout) returns (description: string)
    ensures description == EventDescription(workout)
  {
    var descriptionParts := [];
    if Truthy(workout.distance) {
      descriptionParts := descriptionParts + ["Distance: " + workout.distance.value];
    }
    if Truthy(workout.duration) {
      descriptionParts := descriptionParts + ["Duration: " + workout.duration.value];
    }
    if Truthy(workout.trainingLoad) {
      descriptionParts := descriptionParts + ["Training Load: " + workout.trainingLoad.value];
    }
    assert descriptionParts == HeaderLines(workout);
    if workout.description != "" {
      descriptionParts := descriptionParts + ["\n" + workout.description];
    }
    assert descriptionParts == DescriptionParts(workout);
    description := Join("\n", descriptionParts);
  }

  // ------------------------------------------------------------ events

  function EventFor(w: Workout, date: int): Event {
    Event(w.title, date, date + 1, EventDescription(w))
  }

  function WorkoutsOf(items: seq<PlanItem>): (ws: seq<Workout>)
    ensures |ws| == |items|
  {
    seq(|items|, k requires 0 <= k < |items| => items[k].workout)
  }

  /** The records to turn into events: scheduled when the first has no date (or there are none), else as given. */
  function DatedItems(items: seq<PlanItem>, start: int): (r: seq<PlanItem>)
    ensures |r| == |items|
  {
    if items == [] || items[0].date.None? then
      var s := Schedule(WorkoutsOf(items), start);
      seq(|s|, k requires 0 <= k < |s| => PlanItem(s[k].workout, Some(s[k].date)))
    else items
  }

  /** The index of the first item without a date, or the length when all have one. */
  function FirstUndated(items: seq<PlanItem>): (j: nat)
    ensures j <= |items|
    ensures j < |items| ==> items[j].date.None?
    ensures forall k :: 0 <= k < j ==> items[k].date.Some?
    decreases |items|
  {
    if items == [] then 0
    else if items[0].date.None? then 0
    else 1 + FirstUndated(items[1..])
  }

  /** What create_ics_file puts in the calendar, or the first item whose date is missing. */
  function Emit(items: seq<PlanItem>, start: int): Result<seq<Event>, EmitError> {
    var dated := DatedItems(items, start);
    var j := FirstUndated(dated);
    if j < |dated| then Failure(MissingDate(j))
    else Success(seq(|dated|, k requires 0 <= k < |dated| => EventFor(dated[k].workout, dated[k].date.value)))
  }

  /**
   * The event loop of create_ics_file. Scheduling needs the records of one
   * week to agree on whether they have a weekday (see SameWeekSameKind).
   */
  method CreateIcsEvents(items: seq<PlanItem>, start: int) returns (result: Result<seq<Event>, EmitError>)
    requires items == [] || items[0].date.Some? || SameWeekSameKind(WorkoutsOf(items))
    ensures result == Emit(items, start)
  {
    var workoutsWithDates;
    if items == [] || items[0].date.None? {
      var rich := CalculatePlanDates(WorkoutsOf(items), start);
      workoutsWithDates := seq(|rich|, k requires 0 <= k < |rich| => PlanItem(rich[k].workout, Some(rich[k].date)));
    } else {
      workoutsWithDates := items;
    }
    assert workoutsWithDates == DatedItems(items, start);
    var events := [];
    var i := 0;
    while i < |workoutsWithDates|
      invariant 0 <= i <= |workoutsWithDates|
      invariant i <= FirstUndated(workoutsWithDates)
      invariant |events| == i
      invariant forall k :: 0 <= k < i ==>
        events[k] == EventFor(workoutsWithDates[k].workout, workoutsWithDates[k].date.value)
    {
      var workout := workoutsWithDates[i];
      if workout.date.None? {
        return Failure(MissingDate(i));
      }
      var eventDate := workout.date.value;
      var description := DescribeWorkout(workout.workout);
      events := events + [Event(workout.workout.title, eventDate, eventDate + 1, description)];
      i := i + 1;
    }
    ghost var dated := workoutsWithDates;
    assert events == seq(|dated|, k requires 0 <= k < |dated| => EventFor(dated[k].workout, dated[k].date.value));
    return Success(events);
  }

  // ------------------------------------------------------------ properties

  /**
   * On success there is one event per item, each a one-day event titled by
   * its record; the scheduled path (no items, or a first item without a
   * date) never fails.
   */
  lemma EmitShape(items: seq<PlanItem>, start: int)
    ensures (items == [] || items[0].date.None?) ==> Emit(items, start).Success?
    ensures Emit(items, start).Success? ==>
      var events := Emit(items, start).value;
      var dated := DatedItems(items, start);
      && |events| == |items|
      && forall k :: 0 <= k < |events| ==>
           && events[k].dtend == events[k].dtstart + 1
           && events[k].summary == dated[k].workout.title
           && events[k].description == EventDescription(dated[k].workout)
  {
  }

  /**
   * Items whose first element already has a date are used as given: the
   * events carry their dates in their order, and the loop fails exactly when
   * some item lacks a date, at the first such item.
   */
  lemma EmitAsGiven(items: seq<PlanItem>, start: int)
    requires items != [] && items[0].date.Some?
    ensures Emit(items, start).Success? <==> forall k :: 0 <= k < |items| ==> items[k].date.Some?
    ensures Emit(items, start).Success? ==>
      forall k :: 0 <= k < |items| ==>
        && Emit(items, start).value[k].dtstart == items[k].date.value
        && Emit(items, start).value[k].summary == items[k].workout.title
    ensures Emit(items, start).Failure? ==>
      var j := Emit(items, start).error.index;
      j < |items| && items[j].date.None? && forall k :: 0 <= k < j ==> items[k].date.Some?
  {
  }

  /**
   * Without dates the events follow the schedule: event k is the k-th
   * scheduled record on its scheduled day.
   */
  lemma EmitScheduled(items: seq<PlanItem>, start: int)
    requires items == [] || items[0].date.None?
    ensures var s := Schedule(WorkoutsOf(items), start);
      var events := Emit(items, start).value;
      forall k :: 0 <= k < |events| ==> events[k] == EventFor(s[k].workout, s[k].date)
  {
  }
}
