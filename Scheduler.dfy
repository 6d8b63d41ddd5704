/**
 * calculate_plan_dates: the records are sorted by (week, weekday), the
 * earliest one is anchored to the first day on or after the start date that
 * falls on its weekday, and every record is dated from the Monday of week 1
 * that this anchoring implies.
 *
 * Dates are day numbers of the proleptic Gregorian calendar (day 1 is Monday
 * 1 January of year 1, as Python's date.toordinal counts), so moving by
 * `timedelta(days=n)` is adding n.
 */
module Scheduler {
  import opened Wrappers
  import opened Workouts

  // ------------------------------------------------------------ dates

  /** Python's `date.weekday()` of a day number: 0 is Monday. */
  function Weekday(date: int): (d: int)
    ensures 0 <= d < 7
  {
    (date + 6) % 7
  }

  const DayNames: seq<string> := ["Monday", "Tuesday", "Wednesday", "Thursday", "Friday", "Saturday", "Sunday"]

  /** `strftime('%A')` */
  function WeekdayName(date: int): string {
    DayNames[Weekday(date)]
  }

  /** A record with the date the plan puts it on. */
  datatype DatedWorkout = DatedWorkout(workout: Workout, date: int, weekdayName: string)

  // ------------------------------------------------------------ the sort key

  /** The order of the key (week, day_of_week) with a missing weekday read as 0. */
  predicate KeyLe(a: Workout, b: Workout) {
    a.week < b.week || (a.week == b.week && DayOrZero(a) <= DayOrZero(b))
  }

  /**
   * Python's `<` on the key tuples `(week, day_of_week)`: tuples compare by
   * their first differing element, and None against an int raises TypeError
   * (None here).
   */
  function TupleLess(a: Workout, b: Workout): Option<bool> {
    if a.week != b.week then Some(a.week < b.week)
    else match (a.dayOfWeek, b.dayOfWeek)
      case (None, None) => Some(false)
      case (Some(x), Some(y)) => Some(x < y)
      case _ => None
  }

  /** Records of one week agree on whether they have a weekday, so sorting them raises no TypeError. */
  predicate SameWeekSameKind(ws: seq<Workout>) {
    forall i, j :: 0 <= i < |ws| && 0 <= j < |ws| && ws[i].week == ws[j].week ==>
      ws[i].dayOfWeek.None? == ws[j].dayOfWeek.None?
  }

  /**
   * Python's comparison fails exactly on two records of one week of which one
   * has a weekday and the other has none; otherwise it is the strict order
   * of KeyLe.
   */
  lemma TupleOrderIsKeyOrder(a: Workout, b: Workout)
    ensures TupleLess(a, b).None? <==> a.week == b.week && a.dayOfWeek.None? != b.dayOfWeek.None?
    ensures TupleLess(a, b).Some? ==> (TupleLess(a, b).value <==> !KeyLe(b, a))
  {
  }

  // ------------------------------------------------------------ sorting

  /** Puts x before the first element whose key is not below x's. */
  function Insert(x: Workout, ys: seq<Workout>): (r: seq<Workout>)
    ensures |r| == |ys| + 1
    decreases |ys|
  {
    if ys == [] || KeyLe(x, ys[0]) then [x] + ys else [ys[0]] + Insert(x, ys[1..])
  }

  /** `sorted(workouts, key=...)`: a stable sort by the key. */
  function SortByKey(ws: seq<Workout>): (r: seq<Workout>)
    ensures |r| == |ws|
    decreases |ws|
  {
    if ws == [] then [] else Insert(ws[0], SortByKey(ws[1..]))
  }

  predicate SortedByKey(ws: seq<Workout>) {
    forall i, j :: 0 <= i < j < |ws| ==> KeyLe(ws[i], ws[j])
  }

  /** The records of a sequence with the given key, in their order. */
  function WithKey(ws: seq<Workout>, week: int, day: int): seq<Workout>
    decreases |ws|
  {
    if ws == [] then []
    else (if ws[0].week == week && DayOrZero(ws[0]) == day then [ws[0]] else []) + WithKey(ws[1..], week, day)
  }

  /** Insertion adds the one record and keeps the others. */
  lemma {:induction false} InsertPermutes(x: Workout, ys: seq<Workout>)
    ensures multiset(Insert(x, ys)) == multiset{x} + multiset(ys)
    decreases |ys|
  {
    if ys != [] && !KeyLe(x, ys[0]) {
      InsertPermutes(x, ys[1..]);
      assert ys == [ys[0]] + ys[1..];
    }
  }

  /** Inserting into a sorted sequence keeps it sorted and adds exactly the one record. */
  lemma {:induction false} InsertSorted(x: Workout, ys: seq<Workout>)
    requires SortedByKey(ys)
    ensures SortedByKey(Insert(x, ys))
    ensures multiset(Insert(x, ys)) == multiset{x} + multiset(ys)
    decreases |ys|
  {
    InsertPermutes(x, ys);
    if ys != [] && !KeyLe(x, ys[0]) {
      InsertSorted(x, ys[1..]);
      var tail := Insert(x, ys[1..]);
      assert Insert(x, ys) == [ys[0]] + tail;
      forall k | 0 <= k < |tail|
        ensures KeyLe(ys[0], tail[k])
      {
        InsertHeadBound(x, ys, tail[k]);
      }
    }
  }

  /** Every record of Insert(x, ys[1..]) is x or comes after ys[0] in a sorted ys. */
  lemma InsertHeadBound(x: Workout, ys: seq<Workout>, z: Workout)
    requires SortedByKey(ys) && ys != [] && !KeyLe(x, ys[0])
    requires z in multiset(Insert(x, ys[1..]))
    ensures KeyLe(ys[0], z)
  {
    InsertPermutes(x, ys[1..]);
    if z != x {
      assert z in multiset(ys[1..]);
      var j :| 0 <= j < |ys[1..]| && ys[1..][j] == z;
      assert ys[j + 1] == z;
    }
  }

  /** The sort returns its input in key order. */
  lemma {:induction false} SortByKeySorted(ws: seq<Workout>)
    ensures SortedByKey(SortByKey(ws))
    ensures multiset(SortByKey(ws)) == multiset(ws)
    decreases |ws|
  {
    if ws != [] {
      SortByKeySorted(ws[1..]);
      InsertSorted(ws[0], SortByKey(ws[1..]));
      assert ws == [ws[0]] + ws[1..];
    }
  }

  lemma {:induction false} InsertKeepsKeyOrder(x: Workout, ys: seq<Workout>, week: int, day: int)
    ensures WithKey(Insert(x, ys), week, day) == WithKey([x] + ys, week, day)
    decreases |ys|
  {
    if ys == [] || KeyLe(x, ys[0]) {
    } else {
      var y := ys[0];
      InsertKeepsKeyOrder(x, ys[1..], week, day);
      assert ([y] + Insert(x, ys[1..]))[1..] == Insert(x, ys[1..]);
      assert ([x] + ys[1..])[1..] == ys[1..];
      assert ([x] + ys)[1..] == ys;
    }
  }

  /** The sort is stable: records with equal keys keep their relative order. */
  lemma {:induction false} SortByKeyStable(ws: seq<Workout>, week: int, day: int)
    ensures WithKey(SortByKey(ws), week, day) == WithKey(ws, week, day)
    decreases |ws|
  {
    if ws != [] {
      SortByKeyStable(ws[1..], week, day);
      InsertKeepsKeyOrder(ws[0], SortByKey(ws[1..]), week, day);
      assert ([ws[0]] + SortByKey(ws[1..]))[1..] == SortByKey(ws[1..]);
    }
  }

  // ------------------------------------------------------------ dating

  /** `(first_workout_weekday - start_date.weekday()) % 7` */
  function AnchorShift(firstDay: int, start: int): int {
    (firstDay - Weekday(start)) % 7
  }

  /** The Monday of week 1: the anchored date less the first record's offset. */
  function BaseDate(first: Workout, start: int): int {
    var aligned := start + AnchorShift(DayOrZero(first), start);
    aligned - ((first.week - 1) * 7 + DayOrZero(first))
  }

  /** `((week - 1) * 7) + day_of_week`, a missing weekday counting as 0. */
  function PlanOffset(w: Workout): int {
    (w.week - 1) * 7 + DayOrZero(w)
  }

  function Dated(w: Workout, base: int): DatedWorkout {
    var date := base + PlanOffset(w);
    DatedWorkout(w, date, WeekdayName(date))
  }

  /** What calculate_plan_dates returns. */
  function Schedule(ws: seq<Workout>, start: int): (r: seq<DatedWorkout>)
    ensures |r| == |ws|
  {
    if ws == [] then []
    else
      var sorted := SortByKey(ws);
      var base := BaseDate(sorted[0], start);
      seq(|sorted|, k requires 0 <= k < |sorted| => Dated(sorted[k], base))
  }

  /** The loop of calculate_plan_dates over the sorted records. */
  method CalculatePlanDates(workouts: seq<Workout>, start: int) returns (richWorkouts: seq<DatedWorkout>)
    requires SameWeekSameKind(workouts)
    ensures richWorkouts == Schedule(workouts, start)
  {
    if workouts == [] {
      return [];
    }
    var sortedWorkouts := SortByKey(workouts);
    var firstWorkout := sortedWorkouts[0];
    var firstWorkoutWeekday := firstWorkout.dayOfWeek.GetOr(0);
    var daysShift := (firstWorkoutWeekday - Weekday(start)) % 7;
    var alignedFirstWorkoutDate := start + daysShift;
    var baseDate := alignedFirstWorkoutDate - ((firstWorkout.week - 1) * 7 + firstWorkoutWeekday);
    assert baseDate == BaseDate(sortedWorkouts[0], start);
    richWorkouts := [];
    var i := 0;
    while i < |sortedWorkouts|
      invariant 0 <= i <= |sortedWorkouts|
      invariant |richWorkouts| == i
      invariant forall k :: 0 <= k < i ==> richWorkouts[k] == Dated(sortedWorkouts[k], baseDate)
    {
      var w := sortedWorkouts[i];
      var wd := if w.dayOfWeek.None? then 0 else w.dayOfWeek.value;
      var daysOffset := (w.week - 1) * 7 + wd;
      var currentDate := baseDate + daysOffset;
      assert DatedWorkout(w, currentDate, WeekdayName(currentDate)) == Dated(sortedWorkouts[i], baseDate);
      richWorkouts := richWorkouts + [DatedWorkout(w, currentDate, WeekdayName(currentDate))];
      i := i + 1;
    }
    assert richWorkouts == Schedule(workouts, start);
  }

  // ------------------------------------------------------------ properties

  /**
   * The output is the input in key order, as a permutation, with equal keys
   * in input order; no input gives no output.
   */
  lemma ScheduleOrder(ws: seq<Workout>, start: int)
    ensures ws == [] ==> Schedule(ws, start) == []
    ensures var s := Schedule(ws, start);
      var out := seq(|s|, k requires 0 <= k < |s| => s[k].workout);
      && SortedByKey(out)
      && multiset(out) == multiset(ws)
      && forall week, day :: WithKey(out, week, day) == WithKey(ws, week, day)
  {
    var s := Schedule(ws, start);
    var out := seq(|s|, k requires 0 <= k < |s| => s[k].workout);
    assert out == SortByKey(ws);
    SortByKeySorted(ws);
    forall week, day
      ensures WithKey(out, week, day) == WithKey(ws, week, day)
    {
      SortByKeyStable(ws, week, day);
    }
  }

  /**
   * Two records' dates differ by seven days per week between them plus the
   * difference of their weekdays, a missing weekday counting as Monday.
   */
  lemma DateDifferences(ws: seq<Workout>, start: int, k: nat, l: nat)
    requires k < |ws| && l < |ws|
    ensures var s := Schedule(ws, start);
      s[k].date - s[l].date
      == 7 * (s[k].workout.week - s[l].workout.week) + (DayOrZero(s[k].workout) - DayOrZero(s[l].workout))
  {
  }

  /**
   * The earliest record falls on the first day on or after the start whose
   * weekday is its own (Monday when it has none), and no other day of that
   * week-long window qualifies.
   */
  lemma FirstDateAnchored(ws: seq<Workout>, start: int)
    requires ws != []
    requires 0 <= DayOrZero(SortByKey(ws)[0]) < 7
    ensures var s := Schedule(ws, start);
      var day := DayOrZero(s[0].workout);
      && start <= s[0].date <= start + 6
      && Weekday(s[0].date) == day
      && forall d :: start <= d <= start + 6 && Weekday(d) == day ==> d == s[0].date
  {
    var s := Schedule(ws, start);
    var first := SortByKey(ws)[0];
    var day := DayOrZero(first);
    var shift := AnchorShift(day, start);
    assert s[0] == Dated(first, BaseDate(first, start));
    var date := s[0].date;
    assert date == start + shift && 0 <= shift < 7;
    ShiftLandsOnWeekday(day, start);
    assert Weekday(date) == day;
    forall d | start <= d <= start + 6 && Weekday(d) == day
      ensures d == date
    {
      SameWeekdayWithinAWeek(d, date);
    }
  }

  /** Two days less than a week apart with the same weekday are the same day. */
  lemma SameWeekdayWithinAWeek(a: int, b: int)
    requires -7 < a - b < 7 && Weekday(a) == Weekday(b)
    ensures a == b
  {
    var q := (a + 6) / 7;
    var r := (b + 6) / 7;
    assert a + 6 == 7 * q + Weekday(a);
    assert b + 6 == 7 * r + Weekday(b);
    assert a - b == 7 * (q - r);
  }

  /**
   * Week 1 starts on a Monday: every record falls on its own weekday, taken
   * modulo 7, and a record without a weekday falls on a Monday.
   */
  lemma DatesKeepWeekdays(ws: seq<Workout>, start: int, k: nat)
    requires k < |ws|
    ensures var s := Schedule(ws, start);
      && Weekday(s[k].date) == DayOrZero(s[k].workout) % 7
      && s[k].weekdayName == DayNames[DayOrZero(s[k].workout) % 7]
      && (s[k].workout.dayOfWeek.None? ==> s[k].weekdayName == "Monday")
  {
    var sorted := SortByKey(ws);
    var base := BaseDate(sorted[0], start);
    BaseIsMonday(sorted[0], start);
    assert Schedule(ws, start)[k] == Dated(sorted[k], base);
    DatedFromMonday(sorted[k], base);
  }

  /** Dated from a Monday, a record falls on its weekday modulo 7 and carries that day's name. */
  lemma DatedFromMonday(w: Workout, base: int)
    requires Weekday(base) == 0
    ensures var d := Dated(w, base);
      && Weekday(d.date) == DayOrZero(w) % 7
      && d.weekdayName == DayNames[DayOrZero(w) % 7]
      && (w.dayOfWeek.None? ==> d.weekdayName == "Monday")
  {
    var date := base + PlanOffset(w);
    WeekdayPlus(base, PlanOffset(w));
    WeekOffset(w.week - 1, DayOrZero(w));
    assert Weekday(date) == DayOrZero(w) % 7;
  }

  /** The base date of any first record is a Monday. */
  lemma BaseIsMonday(first: Workout, start: int)
    ensures Weekday(BaseDate(first, start)) == 0
  {
    var day := DayOrZero(first);
    var aligned := start + AnchorShift(day, start);
    ShiftLandsOnWeekday(day, start);
    WeekdayMinus(aligned, (first.week - 1) * 7 + day);
    WeekOffset(first.week - 1, day);
  }

  lemma WeekOffset(weeks: int, day: int)
    ensures (weeks * 7 + day) % 7 == day % 7
  {
  }

  lemma ShiftLandsOnWeekday(day: int, start: int)
    ensures Weekday(start + AnchorShift(day, start)) == day % 7
  {
  }

  lemma WeekdayMinus(a: int, n: int)
    ensures Weekday(a - n) == (Weekday(a) - n) % 7
  {
  }

  lemma WeekdayPlus(a: int, n: int)
    ensures Weekday(a + n) == (Weekday(a) + n) % 7
  {
  }

  /** With every weekday in 0..6, dates follow the order of the records. */
  lemma DatesAscend(ws: seq<Workout>, start: int)
    requires forall i :: 0 <= i < |ws| ==> 0 <= DayOrZero(ws[i]) < 7
    ensures var s := Schedule(ws, start);
      forall k, l :: 0 <= k < l < |s| ==> s[k].date <= s[l].date
  {
    var s := Schedule(ws, start);
    var sorted := SortByKey(ws);
    SortByKeySorted(ws);
    forall k, l | 0 <= k < l < |s|
      ensures s[k].date <= s[l].date
    {
      assert sorted[k] in multiset(ws) && sorted[l] in multiset(ws);
      assert KeyLe(sorted[k], sorted[l]);
    }
  }
}
