/**
 * The canonical workout record both front ends produce (the Python dict with
 * keys week, day_of_week, title, description, duration, distance,
 * training_load).
 */
module Workouts {
  import opened Wrappers

  datatype Workout = Workout(
    week: int,
    dayOfWeek: Option<int>,     // 0 = Monday; None for records of the text parser
    title: string,
    description: string,
    duration: Option<string>,
    distance: Option<string>,
    trainingLoad: Option<string>)

  /** Python truthiness of an optional string field: present and non-empty. */
  predicate Truthy(field: Option<string>) {
    field.Some? && field.value != ""
  }

  /** The weekday the scheduler uses for a record: its day_of_week, or 0 when it has none. */
  function DayOrZero(w: Workout): int {
    w.dayOfWeek.GetOr(0)
  }
}
