/**
 * The plan data exchanged between the generation service, the application
 * state and the plan view (types.ts), plus the optional and result wrappers
 * the other modules use.
 */
module Types {

  /** A value that may be absent (`null`, `undefined` or an empty optional field). */
  datatype Option<T> = None | Some(value: T)

  /** The outcome of an operation that either yields a value or throws an error with a message. */
  datatype Result<T> = Success(value: T) | Failure(error: string)

  /** The two logged outcomes a daily workout may carry. */
  datatype Status = Completed | Skipped

  /** One day's slot of the plan: a day-of-week label chosen by the language model and the planned workout. */
  datatype DailyWorkout = DailyWorkout(
    day: string,
    workout: string,
    status: Option<Status>,
    actualWorkout: Option<string>)

  /** One week of the plan, in the order the language model returned it. */
  datatype WeeklyPlan = WeeklyPlan(
    weekNumber: int,
    summary: string,
    dailyWorkouts: seq<DailyWorkout>)

  /** A whole generated plan. */
  datatype RunningPlan = RunningPlan(
    title: string,
    introduction: string,
    weeks: seq<WeeklyPlan>,
    conclusion: string)
}
