/**
 * The application's state and its plan-generation handler (App.tsx).
 *
 * The form's four inputs and the four fields the handler drives (`plan`,
 * `isLoading`, `error`, `planStartDate`) are fields of one session object.
 * Generating a plan is a guarded `Begin` step followed by exactly one of
 * `Succeed` or `Fail`; `GeneratePlan` runs the whole sequence with the
 * request made through `GeminiService`. Today's date, the language model's reply and
 * the JSON parser are parameters.
 */
module App {
  import opened Types
  import GeminiService
  import PlanDisplay

  /** A value thrown by the request: an `Error` object with its message, or anything else. */
  datatype Thrown = ErrorObject(message: string) | OtherValue

  const UnexpectedErrorMessage := "An unexpected error occurred."

  const PaceMinutesSeparator := " minutes and "
  const PaceSecondsSuffix := " seconds"

  /** The pace text sent with the request, e.g. "8 minutes and 30 seconds". */
  function FullPace(paceMinutes: string, paceSeconds: string): string
  {
    paceMinutes + PaceMinutesSeparator + paceSeconds + PaceSecondsSuffix
  }

  /**
   * The pace text has the minutes at its head, the seconds just before the
   * closing " seconds", and the fixed separator in between.
   */
  lemma {:induction false} FullPaceLayout(paceMinutes: string, paceSeconds: string)
    ensures var text := FullPace(paceMinutes, paceSeconds);
            |text| == |paceMinutes| + |paceSeconds| + |PaceMinutesSeparator| + |PaceSecondsSuffix| &&
            text[..|paceMinutes|] == paceMinutes &&
            text[|paceMinutes|..|paceMinutes| + |PaceMinutesSeparator|] == PaceMinutesSeparator &&
            text[|text| - |PaceSecondsSuffix| - |paceSeconds|..|text| - |PaceSecondsSuffix|] == paceSeconds
  {
    var text := FullPace(paceMinutes, paceSeconds);
    var m := |paceMinutes|;
    var k := m + |PaceMinutesSeparator|;
    assert text == paceMinutes + PaceMinutesSeparator + paceSeconds + PaceSecondsSuffix;
    assert text[..m] == paceMinutes;
    assert text[m..k] == PaceMinutesSeparator;
    assert text[k..k + |paceSeconds|] == paceSeconds;
  }

  /**
   * Distinct paces give distinct texts, as long as the minutes contain no
   * space (the form's number input holds digits only).
   */
  lemma {:induction false} FullPaceInjective(m1: string, s1: string, m2: string, s2: string)
    requires ' ' !in m1 && ' ' !in m2
    requires FullPace(m1, s1) == FullPace(m2, s2)
    ensures m1 == m2 && s1 == s2
  {
    var text := FullPace(m1, s1);
    FullPaceLayout(m1, s1);
    FullPaceLayout(m2, s2);
    assert text[|m1|] == ' ' && text[|m2|] == ' ';
    assert forall i :: 0 <= i < |m1| ==> text[i] == m1[i];
    assert forall i :: 0 <= i < |m2| ==> text[i] == m2[i];
    assert |m1| == |m2|;
    assert m1 == text[..|m1|] == m2;
  }

  /** The message shown for a thrown value: an error's own message, or a fixed text for anything else. */
  function ErrorMessage(err: Thrown): string
  {
    match err
    case ErrorObject(message) => message
    case OtherValue => UnexpectedErrorMessage
  }

  /** The form's fields hold the race, both parts of the pace and the goal date (none is the empty string). */
  predicate FormComplete(race: string, paceMinutes: string, paceSeconds: string, goalDate: string)
  {
    race != [] && paceMinutes != [] && paceSeconds != [] && goalDate != []
  }

  /** The plan view is shown exactly when there is a plan and a start date. */
  predicate PlanViewShown(plan: Option<RunningPlan>, planStartDate: string)
  {
    plan.Some? && planStartDate != []
  }

  /**
   * Whenever the application shows the plan view, the view renders the
   * plan's weeks; the view's own guard on the start date never hides it.
   */
  lemma ShownPlanRenders(plan: Option<RunningPlan>, planStartDate: string, parseDate: string -> PlanDisplay.Day)
    requires PlanViewShown(plan, planStartDate)
    ensures var v := PlanDisplay.Render(plan.value, planStartDate, parseDate);
            v.Some? && |v.value.weeks| == |plan.value.weeks|
  {
  }

  /** The state of one application instance. */
  class PlanSession {
    var race: string
    var paceMinutes: string
    var paceSeconds: string
    var goalDate: string
    var plan: Option<RunningPlan>
    var isLoading: bool
    var error: Option<string>
    var planStartDate: string

    /** Every field starts empty: no inputs, no plan, not loading, no error, no start date. */
    constructor ()
      ensures race == [] && paceMinutes == [] && paceSeconds == [] && goalDate == []
      ensures plan == None && !isLoading && error == None && planStartDate == []
    {
      race, paceMinutes, paceSeconds, goalDate := [], [], [], [];
      plan, isLoading, error, planStartDate := None, false, None, [];
    }

    /** The form's setters: the four inputs change; nothing else does. */
    method EditForm(newRace: string, newPaceMinutes: string, newPaceSeconds: string, newGoalDate: string)
      modifies this
      ensures race == newRace && paceMinutes == newPaceMinutes
      ensures paceSeconds == newPaceSeconds && goalDate == newGoalDate
      ensures plan == old(plan) && isLoading == old(isLoading)
      ensures error == old(error) && planStartDate == old(planStartDate)
    {
      race, paceMinutes, paceSeconds, goalDate := newRace, newPaceMinutes, newPaceSeconds, newGoalDate;
    }

    /**
     * The start of a submission. With an empty input nothing changes and no
     * request starts. Otherwise loading begins, the error and the previous
     * plan are cleared, the start date becomes today, and the pace text for
     * the request is returned.
     */
    method Begin(todayDate: string) returns (started: bool, fullPace: string)
      modifies this
      ensures started == FormComplete(race, paceMinutes, paceSeconds, goalDate)
      ensures race == old(race) && paceMinutes == old(paceMinutes)
      ensures paceSeconds == old(paceSeconds) && goalDate == old(goalDate)
      ensures !started ==>
                plan == old(plan) && isLoading == old(isLoading) &&
                error == old(error) && planStartDate == old(planStartDate)
      ensures started ==>
                isLoading && error == None && plan == None && planStartDate == todayDate &&
                fullPace == FullPace(paceMinutes, paceSeconds)
    {
      started := FormComplete(race, paceMinutes, paceSeconds, goalDate);
      fullPace := [];
      if !started {
        return;
      }
      isLoading := true;
      error := None;
      plan := None;
      planStartDate := todayDate;
      fullPace := FullPace(paceMinutes, paceSeconds);
    }

    /** The request returned a plan: it becomes the current plan and loading ends. */
    method Succeed(generated: RunningPlan)
      modifies this`plan, this`isLoading
      ensures plan == Some(generated) && !isLoading
    {
      plan := Some(generated);
      isLoading := false;
    }

    /** The request threw: its message becomes the error and loading ends; the plan is left as it is. */
    method Fail(err: Thrown)
      modifies this`error, this`isLoading
      ensures err.ErrorObject? ==> error == Some(err.message)
      ensures err.OtherValue? ==> error == Some(UnexpectedErrorMessage)
      ensures !isLoading
    {
      error := Some(ErrorMessage(err));
      isLoading := false;
    }

    /**
     * The whole submission handler. With an incomplete form nothing changes.
     * Otherwise, once it returns, loading is over, the start date is today,
     * and either the generated plan is shown with no error, or there is no
     * plan and the error is the service's single failure message.
     */
    method GeneratePlan(todayDate: string, generate: string -> Option<string>,
                        parse: string -> Option<RunningPlan>)
      modifies this
      ensures race == old(race) && paceMinutes == old(paceMinutes)
      ensures paceSeconds == old(paceSeconds) && goalDate == old(goalDate)
      ensures !FormComplete(race, paceMinutes, paceSeconds, goalDate) ==>
                plan == old(plan) && isLoading == old(isLoading) &&
                error == old(error) && planStartDate == old(planStartDate)
      ensures FormComplete(race, paceMinutes, paceSeconds, goalDate) ==>
                var r := GeminiService.GenerateRunningPlan(race, FullPace(paceMinutes, paceSeconds),
                                                           goalDate, todayDate, generate, parse);
                !isLoading && planStartDate == todayDate &&
                (r.Success? ==> plan == Some(r.value) && error == None &&
                                (PlanViewShown(plan, planStartDate) <==> todayDate != [])) &&
                (r.Failure? ==> plan == None && error == Some(GeminiService.GenerationFailedMessage) &&
                                !PlanViewShown(plan, planStartDate))
    {
      var started, fullPace := Begin(todayDate);
      if !started {
        return;
      }
      var r := GeminiService.GenerateRunningPlan(race, fullPace, goalDate, todayDate, generate, parse);
      match r
      case Success(generated) =>
        Succeed(generated);
      case Failure(message) =>
        Fail(ErrorObject(message));
    }
  }
}
