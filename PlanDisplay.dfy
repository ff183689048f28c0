/**
 * The plan view's calendar layout (components/PlanDisplay.tsx).
 *
 * A calendar date is a day number, so adding days is integer addition.
 * Week `i` of the plan is laid out as the fixed block of seven days
 * beginning `7 * i` days after the plan's start date, and the `j`-th daily
 * workout of a week is dated `j` days after its week's start. The day label
 * the language model wrote into a workout plays no part in its date.
 */
module PlanDisplay {
  import opened Types

  /** A calendar date, counted in days from a fixed epoch. */
  type Day = int

  /** One rendered daily workout: its label and description as given, and its computed date. */
  datatype DayView = DayView(day: string, workout: string, date: Day)

  /** One rendered week: its header, the displayed date range and its workouts. */
  datatype WeekView = WeekView(
    weekNumber: int,
    summary: string,
    startDate: Day,
    endDate: Day,
    workouts: seq<DayView>)

  /** The rendered plan. */
  datatype PlanView = PlanView(
    title: string,
    introduction: string,
    weeks: seq<WeekView>,
    conclusion: string)

  /** The date `days` days after `date`; `addDays` copies the date before changing it, so it is a function of day numbers. */
  function AddDays(date: Day, days: int): Day
  {
    date + days
  }

  lemma AddDaysZero(date: Day)
    ensures AddDays(date, 0) == date
  {
  }

  lemma AddDaysCompose(date: Day, a: int, b: int)
    ensures AddDays(AddDays(date, a), b) == AddDays(date, a + b)
  {
  }

  /** The first displayed date of week `weekIndex`. */
  function WeekStart(start: Day, weekIndex: nat): Day
  {
    AddDays(start, weekIndex * 7)
  }

  /** The last displayed date of week `weekIndex`. */
  function WeekEnd(start: Day, weekIndex: nat): Day
  {
    AddDays(WeekStart(start, weekIndex), 6)
  }

  /** The date of workout `dayIndex` of week `weekIndex`. */
  function WorkoutDate(start: Day, weekIndex: nat, dayIndex: nat): Day
  {
    AddDays(WeekStart(start, weekIndex), dayIndex)
  }

  /** True when `date` lies in the range displayed in the header of week `weekIndex`. */
  predicate InWeekRange(start: Day, weekIndex: nat, date: Day)
  {
    WeekStart(start, weekIndex) <= date <= WeekEnd(start, weekIndex)
  }

  /** Renders one week: the header's range and a date for each workout, by position. */
  function RenderWeek(week: WeeklyPlan, start: Day, weekIndex: nat): (v: WeekView)
    ensures |v.workouts| == |week.dailyWorkouts|
    ensures v.weekNumber == week.weekNumber && v.summary == week.summary
    ensures v.startDate == WeekStart(start, weekIndex) && v.endDate == WeekEnd(start, weekIndex)
    ensures forall j :: 0 <= j < |v.workouts| ==>
              v.workouts[j].day == week.dailyWorkouts[j].day &&
              v.workouts[j].workout == week.dailyWorkouts[j].workout &&
              v.workouts[j].date == WorkoutDate(start, weekIndex, j)
  {
    var weekStartDate := WeekStart(start, weekIndex);
    var weekEndDate := AddDays(weekStartDate, 6);
    WeekView(week.weekNumber, week.summary, weekStartDate, weekEndDate,
      seq(|week.dailyWorkouts|, j requires 0 <= j < |week.dailyWorkouts| =>
        DayView(week.dailyWorkouts[j].day, week.dailyWorkouts[j].workout, AddDays(weekStartDate, j))))
  }

  /**
   * The plan view. Nothing is rendered when the start date is the empty
   * string; otherwise `parseDate` (the date constructor) turns the start
   * date into a day number and every week is rendered from it.
   */
  function Render(plan: RunningPlan, planStartDate: string, parseDate: string -> Day): (r: Option<PlanView>)
    ensures r.None? <==> planStartDate == []
    ensures r.Some? ==>
              |r.value.weeks| == |plan.weeks| &&
              r.value.title == plan.title && r.value.introduction == plan.introduction &&
              r.value.conclusion == plan.conclusion
    ensures r.Some? ==>
              forall i :: 0 <= i < |plan.weeks| ==>
                r.value.weeks[i] == RenderWeek(plan.weeks[i], parseDate(planStartDate), i)
  {
    if planStartDate == [] then None
    else
      var startDate := parseDate(planStartDate);
      Some(PlanView(plan.title, plan.introduction,
        seq(|plan.weeks|, i requires 0 <= i < |plan.weeks| => RenderWeek(plan.weeks[i], startDate, i)),
        plan.conclusion))
  }

  /** An empty start date renders nothing, whatever the plan. */
  lemma EmptyStartRendersNothing(plan: RunningPlan, parseDate: string -> Day)
    ensures Render(plan, [], parseDate) == None
  {
  }

  /**
   * The header shown for week `i`, whether or not the week has workouts: it
   * carries plan week `i`'s number and summary, starts `7 * i` days after
   * the start date and ends six days after its own start.
   */
  lemma {:induction false} RenderedWeek(plan: RunningPlan, planStartDate: string, parseDate: string -> Day, i: nat)
    requires planStartDate != []
    requires i < |plan.weeks|
    ensures var start := parseDate(planStartDate);
            var w := Render(plan, planStartDate, parseDate).value.weeks[i];
            w.weekNumber == plan.weeks[i].weekNumber && w.summary == plan.weeks[i].summary &&
            w.startDate == start + 7 * i &&
            w.endDate == w.startDate + 6 &&
            |w.workouts| == |plan.weeks[i].dailyWorkouts|
  {
    var w := Render(plan, planStartDate, parseDate).value.weeks[i];
    assert w == RenderWeek(plan.weeks[i], parseDate(planStartDate), i);
  }

  /**
   * Workout `j` of week `i` keeps its label and description and is dated
   * `j` days after the week's start, `7 * i + j` days after the start date.
   */
  lemma {:induction false} RenderedWorkout(plan: RunningPlan, planStartDate: string, parseDate: string -> Day, i: nat, j: nat)
    requires planStartDate != []
    requires i < |plan.weeks| && j < |plan.weeks[i].dailyWorkouts|
    ensures var start := parseDate(planStartDate);
            var w := Render(plan, planStartDate, parseDate).value.weeks[i];
            j < |w.workouts| &&
            w.workouts[j].date == w.startDate + j &&
            w.workouts[j].date == start + 7 * i + j &&
            w.workouts[j].day == plan.weeks[i].dailyWorkouts[j].day &&
            w.workouts[j].workout == plan.weeks[i].dailyWorkouts[j].workout
  {
    RenderedWeek(plan, planStartDate, parseDate, i);
    var w := Render(plan, planStartDate, parseDate).value.weeks[i];
    assert w == RenderWeek(plan.weeks[i], parseDate(planStartDate), i);
  }

  /** Two plans of the same shape get the same week ranges and workout dates, whatever their day labels say. */
  lemma {:induction false} DatesIgnoreDayLabels(p: RunningPlan, q: RunningPlan, planStartDate: string, parseDate: string -> Day)
    requires planStartDate != []
    requires |p.weeks| == |q.weeks|
    requires forall i :: 0 <= i < |p.weeks| ==> |p.weeks[i].dailyWorkouts| == |q.weeks[i].dailyWorkouts|
    ensures var vp := Render(p, planStartDate, parseDate).value;
            var vq := Render(q, planStartDate, parseDate).value;
            |vp.weeks| == |vq.weeks| &&
            forall i :: 0 <= i < |vp.weeks| ==>
              vp.weeks[i].startDate == vq.weeks[i].startDate &&
              vp.weeks[i].endDate == vq.weeks[i].endDate &&
              |vq.weeks[i].workouts| == |vp.weeks[i].workouts|
    ensures var vp := Render(p, planStartDate, parseDate).value;
            var vq := Render(q, planStartDate, parseDate).value;
            forall i, j :: 0 <= i < |vp.weeks| && 0 <= j < |vp.weeks[i].workouts| ==>
              vp.weeks[i].workouts[j].date == vq.weeks[i].workouts[j].date
  {
    var vp := Render(p, planStartDate, parseDate).value;
    var vq := Render(q, planStartDate, parseDate).value;
    forall i | 0 <= i < |vp.weeks|
      ensures vp.weeks[i].startDate == vq.weeks[i].startDate &&
              vp.weeks[i].endDate == vq.weeks[i].endDate &&
              |vq.weeks[i].workouts| == |vp.weeks[i].workouts|
    {
      RenderedWeek(p, planStartDate, parseDate, i);
      RenderedWeek(q, planStartDate, parseDate, i);
    }
    forall i, j | 0 <= i < |vp.weeks| && 0 <= j < |vp.weeks[i].workouts|
      ensures vp.weeks[i].workouts[j].date == vq.weeks[i].workouts[j].date
    {
      RenderedWeek(p, planStartDate, parseDate, i);
      RenderedWorkout(p, planStartDate, parseDate, i, j);
      RenderedWorkout(q, planStartDate, parseDate, i, j);
    }
  }

  /** Consecutive weeks' displayed ranges touch: each week starts the day after the previous one ends. */
  lemma WeeksContiguous(start: Day, i: nat)
    ensures WeekStart(start, i + 1) == WeekEnd(start, i) + 1
    ensures WeekEnd(start, i) == WeekStart(start, i) + 6
  {
  }

  /** Displayed ranges of distinct weeks never overlap, and later weeks lie strictly later. */
  lemma {:induction false} WeeksDisjoint(start: Day, i: nat, k: nat, date: Day)
    requires i < k
    ensures WeekEnd(start, i) < WeekStart(start, k)
    ensures !(InWeekRange(start, i, date) && InWeekRange(start, k, date))
  {
    assert k * 7 >= (i + 1) * 7;
  }

  /** A workout's date lies inside its own week's displayed range exactly when its position is at most 6. */
  lemma WorkoutInOwnWeekIff(start: Day, i: nat, j: nat)
    ensures InWeekRange(start, i, WorkoutDate(start, i, j)) <==> j <= 6
  {
  }

  /**
   * A workout at position `j` is dated inside the displayed range of week
   * `i + j / 7`: from the eighth workout on, a long week's dates run into the
   * following weeks' ranges.
   */
  lemma {:induction false} WorkoutLandsInWeek(start: Day, i: nat, j: nat)
    ensures InWeekRange(start, i + j / 7, WorkoutDate(start, i, j))
    ensures j >= 7 ==> !InWeekRange(start, i, WorkoutDate(start, i, j))
  {
    var q := j / 7;
    assert j == 7 * q + j % 7;
    assert (i + q) * 7 == i * 7 + 7 * q;
  }

  /**
   * When a week holds eight or more workouts and another week follows it,
   * its eighth workout is shown on the same date as the next week's first.
   */
  lemma {:induction false} LongWeekOverlapsNext(plan: RunningPlan, planStartDate: string, parseDate: string -> Day, i: nat)
    requires planStartDate != []
    requires i + 1 < |plan.weeks|
    requires |plan.weeks[i].dailyWorkouts| >= 8 && |plan.weeks[i + 1].dailyWorkouts| >= 1
    ensures var v := Render(plan, planStartDate, parseDate).value;
            v.weeks[i].workouts[7].date == v.weeks[i + 1].workouts[0].date &&
            v.weeks[i].workouts[7].date > v.weeks[i].endDate
  {
    RenderedWorkout(plan, planStartDate, parseDate, i, 7);
    RenderedWorkout(plan, planStartDate, parseDate, i + 1, 0);
    RenderedWeek(plan, planStartDate, parseDate, i);
  }

  /**
   * A first week with `k < 7` workouts still puts any second week seven days
   * after the start, so no workout of any week is dated on the days
   * `start + k .. start + 6`, in a one-week plan as in a longer one.
   */
  lemma {:induction false} ShortFirstWeekLeavesGap(plan: RunningPlan, planStartDate: string, parseDate: string -> Day)
    requires planStartDate != []
    requires |plan.weeks| >= 1 && |plan.weeks[0].dailyWorkouts| < 7
    ensures var start := parseDate(planStartDate);
            var k := |plan.weeks[0].dailyWorkouts|;
            var v := Render(plan, planStartDate, parseDate).value;
            (|v.weeks| >= 2 ==> v.weeks[1].startDate == start + 7) &&
            forall i, j :: 0 <= i < |v.weeks| && 0 <= j < |v.weeks[i].workouts| ==>
              !(start + k <= v.weeks[i].workouts[j].date <= start + 6)
  {
    var start := parseDate(planStartDate);
    var k := |plan.weeks[0].dailyWorkouts|;
    var v := Render(plan, planStartDate, parseDate).value;
    if |v.weeks| >= 2 {
      RenderedWeek(plan, planStartDate, parseDate, 1);
    }
    forall i, j | 0 <= i < |v.weeks| && 0 <= j < |v.weeks[i].workouts|
      ensures !(start + k <= v.weeks[i].workouts[j].date <= start + 6)
    {
      RenderedWorkout(plan, planStartDate, parseDate, i, j);
      if i >= 1 {
        assert 7 * i >= 7;
      }
    }
  }
}
