# Pace Perfect: plan generation and plan layout, in Dafny

Pace Perfect is a single-page running-plan generator. The user picks a race, a
goal date and a target pace. The application asks a language model (Gemini)
for a multi-week plan and shows it week by week, with a calendar date against
every workout. This project models the three pieces of logic behind that and
proves their properties:

- **Plan layout** (`PlanDisplay.dfy`, from `components/PlanDisplay.tsx`).
  A date is a day number, so adding days is addition. Week `i` is the fixed
  block of seven days starting `7 * i` days after the plan's start date.
  Workout `j` of a week is dated `j` days after the week's start. The language model's
  day-of-week label is carried through but never used for dating. Nothing is
  rendered when the start date is the empty string.
- **Request strings** (`GeminiService.dfy`, from `services/geminiService.ts`).
  This covers the display name of the race, the prompt template, the cleaning
  of the reply (trim, then drop a leading "```json" line and a trailing fence)
  and the mapping of every failure to one fixed message. The request and the
  JSON parser are function parameters.
- **The submission handler** (`App.dfy`, from `App.tsx`). The class
  `PlanSession` holds the form inputs and the fields `plan`, `isLoading`,
  `error` and `planStartDate`. A submission is a guarded `Begin` followed by
  `Succeed` or `Fail`. `GeneratePlan` runs the whole sequence and states the
  final state when the request throws and when it returns a plan.

`Types.dfy` holds the plan records of `types.ts` and the `Option` and
`Result` wrappers.

Weeks are laid out as fixed seven-day blocks whatever their number of
workouts; `ShortFirstWeekLeavesGap` and `LongWeekOverlapsNext` show what that
means for a short first week and for a week with more than seven workouts.

## Model

| member | source | states |
|---|---|---|
| PlanDisplay.AddDays | components/PlanDisplay.tsx:13-17 | the date `n` days after a date, on day numbers; see AddDaysZero, AddDaysCompose |
| PlanDisplay.WeekStart | components/PlanDisplay.tsx:39 | week `i` starts `7 * i` days after the start date; see RenderedWeek, WeeksContiguous, WeeksDisjoint |
| PlanDisplay.WeekEnd | components/PlanDisplay.tsx:40 | week `i`'s displayed range ends six days after its start; see WeeksContiguous, WeeksDisjoint |
| PlanDisplay.WorkoutDate | components/PlanDisplay.tsx:54 | workout `j` of week `i` is dated `j` days after the week's start; see RenderedWorkout, WorkoutInOwnWeekIff, WorkoutLandsInWeek |
| PlanDisplay.InWeekRange | components/PlanDisplay.tsx:46-48 | a date lies between a week's displayed start and end, inclusive; see WeeksDisjoint, WorkoutInOwnWeekIff |
| PlanDisplay.AddDaysZero | components/PlanDisplay.tsx:13-17 | adding zero days gives the same date |
| PlanDisplay.AddDaysCompose | components/PlanDisplay.tsx:13-17 | adding `a` days and then `b` days equals adding `a + b` days |
| PlanDisplay.RenderWeek | components/PlanDisplay.tsx:38-65 | a rendered week keeps the week's number and summary, has one entry per daily workout, keeps each workout's label and description, shows the range from `WeekStart` to `WeekEnd` of its index, and dates workout `j` at `WorkoutDate` of that index and `j` |
| PlanDisplay.Render | components/PlanDisplay.tsx:19-38 | nothing is rendered exactly when the start date is empty; otherwise there is one rendered week per plan week, rendered week `i` is plan week `i` rendered from the parsed start date, and the title, introduction and conclusion are kept |
| PlanDisplay.EmptyStartRendersNothing | components/PlanDisplay.tsx:20-28 | an empty start date renders nothing, for every plan |
| PlanDisplay.RenderedWeek | components/PlanDisplay.tsx:38-50 | every week, with or without workouts, keeps its number and summary, starts `7 * i` days after the start date and ends 6 days after its start |
| PlanDisplay.RenderedWorkout | components/PlanDisplay.tsx:52-61 | workout `j` of week `i` is dated `7 * i + j` days after the start date (`j` after its week's start) and keeps its own label and description |
| PlanDisplay.DatesIgnoreDayLabels | components/PlanDisplay.tsx:39-54 | two plans with the same shape get identical week ranges (for every week, including empty ones) and identical workout dates, whatever their day labels say |
| PlanDisplay.WeeksContiguous | components/PlanDisplay.tsx:39-40 | each week starts the day after the previous week ends, and each range spans seven days |
| PlanDisplay.WeeksDisjoint | components/PlanDisplay.tsx:39-40 | an earlier week ends before any later week starts, so no date lies in two weeks' ranges |
| PlanDisplay.WorkoutInOwnWeekIff | components/PlanDisplay.tsx:39-54 | a workout's date lies inside its own week's displayed range if and only if its position is at most 6 |
| PlanDisplay.WorkoutLandsInWeek | components/PlanDisplay.tsx:39-54 | the workout at position `j` of week `i` falls inside week `i + j / 7`'s range, and outside its own week's range from position 7 on |
| PlanDisplay.LongWeekOverlapsNext | components/PlanDisplay.tsx:39-54 | in a week with eight or more workouts, the eighth gets the same date as the next week's first workout, after the week's displayed end |
| PlanDisplay.ShortFirstWeekLeavesGap | components/PlanDisplay.tsx:39-54 | with `k < 7` workouts in the first week, a second week (if any) still starts at start + 7, and no workout of any week is dated from start + k to start + 6 |
| GeminiService.IndexOf | services/geminiService.ts:45 | the first position of a character: -1 exactly when it is absent; otherwise that position holds it and no earlier one does |
| GeminiService.ReplaceFirst | services/geminiService.ts:45 | string `replace` with a string pattern: the length is kept, only the first occurrence is replaced, and every other character is kept |
| GeminiService.ReplaceFirstAt | services/geminiService.ts:45 | when position `k` holds the first occurrence, the replacement splices the new character in at `k` |
| GeminiService.UpperAscii | services/geminiService.ts:45 | `toUpperCase` of one character, for `a`-`z` only; see RaceNameShape |
| GeminiService.RaceName | services/geminiService.ts:45 | "5k" becomes "5K"; any other id gets its head upper-cased and the first hyphen of its tail turned into a space; see RaceNameFiveK, RaceNameShape, HalfMarathonName, LaterHyphensKept, RaceNameEmpty |
| GeminiService.RaceNameFiveK | services/geminiService.ts:45 | the identifier "5k" is shown as "5K" |
| GeminiService.RaceNameShape | services/geminiService.ts:45 | for any other identifier, the length is kept and the first character is upper-cased; the first hyphen after position 0 becomes a space; every other character, including a leading hyphen and later hyphens, is kept |
| GeminiService.HalfMarathonName | services/geminiService.ts:45 | "half-marathon" is shown as "Half marathon" |
| GeminiService.LaterHyphensKept | services/geminiService.ts:45 | a hyphen at position `i` stays a hyphen when another hyphen sits at a position `h` with `1 <= h < i` |
| GeminiService.RaceNameEmpty | services/geminiService.ts:45 | the empty identifier gives the empty name |
| GeminiService.Prompt | services/geminiService.ts:46-53 | the fixed coaching instruction with the race name, pace, goal date and today's date filled in; see PromptMentionsInputs |
| GeminiService.PromptMentionsInputs | services/geminiService.ts:46-53 | the prompt contains the race name, the pace, the goal date and today's date verbatim; it opens with the coaching instruction and race name and closes with today's date and the fixed rules |
| GeminiService.IsJsSpace | services/geminiService.ts:66 | the characters `trim` removes: ECMAScript white space and line terminators; see TrimStartSuffix, TrimEndPrefix |
| GeminiService.TrimStart | services/geminiService.ts:66 | drops leading white space; see TrimStartSuffix |
| GeminiService.TrimEnd | services/geminiService.ts:66 | drops trailing white space; see TrimEndPrefix |
| GeminiService.Trim | services/geminiService.ts:66 | `trim`: drops white space at both ends; see TrimInfix, TrimUnpadded, TrimPadded |
| GeminiService.TrimStartSuffix | services/geminiService.ts:66 | trimming the start leaves a suffix of the text that starts with a non-space, and everything removed is white space |
| GeminiService.TrimEndPrefix | services/geminiService.ts:66 | trimming the end leaves a prefix of the text that ends with a non-space, and everything removed is white space |
| GeminiService.TrimInfix | services/geminiService.ts:66 | the trimmed reply is a contiguous part of the reply with no white space at either end |
| GeminiService.TrimUnpadded | services/geminiService.ts:66 | text with no white space at either end is its own trim |
| GeminiService.TrimPadded | services/geminiService.ts:66 | trimming removes exactly the white space around a core that has none at its ends |
| GeminiService.StripFences | services/geminiService.ts:66-68 | trims the reply, then drops a leading "```json" line and a trailing newline-and-fence, each only at the very start or end; see StripFencesRoundTrip, StripFencesUnfenced, StripFencesInfix, StripPaddedFences |
| GeminiService.StripFencesRoundTrip | services/geminiService.ts:66-68 | for every body `b`, cleaning "```json\n" + b + "\n```" gives back `b` |
| GeminiService.StripFencesUnfenced | services/geminiService.ts:66-68 | a trimmed reply with neither the opening nor the closing fence is returned unchanged |
| GeminiService.StripFencesInfix | services/geminiService.ts:66-68 | the cleaned text is a contiguous part of the trimmed reply and never longer than it |
| GeminiService.StripPaddedFences | services/geminiService.ts:66-68 | a fenced body with any white space before and after the fences comes back unchanged |
| GeminiService.GenerateRunningPlan | services/geminiService.ts:44-75 | every failure of the request or of parsing is reported with the one fixed message |
| GeminiService.GenerateSucceedsIff | services/geminiService.ts:55-74 | generation succeeds if and only if the language model answers and the cleaned reply parses, and then it returns the parsed plan |
| GeminiService.GenerateFromFencedReply | services/geminiService.ts:55-70 | a reply that wraps a plan's JSON in a fence, with white space around it, yields that plan |
| App.FullPace | App.tsx:31 | the pace text "<minutes> minutes and <seconds> seconds"; see FullPaceLayout, FullPaceInjective |
| App.FormComplete | App.tsx:22 | the submission guard: race, both pace parts and the goal date are all non-empty; see PlanSession.Begin, PlanSession.GeneratePlan |
| App.ErrorMessage | App.tsx:37-41 | an `Error`'s own message, or "An unexpected error occurred." for any other thrown value; see PlanSession.Fail |
| App.PlanViewShown | App.tsx:83 | the plan view is shown exactly when there is a plan and a non-empty start date; see ShownPlanRenders, PlanSession.GeneratePlan |
| App.FullPaceLayout | App.tsx:31 | the pace text is the minutes, then " minutes and ", then the seconds, then " seconds" |
| App.FullPaceInjective | App.tsx:31 | different minutes or seconds give different pace texts when the minutes hold no space |
| App.ShownPlanRenders | App.tsx:83 | whenever the application shows the plan view, the view renders every week of the plan |
| App.PlanSession.constructor | App.tsx:10-17 | all inputs and the start date start empty; there is no plan, no error, and nothing is loading |
| App.PlanSession.EditForm | App.tsx:10-13 | the form's setters change the four inputs and nothing else |
| App.PlanSession.Begin | App.tsx:20-31 | with any empty input nothing changes; otherwise loading starts, the error and the plan are cleared, the start date becomes today and the pace text is built |
| App.PlanSession.Succeed | App.tsx:33-44 | the generated plan becomes the plan and loading ends; the error and the start date are untouched |
| App.PlanSession.Fail | App.tsx:36-44 | an `Error`'s message, or "An unexpected error occurred." for any other thrown value, becomes the error, and loading ends; the plan is untouched |
| App.PlanSession.GeneratePlan | App.tsx:20-45 | an incomplete form changes nothing; otherwise loading ends, the start date is today, and either the plan is set and shown with no error, or there is no plan and the error is the single failure message |

## Left out

- `formatDate` (components/PlanDisplay.tsx:9-11): it depends on the locale, so dates stay day numbers.
- Date parsing and the clock: `new Date(...)`, `toISOString` and the `T00:00:00` time-zone handling are library calls. The start date stays a string in the state. The plan view gets a `parseDate` function parameter. Today's date is a parameter of `Begin` and `GeneratePlan`. Invalid dates (`NaN`) are not modelled.
- The Gemini SDK call, its response schema, the model name and the temperature (services/geminiService.ts:1-42, 56-64): a foreign service. The `generate` parameter stands for it. `None` means the call threw, for example on a missing `text`.
- The `API_KEY` check (services/geminiService.ts:4-6): configuration that fails at start-up.
- `JSON.parse` and the unchecked `as RunningPlan` cast (services/geminiService.ts:70): the `parse` parameter stands for both. A reply that parses to JSON of the wrong shape is not distinguished from a well-formed plan.
- App.PlanSession.GeneratePlan: a third outcome is not captured. A cleaned reply such as `null`, `false`, `0` or `""` parses without throwing (services/geminiService.ts:70) and is returned as the plan; App.tsx:35 then stores a falsy plan with no error, so App.tsx:83 shows neither a plan nor an error. Likewise a non-null value without `weeks` makes the plan view throw (components/PlanDisplay.tsx:38). The `parse` parameter yields either a well-formed plan or `None`, so the contract speaks only of the thrown and the well-formed cases.
- `console.error` (services/geminiService.ts:73): logging only.
- GeminiService.RaceNameShape: upper-casing covers ASCII `a`-`z` only. `toUpperCase` also maps other letters, and for some (such as `ß`) it changes the length. Race identifiers come from a fixed list of ASCII ids.
- async/await and React's scheduling of state updates: the handler is modelled as its sequence of transitions. Overlapping submissions are not modelled. The form disables its button while loading, but the handler has no such guard, and neither does `Begin`.
- JSX markup, styling, icons, the spinner and the form widgets (components/PlanForm.tsx, components/IconComponents.tsx, components/LoadingSpinner.tsx). The form's validity test repeats the handler's guard, which `FormComplete` models.
- The `status` and `actualWorkout` fields of a daily workout are carried in the data model. None of the code modelled here reads or writes them.
