/**
 * The string handling around the plan-generation request
 * (services/geminiService.ts): the display name of the chosen race, the
 * prompt built from the user's inputs, the removal of a markdown code fence
 * from the language model's reply, and the single error every failure is reported as.
 *
 * The request itself and the JSON parser are parameters: `generate` maps a
 * prompt to the reply text, or to `None` when the request throws, and
 * `parse` maps a text to the plan it encodes, or to `None` when it is not
 * valid JSON.
 */
module GeminiService {
  import opened Types

  /** True when `x` occurs in `s` as a contiguous block. */
  predicate IsInfix(x: string, s: string)
  {
    exists i, j :: 0 <= i <= j <= |s| && s[i..j] == x
  }

  predicate StartsWith(s: string, prefix: string)
  {
    |prefix| <= |s| && s[..|prefix|] == prefix
  }

  predicate EndsWith(s: string, suffix: string)
  {
    |suffix| <= |s| && s[|s| - |suffix|..] == suffix
  }

  // ---------------------------------------------------------------------------
  // Race name
  // ---------------------------------------------------------------------------

  /** `toUpperCase` on one character, for the ASCII range: only `a`..`z` change. */
  function UpperAscii(c: char): char
  {
    if 'a' <= c <= 'z' then (c as int - 32) as char else c
  }

  /** The index of the first occurrence of `c` in `s`, or -1 when there is none. */
  function IndexOf(s: string, c: char): (k: int)
    ensures -1 <= k < |s|
    ensures k == -1 <==> c !in s
    ensures k >= 0 ==> s[k] == c && forall i :: 0 <= i < k ==> s[i] != c
  {
    if s == [] then -1
    else if s[0] == c then 0
    else
      var k := IndexOf(s[1..], c);
      if k < 0 then -1 else k + 1
  }

  /**
   * `String.replace` with a one-character string pattern: only the first
   * occurrence of `from` is replaced; every other character is kept.
   */
  function ReplaceFirst(s: string, from: char, to: char): (r: string)
    ensures |r| == |s|
    ensures from !in s ==> r == s
    ensures from in s ==>
              var k := IndexOf(s, from);
              r[k] == to && (forall i :: 0 <= i < k ==> s[i] != from) &&
              forall i :: 0 <= i < |s| && i != k ==> r[i] == s[i]
  {
    var k := IndexOf(s, from);
    if k < 0 then s else s[..k] + [to] + s[k + 1..]
  }

  /**
   * The race's display name: "5k" becomes "5K"; any other identifier gets
   * its first character upper-cased and the first hyphen after it turned
   * into a space.
   */
  function RaceName(race: string): string
  {
    if race == "5k" then "5K"
    else if race == [] then []
    else [UpperAscii(race[0])] + ReplaceFirst(race[1..], '-', ' ')
  }

  lemma RaceNameFiveK()
    ensures RaceName("5k") == "5K"
  {
  }

  /**
   * For any identifier other than "5k": the length is kept, the first
   * character is upper-cased, the first hyphen at a position after 0 (if
   * any) becomes a space, and every other character is kept, including a
   * leading hyphen and all later hyphens.
   */
  lemma {:induction false} RaceNameShape(race: string)
    requires race != "5k"
    ensures var name := RaceName(race);
            |name| == |race| &&
            (race != [] ==> name[0] == UpperAscii(race[0])) &&
            forall i :: 1 <= i < |race| ==>
              name[i] == (if '-' in race[1..] && i == IndexOf(race[1..], '-') + 1 then ' ' else race[i])
  {
    if race != [] {
      var name := RaceName(race);
      var rest := ReplaceFirst(race[1..], '-', ' ');
      assert name == [UpperAscii(race[0])] + rest;
      forall i | 1 <= i < |race|
        ensures name[i] == (if '-' in race[1..] && i == IndexOf(race[1..], '-') + 1 then ' ' else race[i])
      {
        assert name[i] == rest[i - 1];
        assert race[1..][i - 1] == race[i];
      }
    }
  }

  /** The first occurrence is found by its position alone. */
  lemma {:induction false} ReplaceFirstAt(s: string, from: char, to: char, k: nat)
    requires k < |s| && s[k] == from && forall i :: 0 <= i < k ==> s[i] != from
    ensures ReplaceFirst(s, from, to) == s[..k] + [to] + s[k + 1..]
  {
  }

  /** Step of `HalfMarathonName`: the upper-cased head joined to the replaced tail spells "Half marathon". */
  lemma HalfMarathonSpelling()
    ensures ['H'] + ("alf" + [' '] + "marathon") == "Half marathon"
  {
  }

  /** Step of `HalfMarathonName`: the tail "alf-marathon" has its only hyphen replaced by a space. */
  lemma HalfMarathonReplace()
    ensures ReplaceFirst("alf-marathon", '-', ' ') == "alf" + [' '] + "marathon"
  {
    var rest := "alf-marathon";
    assert rest[..3] == "alf" && rest[3] == '-' && rest[4..] == "marathon";
    ReplaceFirstAt(rest, '-', ' ', 3);
  }

  /** The hyphen in a multi-word identifier becomes a space. */
  lemma HalfMarathonName()
    ensures RaceName("half-marathon") == "Half marathon"
  {
    var race := "half-marathon";
    assert race != "5k" && race[0] == 'h' && race[1..] == "alf-marathon";
    assert UpperAscii('h') == 'H';
    HalfMarathonReplace();
    HalfMarathonSpelling();
  }

  /** Only the first hyphen after position 0 is replaced; later hyphens stay. */
  lemma {:induction false} LaterHyphensKept(race: string, h: nat, i: nat)
    requires race != "5k" && 1 <= h < i < |race|
    requires race[h] == '-' && race[i] == '-'
    ensures RaceName(race)[i] == '-'
  {
    var rest := race[1..];
    var k := IndexOf(rest, '-');
    assert rest[h - 1] == '-';
    assert k <= h - 1;
    assert RaceName(race) == [UpperAscii(race[0])] + ReplaceFirst(rest, '-', ' ');
    assert RaceName(race)[i] == ReplaceFirst(rest, '-', ' ')[i - 1];
  }

  /** The empty identifier yields the empty name. */
  lemma RaceNameEmpty()
    ensures RaceName([]) == []
  {
  }

  // ---------------------------------------------------------------------------
  // Prompt
  // ---------------------------------------------------------------------------

  // The fixed text of the prompt, in short pieces; the values are filled in between
  // PromptIntro, PromptPace, PromptGoal, PromptToday and PromptRules.
  const PromptIntro := "You are an expert running coach. " + "Create a personalized training plan for a runner aiming to complete a "
  const PromptPace := ".\nTheir target race pace is "
  const PromptGoal := " per mile.\nThe runner's goal race is on "
  const PromptToday := ".\nToday's date is "
  const RuleWeekly := "The plan should be structured weekly and start from today, " + "leading up to the race date. "
  const RuleBuildUp := "Ensure the plan gradually builds in intensity and mileage " + "to prevent injury and have the runner peak for race day. "
  const RuleDuration := "The total duration of the plan must fit within the timeframe " + "from today to the goal date. "
  const RuleTaper := "The final week should be a taper week."
  const RuleWorkouts := "Provide clear, concise descriptions for each day's workout, " + "including a mix of easy runs, long runs, speed work " + "(like intervals or tempo runs), and rest days."
  const PromptRules := ".\n\n" + RuleWeekly + RuleBuildUp + RuleDuration + RuleTaper + "\n\n" + RuleWorkouts

  /** The instruction sent to the language model, with the race name, pace and both dates filled in. */
  function Prompt(race: string, pace: string, goalDate: string, todayDate: string): string
  {
    PromptIntro + RaceName(race) + PromptPace + pace + PromptGoal + goalDate + PromptToday + todayDate + PromptRules
  }

  /** Each value filled into a five-part template occurs in the result, and the template's ends frame it. */
  lemma {:induction false} FilledTemplate(t0: string, v0: string, t1: string, v1: string, t2: string,
                                          v2: string, t3: string, v3: string, t4: string)
    ensures var p := t0 + v0 + t1 + v1 + t2 + v2 + t3 + v3 + t4;
            IsInfix(v0, p) && IsInfix(v1, p) && IsInfix(v2, p) && IsInfix(v3, p) &&
            StartsWith(p, t0 + v0) && EndsWith(p, v3 + t4)
  {
    var p := t0 + v0 + t1 + v1 + t2 + v2 + t3 + v3 + t4;
    var k0 := |t0|;
    var k1 := k0 + |v0| + |t1|;
    var k2 := k1 + |v1| + |t2|;
    var k3 := k2 + |v2| + |t3|;
    assert p[k0..k0 + |v0|] == v0;
    assert p[k1..k1 + |v1|] == v1;
    assert p[k2..k2 + |v2|] == v2;
    assert p[k3..k3 + |v3|] == v3;
    assert p[..k0 + |v0|] == t0 + v0;
    assert p[k3..] == v3 + t4;
  }

  /** The prompt contains the race name, the pace and both dates verbatim. */
  lemma PromptMentionsInputs(race: string, pace: string, goalDate: string, todayDate: string)
    ensures var p := Prompt(race, pace, goalDate, todayDate);
            IsInfix(RaceName(race), p) && IsInfix(pace, p) &&
            IsInfix(goalDate, p) && IsInfix(todayDate, p)
    ensures var p := Prompt(race, pace, goalDate, todayDate);
            StartsWith(p, PromptIntro + RaceName(race)) && EndsWith(p, todayDate + PromptRules)
  {
    FilledTemplate(PromptIntro, RaceName(race), PromptPace, pace, PromptGoal, goalDate, PromptToday, todayDate, PromptRules);
  }

  // ---------------------------------------------------------------------------
  // Reply cleaning
  // ---------------------------------------------------------------------------

  /** The characters `String.prototype.trim` removes: white space and line terminators. */
  predicate IsJsSpace(c: char)
  {
    || ('\t' <= c <= '\r')
    || c == ' ' || c == '\U{00A0}' || c == '\U{1680}'
    || ('\U{2000}' <= c <= '\U{200A}')
    || c == '\U{2028}' || c == '\U{2029}' || c == '\U{202F}' || c == '\U{205F}'
    || c == '\U{3000}' || c == '\U{FEFF}'
  }

  /** `s` without its leading white space. */
  function TrimStart(s: string): string
  {
    if s != [] && IsJsSpace(s[0]) then TrimStart(s[1..]) else s
  }

  /** `s` without its trailing white space. */
  function TrimEnd(s: string): string
  {
    if s != [] && IsJsSpace(s[|s| - 1]) then TrimEnd(s[..|s| - 1]) else s
  }

  /** Trimming the start leaves a suffix of `s` that begins with a non-space, and removes only white space. */
  lemma {:induction false} TrimStartSuffix(s: string)
    ensures var r := TrimStart(s);
            |r| <= |s| && r == s[|s| - |r|..] &&
            (r != [] ==> !IsJsSpace(r[0])) &&
            forall i :: 0 <= i < |s| - |r| ==> IsJsSpace(s[i])
  {
    if s != [] && IsJsSpace(s[0]) {
      TrimStartSuffix(s[1..]);
      var r := TrimStart(s[1..]);
      assert s[1..][|s| - 1 - |r|..] == s[|s| - |r|..];
      forall i | 1 <= i < |s| - |r|
        ensures IsJsSpace(s[i])
      {
        assert s[1..][i - 1] == s[i];
      }
    }
  }

  /** Trimming the end leaves a prefix of `s` that ends with a non-space, and removes only white space. */
  lemma {:induction false} TrimEndPrefix(s: string)
    ensures var r := TrimEnd(s);
            |r| <= |s| && r == s[..|r|] &&
            (r != [] ==> !IsJsSpace(r[|r| - 1])) &&
            forall i :: |r| <= i < |s| ==> IsJsSpace(s[i])
  {
    if s != [] && IsJsSpace(s[|s| - 1]) {
      TrimEndPrefix(s[..|s| - 1]);
      var r := TrimEnd(s[..|s| - 1]);
      assert s[..|s| - 1][..|r|] == s[..|r|];
      forall i | |r| <= i < |s| - 1
        ensures IsJsSpace(s[i])
      {
        assert s[..|s| - 1][i] == s[i];
      }
    }
  }

  /** `String.prototype.trim`: the text without white space at either end. */
  function Trim(s: string): string
  {
    TrimEnd(TrimStart(s))
  }

  /** The trimmed text is a contiguous block of `s` with no white space at either end. */
  lemma {:induction false} TrimInfix(s: string)
    ensures IsInfix(Trim(s), s)
    ensures Trim(s) != [] ==> !IsJsSpace(Trim(s)[0]) && !IsJsSpace(Trim(s)[|Trim(s)| - 1])
  {
    var a := TrimStart(s);
    var r := TrimEnd(a);
    TrimStartSuffix(s);
    TrimEndPrefix(a);
    var i := |s| - |a|;
    assert r == s[i..][..|r|] == s[i..i + |r|];
    assert r != [] ==> r[0] == a[0];
  }

  /** Text that neither begins nor ends with white space is its own trim. */
  lemma TrimUnpadded(s: string)
    requires s != [] && !IsJsSpace(s[0]) && !IsJsSpace(s[|s| - 1])
    ensures Trim(s) == s
  {
  }

  /** Trimming removes exactly the white space around a core that does not begin or end with any. */
  lemma {:induction false} TrimPadded(pre: string, core: string, post: string)
    requires forall i :: 0 <= i < |pre| ==> IsJsSpace(pre[i])
    requires forall i :: 0 <= i < |post| ==> IsJsSpace(post[i])
    requires core != [] && !IsJsSpace(core[0]) && !IsJsSpace(core[|core| - 1])
    ensures Trim(pre + core + post) == core
  {
    var s := pre + core + post;
    assert s[|pre|] == core[0];
    assert forall i :: 0 <= i < |pre| ==> s[i] == pre[i];
    var a := TrimStart(s);
    TrimStartSuffix(s);
    assert |s| - |a| == |pre|;
    assert a == core + post;
    assert a[|core| - 1] == core[|core| - 1];
    assert forall i :: |core| <= i < |a| ==> a[i] == post[i - |core|];
    var r := TrimEnd(a);
    TrimEndPrefix(a);
    assert |r| == |core|;
  }

  const JsonFenceOpen := "```json\n"
  const JsonFenceClose := "\n```"

  /**
   * The reply with a markdown fence removed: trim it, drop a leading
   * "```json" line opener if present, then drop a trailing newline and
   * closing fence if present. Each pattern is anchored to the very start
   * or the very end of the text.
   */
  function StripFences(reply: string): string
  {
    var t := Trim(reply);
    var a := if StartsWith(t, JsonFenceOpen) then t[|JsonFenceOpen|..] else t;
    if EndsWith(a, JsonFenceClose) then a[..|a| - |JsonFenceClose|] else a
  }

  /** A fenced body comes back unchanged, whatever it contains. */
  lemma {:induction false} StripFencesRoundTrip(body: string)
    ensures StripFences(JsonFenceOpen + body + JsonFenceClose) == body
  {
    var s := JsonFenceOpen + body + JsonFenceClose;
    TrimUnpadded(s);
    assert s[..|JsonFenceOpen|] == JsonFenceOpen;
    var a := s[|JsonFenceOpen|..];
    assert a == body + JsonFenceClose;
    assert a[|a| - |JsonFenceClose|..] == JsonFenceClose;
    assert a[..|a| - |JsonFenceClose|] == body;
  }

  /** Trimmed text without either fence is returned as it is. */
  lemma StripFencesUnfenced(reply: string)
    requires !StartsWith(Trim(reply), JsonFenceOpen) && !EndsWith(Trim(reply), JsonFenceClose)
    ensures StripFences(reply) == Trim(reply)
  {
  }

  /** The cleaned text is a contiguous block of the trimmed reply, so never longer than it. */
  lemma {:induction false} StripFencesInfix(reply: string)
    ensures IsInfix(StripFences(reply), Trim(reply))
    ensures |StripFences(reply)| <= |Trim(reply)|
  {
    var t := Trim(reply);
    var i := if StartsWith(t, JsonFenceOpen) then |JsonFenceOpen| else 0;
    var a := t[i..];
    var j := if EndsWith(a, JsonFenceClose) then |t| - |JsonFenceClose| else |t|;
    assert a[..j - i] == t[i..j];
    assert StripFences(reply) == t[i..j];
  }

  /** A fenced body with white space around it comes back unchanged. */
  lemma {:induction false} StripPaddedFences(pre: string, body: string, post: string)
    requires forall i :: 0 <= i < |pre| ==> IsJsSpace(pre[i])
    requires forall i :: 0 <= i < |post| ==> IsJsSpace(post[i])
    ensures StripFences(pre + (JsonFenceOpen + body + JsonFenceClose) + post) == body
  {
    var fenced := JsonFenceOpen + body + JsonFenceClose;
    TrimPadded(pre, fenced, post);
    StripFencesRoundTrip(body);
  }

  // ---------------------------------------------------------------------------
  // The request
  // ---------------------------------------------------------------------------

  /** The one message every failure of the request or of parsing is reported with. */
  const GenerationFailedMessage := "Failed to generate a training plan. The model may be overloaded. Please try again later."

  /**
   * Asks the language model for a plan and parses the cleaned reply. A request that
   * throws and a reply that does not parse both fail with
   * `GenerationFailedMessage`; no partial plan is returned.
   */
  function GenerateRunningPlan(race: string, pace: string, goalDate: string, todayDate: string,
                               generate: string -> Option<string>,
                               parse: string -> Option<RunningPlan>): (r: Result<RunningPlan>)
    ensures r.Failure? ==> r.error == GenerationFailedMessage
  {
    match generate(Prompt(race, pace, goalDate, todayDate))
    case None => Failure(GenerationFailedMessage)
    case Some(reply) =>
      match parse(StripFences(reply))
      case None => Failure(GenerationFailedMessage)
      case Some(plan) => Success(plan)
  }

  /**
   * The request succeeds exactly when the language model answers and its cleaned
   * reply parses, and then it returns the parsed plan.
   */
  lemma GenerateSucceedsIff(race: string, pace: string, goalDate: string, todayDate: string,
                            generate: string -> Option<string>, parse: string -> Option<RunningPlan>)
    ensures var reply := generate(Prompt(race, pace, goalDate, todayDate));
            var r := GenerateRunningPlan(race, pace, goalDate, todayDate, generate, parse);
            (r.Success? <==> reply.Some? && parse(StripFences(reply.value)).Some?) &&
            (r.Success? ==> Some(r.value) == parse(StripFences(reply.value)))
  {
  }

  /**
   * A reply that wraps the plan's JSON in a fence, with any white space
   * around it, yields the plan that JSON encodes.
   */
  lemma {:induction false} GenerateFromFencedReply(race: string, pace: string, goalDate: string, todayDate: string,
                                                   generate: string -> Option<string>, parse: string -> Option<RunningPlan>,
                                                   pre: string, json: string, post: string, plan: RunningPlan)
    requires forall i :: 0 <= i < |pre| ==> IsJsSpace(pre[i])
    requires forall i :: 0 <= i < |post| ==> IsJsSpace(post[i])
    requires generate(Prompt(race, pace, goalDate, todayDate)) == Some(pre + (JsonFenceOpen + json + JsonFenceClose) + post)
    requires parse(json) == Some(plan)
    ensures GenerateRunningPlan(race, pace, goalDate, todayDate, generate, parse) == Success(plan)
  {
    StripPaddedFences(pre, json, post);
  }
}
