/**
 * The two prompts sent to the language model: the plan-generation prompt
 * and the context prompt of the coach chat. Each is a template literal;
 * here it is the list of its lines joined by line feeds, so that what a
 * line says can be stated line by line.
 */
module OpenAI {
  import opened Wrappers
  import opened Text
  import opened JsonValues
  import opened GoalForm
  import opened Strava
  import Revision
  import SettingsContext

  /** The unit names passed to both prompts. */
  datatype Units = Units(distance: string, weight: string)

  /** The units the dashboard passes to both prompts: the names of the units chosen in the settings. */
  function SettingsUnits(s: SettingsContext.Settings): Units {
    Units(SettingsContext.DistanceUnitName(s.distanceUnit), SettingsContext.WeightUnitName(s.weightUnit))
  }

  /** `Math.round(x)`: the nearest integer, halves rounded up. */
  function JsRound(x: real): (r: int)
    ensures r as real - 0.5 <= x < r as real + 0.5
  {
    (x + 0.5).Floor
  }

  /** Kilometres shown for a distance in metres. */
  function Kilometres(a: StravaActivity): int {
    JsRound(a.distance / 1000.0)
  }

  /** Minutes shown for a moving time in seconds. */
  function Minutes(a: StravaActivity): int {
    JsRound(a.movingTime / 60.0)
  }

  /** One line of the recent-workouts list of the generation prompt. */
  function ActivityLine(a: StravaActivity): string {
    "- " + a.name + ": " + a.activityType + ", " + IntToString(Kilometres(a)) + "km, " + IntToString(Minutes(a)) + " mins"
  }

  function ActivityLines(acts: seq<StravaActivity>): (lines: seq<string>)
    ensures |lines| == |acts|
    ensures forall k :: 0 <= k < |acts| ==> lines[k] == ActivityLine(acts[k])
  {
    seq(|acts|, k requires 0 <= k < |acts| => ActivityLine(acts[k]))
  }

  const NoActivities: string := "No recent activities found."

  /** The recent-workouts section: one line per activity, or a fixed sentence when there are none. */
  function ActivitySection(acts: seq<StravaActivity>): (r: string)
    ensures acts == [] ==> r == NoActivities
    ensures acts != [] ==> r == Join(ActivityLines(acts), "\n")
  {
    if |acts| > 0 then Join(ActivityLines(acts), "\n") else NoActivities
  }

  /** Every activity has its line in the section. */
  lemma ActivitySectionListsEach(acts: seq<StravaActivity>, k: nat)
    requires k < |acts|
    ensures Contains(ActivitySection(acts), ActivityLine(acts[k]))
  {
    JoinContainsPart(ActivityLines(acts), "\n", k);
  }

  /** `considerations` is truthy: present and non-empty. */
  predicate HasConsiderations(g: UserGoals) {
    g.considerations.Some? && g.considerations.value != ""
  }

  /** The JSON layout the model is asked to follow, one line per element. */
  const SchemaLines: seq<string> := [
    "    {",
    "      \"weeklySummary\": \"Short overview of the week's focus and total volume\",",
    "      \"days\": [",
    "        {",
    "          \"dayNumber\": 1,",
    "          \"title\": \"Day Title (e.g. Endurance Run, Strength Training)\",",
    "          \"type\": \"rest | run | strength | cross-train\",",
    "          \"activities\": [",
    "            {",
    "              \"name\": \"Activity Name\",",
    "              \"duration\": \"Duration in mins or kms\",",
    "              \"intensity\": \"Easy | Moderate | Hard | Max\",",
    "              \"details\": \"Specifics like sets/reps or pace\"",
    "            }",
    "          ],",
    "          \"coachTips\": [\"Tip 1\", \"Tip 2\"]",
    "        }",
    "      ]",
    "    }"]

  /** The statement of the weekly availability. */
  function AvailabilityText(g: UserGoals): string {
    "Availability: " + IntToString(g.daysPerWeek) + " days/week"
  }

  /** The instruction to plan that many training days and make the others rest days. */
  function RestDaysText(g: UserGoals): string {
    "availability of " + IntToString(g.daysPerWeek) + " days/week. For other days, mark them as \"rest\"."
  }

  /** The preferred activities, joined by ", ". */
  function PreferenceText(prefs: seq<string>): string {
    "- Preference: " + Join(prefs, ", ")
  }

  function UnitsText(u: Units): string {
    "- Preferred Units: " + u.distance + " for distance, " + u.weight + " for weights."
  }

  /** The instruction to use the chosen units throughout the plan. */
  function ImportantUnitsText(u: Units): string {
    "IMPORTANT: Use " + u.distance + " for all distances and " + u.weight + " for all weights"
  }

  function GenerationConsiderationsText(c: string): string {
    "- Special Considerations/Injuries: " + c
  }

  function GenerationConsiderationsLine(g: UserGoals): string {
    if HasConsiderations(g) then "    " + GenerationConsiderationsText(g.considerations.value) else ""
  }

  /** The lines of the generation prompt; the first is empty, as the literal opens with a line feed. */
  function GenerationLines(g: UserGoals, prefs: seq<string>, acts: seq<StravaActivity>, u: Units): seq<string> {
    GenerationHead(g, prefs, acts, u) + SchemaLines + GenerationTail(g, u)
  }

  /**
   * The prompt of `generateWorkoutSuggestions`. Without a
   * `preferredActivities` list the `join` call throws, so there is no
   * prompt (None).
   */
  function GenerationPrompt(g: UserGoals, acts: seq<StravaActivity>, u: Units): (r: Option<string>)
    ensures r.None? <==> g.preferredActivities.None?
  {
    match g.preferredActivities
    case None => None
    case Some(prefs) => Some(Join(GenerationLines(g, prefs, acts, u), "\n"))
  }

  /** A line of a joined prompt can be found in it, and so can the end of that line. */
  lemma LineEndInPrompt(lines: seq<string>, k: nat, a: string, part: string)
    requires k < |lines| && lines[k] == a + part
    ensures Contains(Join(lines, "\n"), part)
  {
    JoinContainsPart(lines, "\n", k);
    ContainsMiddle(a, part, "");
    assert a + part + "" == lines[k];
    ContainsTransitive(Join(lines, "\n"), lines[k], part);
  }

  /** Any middle part of a line of a joined prompt can be found in it. */
  lemma LinePartInPrompt(lines: seq<string>, k: nat, a: string, part: string, c: string)
    requires k < |lines| && lines[k] == a + part + c
    ensures Contains(Join(lines, "\n"), part)
  {
    JoinContainsPart(lines, "\n", k);
    ContainsMiddle(a, part, c);
    ContainsTransitive(Join(lines, "\n"), lines[k], part);
  }

  const GoalsHeading: string := "    User Goals:"
  const WorkoutsHeading: string := "    Recent Workouts (Last 7 days):"
  const GenerateRequest: string :=
    "    As a professional fitness coach, generate a highly structured weekly workout plan in JSON format."
  const StructureHeading: string := "    The JSON should follow this structure:"
  const FollowPrefix: string := "    Ensure the plan strictly follows the user's "
  const IfAnySuffix: string := " (if any) in the plan."

  /** The head of the generation prompt, up to the schema. */
  function GenerationHead(g: UserGoals, prefs: seq<string>, acts: seq<StravaActivity>, u: Units): seq<string> {
    ["",
     GoalsHeading,
     "    - Main Goal: " + g.mainGoal,
     "    - " + AvailabilityText(g),
     "    - Level: " + g.fitnessLevel,
     "    " + PreferenceText(prefs),
     GenerationConsiderationsLine(g),
     "    " + UnitsText(u),
     "",
     WorkoutsHeading,
     "    " + ActivitySection(acts),
     "",
     GenerateRequest,
     "    ",
     StructureHeading]
  }

  /** The closing instructions of the generation prompt, after the schema. */
  function GenerationTail(g: UserGoals, u: Units): seq<string> {
    ["",
     FollowPrefix + RestDaysText(g),
     "    " + ImportantUnitsText(u) + IfAnySuffix,
     "  "]
  }

  /** The end of a line of the prompt's head can be found in the prompt. */
  lemma HeadLineInPrompt(g: UserGoals, acts: seq<StravaActivity>, u: Units, k: nat, a: string, part: string)
    requires g.preferredActivities.Some?
    requires k < |GenerationHead(g, g.preferredActivities.value, acts, u)|
    requires GenerationHead(g, g.preferredActivities.value, acts, u)[k] == a + part
    ensures Contains(GenerationPrompt(g, acts, u).value, part)
  {
    var prefs := g.preferredActivities.value;
    var head := GenerationHead(g, prefs, acts, u);
    var lines := GenerationLines(g, prefs, acts, u);
    assert lines[k] == (head + (SchemaLines + GenerationTail(g, u)))[k];
    LineEndInPrompt(lines, k, a, part);
  }

  /**
   * The generation prompt states the weekly availability, lists the
   * preferences joined by ", ", names the units, and carries the
   * recent-workouts section.
   */
  lemma GenerationPromptStates(g: UserGoals, acts: seq<StravaActivity>, u: Units)
    requires g.preferredActivities.Some?
    ensures var p := GenerationPrompt(g, acts, u).value;
            Contains(p, AvailabilityText(g))
            && Contains(p, PreferenceText(g.preferredActivities.value))
            && Contains(p, UnitsText(u))
            && Contains(p, ActivitySection(acts))
  {
    AvailabilityInPrompt(g, acts, u);
    PreferenceInPrompt(g, acts, u);
    UnitsInPrompt(g, acts, u);
    ActivitiesInPrompt(g, acts, u);
  }

  lemma AvailabilityInPrompt(g: UserGoals, acts: seq<StravaActivity>, u: Units)
    requires g.preferredActivities.Some?
    ensures Contains(GenerationPrompt(g, acts, u).value, AvailabilityText(g))
  {
    assert GenerationHead(g, g.preferredActivities.value, acts, u)[3] == "    - " + AvailabilityText(g);
    HeadLineInPrompt(g, acts, u, 3, "    - ", AvailabilityText(g));
  }

  lemma PreferenceInPrompt(g: UserGoals, acts: seq<StravaActivity>, u: Units)
    requires g.preferredActivities.Some?
    ensures Contains(GenerationPrompt(g, acts, u).value, PreferenceText(g.preferredActivities.value))
  {
    assert GenerationHead(g, g.preferredActivities.value, acts, u)[5] == "    " + PreferenceText(g.preferredActivities.value);
    HeadLineInPrompt(g, acts, u, 5, "    ", PreferenceText(g.preferredActivities.value));
  }

  lemma UnitsInPrompt(g: UserGoals, acts: seq<StravaActivity>, u: Units)
    requires g.preferredActivities.Some?
    ensures Contains(GenerationPrompt(g, acts, u).value, UnitsText(u))
  {
    assert GenerationHead(g, g.preferredActivities.value, acts, u)[7] == "    " + UnitsText(u);
    HeadLineInPrompt(g, acts, u, 7, "    ", UnitsText(u));
  }

  lemma ActivitiesInPrompt(g: UserGoals, acts: seq<StravaActivity>, u: Units)
    requires g.preferredActivities.Some?
    ensures Contains(GenerationPrompt(g, acts, u).value, ActivitySection(acts))
  {
    assert GenerationHead(g, g.preferredActivities.value, acts, u)[10] == "    " + ActivitySection(acts);
    HeadLineInPrompt(g, acts, u, 10, "    ", ActivitySection(acts));
  }

  /**
   * The generation prompt closes by asking for that many training days
   * with the other days as rest days, and for the chosen units throughout.
   */
  lemma GenerationPromptInstructs(g: UserGoals, acts: seq<StravaActivity>, u: Units)
    requires g.preferredActivities.Some?
    ensures var p := GenerationPrompt(g, acts, u).value;
            Contains(p, RestDaysText(g)) && Contains(p, ImportantUnitsText(u))
  {
    var prefs := g.preferredActivities.value;
    var lines := GenerationLines(g, prefs, acts, u);
    var tail := GenerationTail(g, u);
    var offset := |GenerationHead(g, prefs, acts, u) + SchemaLines|;
    assert lines[offset + 1] == ((GenerationHead(g, prefs, acts, u) + SchemaLines) + tail)[offset + 1] == tail[1];
    assert lines[offset + 2] == ((GenerationHead(g, prefs, acts, u) + SchemaLines) + tail)[offset + 2] == tail[2];
    LineEndInPrompt(lines, offset + 1, FollowPrefix, RestDaysText(g));
    LinePartInPrompt(lines, offset + 2, "    ", ImportantUnitsText(u), IfAnySuffix);
  }

  /** The units line names both units. */
  lemma UnitNamesInUnitsText(p: string, u: Units)
    requires Contains(p, UnitsText(u))
    ensures Contains(p, "- Preferred Units: " + u.distance) && Contains(p, u.weight + " for weights.")
  {
    var head := "- Preferred Units: " + u.distance;
    var mid := " for distance, ";
    var last := u.weight + " for weights.";
    assert UnitsText(u) == head + (mid + last);
    ContainsStart(head, mid + last);
    ContainsTransitive(p, UnitsText(u), head);
    assert UnitsText(u) == (head + mid) + last;
    ContainsEnd(head + mid, last);
    ContainsTransitive(p, UnitsText(u), last);
  }

  /** The closing instruction names both units. */
  lemma UnitNamesInInstruction(p: string, u: Units)
    requires Contains(p, ImportantUnitsText(u))
    ensures Contains(p, "Use " + u.distance + " for all distances") && Contains(p, u.weight + " for all weights")
  {
    var use := "Use " + u.distance + " for all distances";
    var last := u.weight + " for all weights";
    assert ImportantUnitsText(u) == "IMPORTANT: " + use + (" and " + last);
    ContainsMiddle("IMPORTANT: ", use, " and " + last);
    ContainsTransitive(p, ImportantUnitsText(u), use);
    assert ImportantUnitsText(u) == ("IMPORTANT: " + use + " and ") + last;
    ContainsEnd("IMPORTANT: " + use + " and ", last);
    ContainsTransitive(p, ImportantUnitsText(u), last);
  }

  /**
   * With the dashboard's units, the generation prompt names the chosen
   * distance and weight units, both in the units line and in the closing
   * instruction.
   */
  lemma SettingsUnitsInPrompt(g: UserGoals, acts: seq<StravaActivity>, s: SettingsContext.Settings)
    requires g.preferredActivities.Some?
    ensures var p := GenerationPrompt(g, acts, SettingsUnits(s)).value;
            Contains(p, "- Preferred Units: " + SettingsContext.DistanceUnitName(s.distanceUnit))
            && Contains(p, SettingsContext.WeightUnitName(s.weightUnit) + " for weights.")
            && Contains(p, "Use " + SettingsContext.DistanceUnitName(s.distanceUnit) + " for all distances")
            && Contains(p, SettingsContext.WeightUnitName(s.weightUnit) + " for all weights")
  {
    var u := SettingsUnits(s);
    UnitsInPrompt(g, acts, u);
    GenerationPromptInstructs(g, acts, u);
    UnitNamesInUnitsText(GenerationPrompt(g, acts, u).value, u);
    UnitNamesInInstruction(GenerationPrompt(g, acts, u).value, u);
  }

  /** The considerations line is there when they are given, and nothing of them otherwise. */
  lemma GenerationConsiderations(g: UserGoals, acts: seq<StravaActivity>, u: Units)
    requires g.preferredActivities.Some?
    ensures HasConsiderations(g) ==>
              Contains(GenerationPrompt(g, acts, u).value, GenerationConsiderationsText(g.considerations.value))
    ensures !HasConsiderations(g) ==>
              GenerationPrompt(g, acts, u) == GenerationPrompt(g.(considerations := None), acts, u)
  {
    if HasConsiderations(g) {
      HeadLineInPrompt(g, acts, u, 6, "    ", GenerationConsiderationsText(g.considerations.value));
    } else {
      assert GenerationConsiderationsLine(g) == GenerationConsiderationsLine(g.(considerations := None));
    }
  }

  /** One entry of the recent-activities list of the chat context. */
  function ChatActivityEntry(a: StravaActivity): string {
    a.name + " (" + IntToString(Kilometres(a)) + "km)"
  }

  /** The recent activities of the chat context, joined by ", "; empty when there are none. */
  function ChatActivityList(acts: seq<StravaActivity>): (r: string)
    ensures acts == [] ==> r == ""
  {
    Join(seq(|acts|, k requires 0 <= k < |acts| => ChatActivityEntry(acts[k])), ", ")
  }

  lemma ChatActivityListsEach(acts: seq<StravaActivity>, k: nat)
    requires k < |acts|
    ensures Contains(ChatActivityList(acts), ChatActivityEntry(acts[k]))
  {
    JoinContainsPart(seq(|acts|, i requires 0 <= i < |acts| => ChatActivityEntry(acts[i])), ", ", k);
  }

  const NoPlan: string := "No plan yet."

  /** The current plan as the chat context shows it: serialised when truthy. */
  function PlanText(plan: Json, stringify: Json -> string): string {
    if Truthy(plan) then stringify(plan) else NoPlan
  }

  function ChatConsiderationsText(c: string): string {
    "Considerations: " + c
  }

  function ChatConsiderationsLine(g: UserGoals): string {
    if HasConsiderations(g) then "    " + ChatConsiderationsText(g.considerations.value) else ""
  }

  /** The goals summary of the chat context: days per week and focuses. */
  function FocusText(g: UserGoals, prefs: seq<string>): string {
    IntToString(g.daysPerWeek) + " days/week, focuses: " + Join(prefs, ", ")
  }

  function ChatUnitsText(u: Units): string {
    "Units: " + u.distance + " for distance, " + u.weight + " for weights."
  }

  /** The tag pair the coach is told to wrap a revised plan in. */
  const TagPair: string := Revision.OpenTag + "..." + Revision.CloseTag

  /** The goals line of the chat context. */
  function ChatGoalsLine(g: UserGoals, prefs: seq<string>): string {
    "    User Goals: " + g.mainGoal + ", " + g.fitnessLevel + ", " + FocusText(g, prefs) + "."
  }

  const CoachIntro: string := "    You are GoTrain AI Coach. "
  const PlanHeading: string := "    Current Workout Plan:"
  const ChatActivitiesHeading: string := "    Recent Activities:"
  const InstructionsHeading: string := "    INSTRUCTIONS:"
  const AnswerInstruction: string := "    1. Answer fitness questions accurately and encouragingly."
  const EditInstruction: string := "    2. If the user asks to EDIT or CHANGE the plan (e.g., \"add yoga\", \"swap day 2\", \"make it harder\"):"
  const RevisedPlanInstruction: string := "       - You MUST provide a COMPLETELY REVISED JSON plan."
  const WrapPrefix: string := "       - Wrap the JSON in a special tag: "
  const SchemaInstruction: string := "       - Ensure the JSON follows the exact schema from before."
  const ConciseInstruction: string := "    3. Keep responses concise and professional."

  /** The lines of the chat context prompt, given its goals and considerations lines. */
  function ChatLines(goalsLine: string, considerationsLine: string, acts: seq<StravaActivity>, plan: Json,
                     u: Units, stringify: Json -> string): seq<string> {
    ["",
     CoachIntro,
     goalsLine,
     considerationsLine,
     "    " + ChatUnitsText(u),
     "    ",
     PlanHeading,
     "    " + PlanText(plan, stringify),
     "    ",
     ChatActivitiesHeading,
     "    " + ChatActivityList(acts),
     "",
     InstructionsHeading,
     AnswerInstruction,
     EditInstruction,
     RevisedPlanInstruction,
     WrapPrefix + TagPair + ".",
     SchemaInstruction,
     ConciseInstruction,
     "    "]
  }

  /** The context prompt of `handleCoachChat`; None where the `join` on a missing list throws. */
  function ChatContext(g: UserGoals, acts: seq<StravaActivity>, plan: Json, u: Units,
                       stringify: Json -> string): (r: Option<string>)
    ensures r.None? <==> g.preferredActivities.None?
  {
    match g.preferredActivities
    case None => None
    case Some(prefs) => Some(Join(ChatLines(ChatGoalsLine(g, prefs), ChatConsiderationsLine(g), acts, plan, u, stringify), "\n"))
  }

  /**
   * The chat context shows the serialised plan when there is one, and
   * otherwise says there is no plan and does not depend on the value.
   */
  lemma ChatContextPlan(g: UserGoals, acts: seq<StravaActivity>, plan: Json, u: Units, stringify: Json -> string)
    requires g.preferredActivities.Some?
    ensures Truthy(plan) ==> Contains(ChatContext(g, acts, plan, u, stringify).value, stringify(plan))
    ensures !Truthy(plan) ==> Contains(ChatContext(g, acts, plan, u, stringify).value, NoPlan)
    ensures !Truthy(plan) ==> ChatContext(g, acts, plan, u, stringify) == ChatContext(g, acts, Null, u, stringify)
  {
    var lines := ChatLines(ChatGoalsLine(g, g.preferredActivities.value), ChatConsiderationsLine(g), acts, plan, u, stringify);
    LineEndInPrompt(lines, 7, "    ", PlanText(plan, stringify));
  }

  /**
   * The chat context asks for a revised plan between the very tags the
   * reply handling looks for, names the units, and lists the activities.
   */
  lemma ChatContextStates(g: UserGoals, acts: seq<StravaActivity>, plan: Json, u: Units, stringify: Json -> string)
    requires g.preferredActivities.Some?
    ensures var p := ChatContext(g, acts, plan, u, stringify).value;
            Contains(p, TagPair)
            && Contains(p, ChatUnitsText(u))
            && Contains(p, FocusText(g, g.preferredActivities.value))
            && Contains(p, ChatActivityList(acts))
  {
    var prefs := g.preferredActivities.value;
    var lines := ChatLines(ChatGoalsLine(g, prefs), ChatConsiderationsLine(g), acts, plan, u, stringify);
    LinePartInPrompt(lines, 16, WrapPrefix, TagPair, ".");
    LineEndInPrompt(lines, 4, "    ", ChatUnitsText(u));
    LinePartInPrompt(lines, 2, "    User Goals: " + g.mainGoal + ", " + g.fitnessLevel + ", ", FocusText(g, prefs), ".");
    LineEndInPrompt(lines, 10, "    ", ChatActivityList(acts));
  }

  /** The considerations line of the chat context, on the same rule as the generation prompt. */
  lemma ChatConsiderations(g: UserGoals, acts: seq<StravaActivity>, plan: Json, u: Units, stringify: Json -> string)
    requires g.preferredActivities.Some? && HasConsiderations(g)
    ensures Contains(ChatContext(g, acts, plan, u, stringify).value, ChatConsiderationsText(g.considerations.value))
  {
    var lines := ChatLines(ChatGoalsLine(g, g.preferredActivities.value), ChatConsiderationsLine(g), acts, plan, u, stringify);
    assert lines[3] == "    " + ChatConsiderationsText(g.considerations.value);
    LineEndInPrompt(lines, 3, "    ", ChatConsiderationsText(g.considerations.value));
  }

  /** Without considerations, nothing of them reaches the chat context. */
  lemma ChatWithoutConsiderations(g: UserGoals, acts: seq<StravaActivity>, plan: Json, u: Units, stringify: Json -> string)
    requires !HasConsiderations(g)
    ensures ChatContext(g, acts, plan, u, stringify) == ChatContext(g.(considerations := None), acts, plan, u, stringify)
  {
    var g' := g.(considerations := None);
    if g.preferredActivities.Some? {
      var prefs := g.preferredActivities.value;
      assert ChatConsiderationsLine(g) == ChatConsiderationsLine(g');
      assert ChatGoalsLine(g, prefs) == ChatGoalsLine(g', prefs);
    }
  }
}
