# GoTrain dashboard core, modelled in Dafny

GoTrain is a browser dashboard. It combines recent endurance activities, strength-training history and the user's goals into a request to a language model. The model's reply is a structured weekly training plan. A coach chat can then revise that plan in place. This project models that core and proves what it promises:

- **The dashboard state machine** (`app.dfy`, module `App`).
  - The state is the saved goals, the activity-tracker token triple, the recent activities, the raw plan text (`suggestions`), the plan parsed from it (`parsedPlan`), the coach transcript and the last error. Browser storage is a `map<string, string>`.
  - Each handler is a step function on a `State` value: loading, token saving, token freshness and refresh, disconnect, goal saving, plan generation, activity refresh, sending a chat message, and the transcript-persisting effect.
  - The class `Dashboard` holds the same state in fields. Each of its methods is proved to make the step its function describes and to keep the in-memory token and plan text equal to the stored ones.
  - The lemmas state what the steps promise: the migration of old goal records, the token-freshness rule, the exact key set a disconnect removes, the chat-revision protocol, and the raw-text rule of plan generation.
- **The plan-revision protocol** (`revision.dfy`). This covers:
  - finding the first `<REVISED_PLAN>` … `</REVISED_PLAN>` region;
  - trimming it and stripping an optional Markdown code fence;
  - parsing it, then adopting the plan and replacing the region by a confirmation.

  Round-trip lemmas show that a well-formed tagged reply yields its plan. A payload that does not parse leaves the reply and the plan as they were.
- **Prompt assembly** (`openai.ts`, modelled in `openai.dfy`). The generation prompt and the chat context prompt are pure functions building line lists joined by line feeds. Lemmas state what each prompt contains: availability, preferences, units, the activity lines or their placeholder, the considerations line exactly when there are considerations, the current plan or "No plan yet.", and the tag-pair instruction.
- **Strength statistics** (`hevy.dfy`). `CalculateExerciseStats` runs nested loops over workouts, exercises and sets. It is proved equal to a left fold over a name-keyed table. Lemmas characterise each entry:
  - one entry per distinct exercise title, in order of first appearance;
  - the maxima of the Epley estimate and of the volume, with 0 as floor;
  - the weight and reps of the last set whose index is 0.
- **Goal toggling** (`goal_form.dfy`): the selection never becomes empty, an absent activity is appended, a present one is filtered out with the others kept in order, and the other fields are preserved.
- **Settings** (`settings.dfy`):
  - the partial-record merge and its recomputed `isConfigured` flag;
  - the defaults;
  - the provider class whose storage mirrors its settings.
- **Small view rules**:
  - the duration label of the activity list (`activity_history.dfy`);
  - the intensity, icon and accent lookups of the plan view, with their fallbacks, and the plan records (`workout_plan.dfy`).

Shared pieces:

- `text.dfy`: JavaScript's `trim`, `indexOf`, `join`, `parseInt` and integer-to-text conversion.
- `json.dfy`: JSON values, truthiness, storage reads, and the uninterpreted `JSON.parse`/`JSON.stringify` pair.
- `strava.dfy`, `ask_coach.dfy`: the activity, token and chat records.
- `wrappers.dfy`: `Option` and `Result`.

Where the code behaves differently from what a reader of the system's design would expect, the model follows the code:

- **Generation that does not parse.** One would expect a generated plan that does not parse to be shown as raw text. The handler (`src/App.tsx:161-169`) stores the raw text but keeps the previous `parsedPlan`. So a dashboard that already showed a plan keeps showing the old plan until a reload, which re-derives the plan from the stored text and shows the raw text. `App.StalePlanAfterUnparsableAnswer` proves both views.
- **No schema check.** There is no validating parser. The code adopts whatever `JSON.parse` accepts, so plans are modelled as JSON values, not as `WeeklyPlan` records.
- **What disconnect clears.** Disconnecting does not clear all persisted state. The code keeps the goals and the settings; `App.DisconnectClearsSession` proves which keys go.
- **The confirmation text.** The source's confirmation string ends in three characters, U+201A U+00FA U+00AE: the sparkles emoji decoded in the wrong character set. `Revision.Confirmation` holds exactly those characters.

## Model

| member | source | states |
|---|---|---|
| `Text.Trim` | src/App.tsx:235 | the result is a slice of the input, and neither of its ends is JavaScript whitespace |
| `Text.IntToString` | src/App.tsx:100 | `toString` of an integer: digits only for a non-negative one, a minus sign followed by digits for a negative one |
| `Text.ParseInt` | src/App.tsx:112 | `parseInt` finds no number (NaN) in text without a decimal digit |
| `Text.TrimOfUnpadded` | src/App.tsx:235 | trimming text that starts and ends with non-whitespace leaves it unchanged |
| `Text.IndexOf` | src/App.tsx:232 | the first occurrence of a pattern at or after a position, or None when no such occurrence exists |
| `Text.JoinContainsPart` | src/services/openai.ts:21 | every part of a joined list occurs in the joined text |
| `Text.ParseIntOfIntToString` | src/App.tsx:100-112 | `parseInt` reads back the decimal text of any integer, whatever non-digit text follows it |
| `GoalForm.InitialGoals` | src/components/GoalForm.tsx:19-25 | saved goals are used as they are; without them the form starts at exactly the defaults: empty main goal, 3 days, intermediate, `["running"]`, empty considerations, and no further properties |
| `GoalForm.Without` | src/components/GoalForm.tsx:31 | the filter removes every occurrence of the activity and keeps every other element with its multiplicity |
| `GoalForm.WithoutDistributes` | src/components/GoalForm.tsx:31 | the filter distributes over concatenation, so the surviving elements keep their order |
| `GoalForm.WithoutMembers` | src/components/GoalForm.tsx:31 | an element survives the filter exactly when it is in the list and differs from the activity; a list holding only the activity filters to empty |
| `GoalForm.WithoutAbsent` | src/components/GoalForm.tsx:31 | filtering out an absent activity leaves the list unchanged |
| `GoalForm.ToggleActivity` | src/components/GoalForm.tsx:27-35 | the selection is never empty; an absent activity is appended at the end; a present one is filtered out unless that empties the list, which leaves `[activity]`; a missing list counts as empty; every other field is unchanged |
| `GoalForm.ToggleTwiceRestores` | src/components/GoalForm.tsx:30-33 | toggling an unselected activity twice restores the original goals |
| `GoalForm.ToggleAll` | src/components/GoalForm.tsx:27-35 | any non-empty sequence of toggles leaves a non-empty selection and the other fields unchanged |
| `GoalForm.GoalsToJson` | src/App.tsx:128-131 | the saved goals object holds `mainGoal`, `daysPerWeek` and `fitnessLevel` with their values, the list (element by element) exactly when the goals have one, the considerations with their text exactly when they have them, and every further property the record carries, with its value; it holds no other property |
| `GoalForm.ToggleSavesOtherProperties` | src/components/GoalForm.tsx:33 | after a toggle, the saved object has the list and every other property exactly as before, a leftover singular field included |
| `WorkoutPlan.IntensityClass` | src/components/WorkoutPlan.tsx:38-45 | Easy, Moderate, Hard and Max map to green, blue, orange and red; the neutral class is returned exactly for every other intensity |
| `WorkoutPlan.TypeIcon` | src/components/WorkoutPlan.tsx:29-36 | run, strength and rest get the blue map, purple dumbbell and gray coffee icons; every other day type gets the orange zap icon, and only they do |
| `WorkoutPlan.DayAccent` | src/components/WorkoutPlan.tsx:82-85 | rest, run and strength get gray, blue and purple accents; orange goes exactly to every other day type |
| `WorkoutPlan.IconBackground` | src/components/WorkoutPlan.tsx:90-93 | the icon tile follows the same chain of tests, with orange for any other day type |
| `WorkoutPlan.CardTone` | src/components/WorkoutPlan.tsx:79 | the card is muted exactly for rest days and shadowed otherwise |
| `WorkoutPlan.DayStylesAgree` | src/components/WorkoutPlan.tsx:82-94 | the accent, icon tile and icon fall back together, and the rest accent goes with the rest icon |
| `WorkoutPlan.RenderDay` | src/components/WorkoutPlan.tsx:73-138 | a day card carries the day's number and title, and the tone, accent, icon tile and icon chosen from its type (`CardTone`, `DayAccent`, `IconBackground`, `TypeIcon`). It shows the placeholder exactly when the day has no activities, and the day's own coach tips exactly when there are any. It has one row per activity, in order, with that activity's name, intensity, details and duration and the intensity's badge class |
| `WorkoutPlan.RenderPlan` | src/components/WorkoutPlan.tsx:53-145 | the view shows the weekly summary and one card per day, in plan order |
| `ActivityHistory.JsRem` | src/components/ActivityHistory.tsx:29 | JavaScript's `%`: the remainder has the sign of the dividend and is smaller in magnitude than the divisor |
| `ActivityHistory.DurationParts` | src/components/ActivityHistory.tsx:28-29 | minutes are below 60; hours and minutes account for the duration up to less than a minute; hours are positive exactly from 3600 s on |
| `ActivityHistory.FormatDuration` | src/components/ActivityHistory.tsx:27-32 | from an hour on, the label is the whole hours, `h `, the leftover whole minutes and `m`; below an hour it is the minutes and `m` |
| `ActivityHistory.HoursShownIffAnHour` | src/components/ActivityHistory.tsx:27-32 | the label shows an hours part exactly when the duration is at least an hour |
| `ActivityHistory.LabelLeadingNumber` | src/components/ActivityHistory.tsx:27-32 | the label begins with the hours when they are shown, and with the minutes otherwise |
| `SettingsContext.DistanceUnitName` | src/context/SettingsContext.tsx:8 | the distance units are named `kilometers` and `miles`, the names both prompts show |
| `SettingsContext.WeightUnitName` | src/context/SettingsContext.tsx:9 | the weight units are named `kg` and `lbs`, the names both prompts show |
| `SettingsContext.Merge` | src/context/SettingsContext.tsx:38-48 | each passed field overrides the previous value and each absent one keeps it; `isConfigured` holds exactly when the Strava client id, the Strava client secret and the OpenAI key are all non-empty |
| `SettingsContext.EmptyPatchRepairsFlag` | src/context/SettingsContext.tsx:38-47 | an empty update only recomputes the flag, so it changes nothing in consistent settings |
| `SettingsContext.MergeIdempotent` | src/context/SettingsContext.tsx:38-47 | applying the same update twice equals applying it once |
| `SettingsContext.OptionalKeysIrrelevant` | src/context/SettingsContext.tsx:41-45 | the Hevy key and the units never decide `isConfigured` |
| `SettingsContext.InitialSettings` | src/context/SettingsContext.tsx:21-32 | with nothing saved, the settings are the defaults (empty keys, kilometers, kg, not configured) |
| `SettingsContext.SettingsProvider.constructor` | src/context/SettingsContext.tsx:20-36 | the provider starts from the saved settings or the defaults, and storage holds their encoding |
| `SettingsContext.SettingsProvider.UpdateSettings` | src/context/SettingsContext.tsx:38-48 | the new settings are the merge, with a consistent flag; the settings entry of storage is rewritten and no other entry changes |
| `SettingsContext.SettingsProvider.ClearSettings` | src/context/SettingsContext.tsx:50-60 | the settings return to the defaults, with the flag false, and storage follows |
| `Hevy.ApplySet` | src/services/hevy.ts:74-93 | one set raises the 1RM to its Epley estimate and the maximum volume to its volume when larger, and sets the last weight and reps exactly when its index is 0; the name stays |
| `Hevy.ApplySets` | src/services/hevy.ts:74-94 | the sets of an exercise keep the entry's name, and no sets leave the entry as it was |
| `Hevy.ApplySetsMaxima` | src/services/hevy.ts:74-87 | after an exercise's sets, the 1RM and volume maxima have only grown, bound every set's Epley estimate and volume, and are attained by a set or equal the starting value |
| `Hevy.ApplySetsLast` | src/services/hevy.ts:89-93 | the last weight and reps come from the last set whose index is 0, and stay unchanged when no set has index 0 |
| `Hevy.ApplySetsConcat` | src/services/hevy.ts:74-94 | applying two runs of sets equals applying the first, then the second |
| `Hevy.ApplyExercise` | src/services/hevy.ts:62-94 | one exercise keeps every listed name backed by an entry |
| `Hevy.ApplyExercises` | src/services/hevy.ts:62-95 | the same for the exercises of one workout |
| `Hevy.ApplyWorkouts` | src/services/hevy.ts:61-96 | the same for all workouts |
| `Hevy.FirstSeenProps` | src/services/hevy.ts:64-72 | names in order of first appearance are distinct and are exactly the names seen |
| `Hevy.SetsNamedAbsent` | src/services/hevy.ts:61-96 | a name no exercise has collects no sets |
| `Hevy.ApplyExercisesConcat` | src/services/hevy.ts:62-95 | processing two runs of exercises equals processing them one after the other |
| `Hevy.ApplyWorkoutsFlat` | src/services/hevy.ts:61-96 | processing workouts equals processing all their exercises in traversal order |
| `Hevy.ApplyExerciseStep` | src/services/hevy.ts:63-72 | one exercise keeps the table well formed and appends its name to the order only when it is new |
| `Hevy.ApplyExercisesOrder` | src/services/hevy.ts:61-72 | the table's order is its names in order of first appearance |
| `Hevy.ApplyExerciseEntries` | src/services/hevy.ts:63-94 | one exercise updates only its own entry, by applying its sets to the existing or fresh entry |
| `Hevy.KeysGrow` | src/services/hevy.ts:64-72 | every name already present or met among the exercises has an entry afterwards |
| `Hevy.ApplyExercisesEntry` | src/services/hevy.ts:61-96 | each entry is its starting entry with all sets of exercises of that name applied in order, so sets of other exercises never touch it |
| `Hevy.Stats` | src/services/hevy.ts:98 | the table's values in insertion order; no workouts give no entries (`Hevy.StatsByName` states each entry) |
| `Hevy.StatsByName` | src/services/hevy.ts:58-99 | one entry per distinct exercise title, exercises without sets included, in order of first appearance, each being the fold of that title's sets; no workouts give no entries |
| `Hevy.StatsEntry` | src/services/hevy.ts:74-98 | entry i names the i-th title; its 1RM and volume are the maxima over that title's sets with 0 as floor and attained when positive; its last weight and reps are those of the title's last set with index 0, or 0 |
| `Hevy.AddExercise` | src/services/hevy.ts:62-94 | the loop over one exercise's sets gives the table the fold specifies |
| `Hevy.CalculateExerciseStats` | src/services/hevy.ts:58-99 | the nested loops return exactly the specified statistics |
| `Revision.FindRegion` | src/App.tsx:232 | the leftmost opening tag and the first closing tag after it; None exactly when no opening tag is followed by a closing tag |
| `Revision.LeadingLetters` | src/App.tsx:238 | the length of the longest prefix of ASCII letters (`[a-z]` under the `i` flag) |
| `Revision.StripOpeningFence` | src/App.tsx:238 | an opening fence line (three backticks, letters, line feed) is removed when present; otherwise the text is unchanged |
| `Revision.StripClosingFence` | src/App.tsx:238 | a closing fence at the very end is removed when present; otherwise the text is unchanged |
| `Revision.CleanPayload` | src/App.tsx:235-239 | the cleaned payload has no whitespace at either end; it is the trimmed payload when that does not start with a fence, and otherwise the trimmed payload with its opening fence line and closing fence removed, trimmed again |
| `Revision.HandleCoachReply` | src/App.tsx:229-249 | a plan is adopted exactly when a region exists and its cleaned payload parses; it is that payload and its parse, and the reply shown has the region replaced by the confirmation; otherwise the reply is shown as received |
| `Revision.FencedPayloadClean` | src/App.tsx:235-239 | a fenced body whose language tag is ASCII letters only cleans to exactly the body |
| `Revision.NoTagWithoutAngle` | src/App.tsx:232 | no tag starts inside text without `<` |
| `Revision.IndexOfFirst` | src/App.tsx:232 | an occurrence with none before it is the one the search finds |
| `Revision.TagFirstAfter` | src/App.tsx:232 | a tag preceded by text without `<` is the first one found |
| `Revision.FindRegionOfTagged` | src/App.tsx:232 | a reply with one tagged payload and no `<` before it or inside it has that payload's region |
| `Revision.FencedWithoutAngle` | src/App.tsx:232-238 | fencing a body without `<` adds no `<` |
| `Revision.RevisionRoundTrip` | src/App.tsx:232-246 | a reply carrying a fenced plan adopts that plan and its text, and shows the surrounding text with the confirmation in place of the region |
| `Revision.RevisionRoundTripUnfenced` | src/App.tsx:232-246 | the same for a plan given without a fence |
| `Revision.UnparsableRevisionKeepsReply` | src/App.tsx:240-249 | a tagged payload that does not parse adopts nothing and shows the reply as received, tags included |
| `OpenAI.JsRound` | src/services/openai.ts:21 | `Math.round`: the nearest integer, with halves rounded up |
| `OpenAI.ActivityLines` | src/services/openai.ts:21 | one line per activity, in order |
| `OpenAI.ActivitySection` | src/services/openai.ts:21 | the placeholder sentence without activities; otherwise the activity lines joined by line feeds |
| `OpenAI.ActivitySectionListsEach` | src/services/openai.ts:21 | every activity's line occurs in the section |
| `OpenAI.GenerationPrompt` | src/services/openai.ts:11-48 | the prompt exists exactly when the goals have a list of preferred activities (the `join` throws otherwise) |
| `OpenAI.LineEndInPrompt` | src/services/openai.ts:11-48 | the end of any line of a joined prompt occurs in the prompt |
| `OpenAI.LinePartInPrompt` | src/services/openai.ts:11-48 | any middle part of a line of a joined prompt occurs in the prompt |
| `OpenAI.GenerationPromptStates` | src/services/openai.ts:14-21 | the prompt states the availability in days per week, the preferences joined by ", ", the distance and weight units, and the activity section |
| `OpenAI.GenerationPromptInstructs` | src/services/openai.ts:46-47 | the prompt asks for exactly that many training days with rest on the others, and for the chosen units throughout |
| `OpenAI.UnitNamesInUnitsText` | src/services/openai.ts:18 | the units line names the distance unit and the weight unit |
| `OpenAI.UnitNamesInInstruction` | src/services/openai.ts:47 | the closing instruction names the distance unit and the weight unit |
| `OpenAI.SettingsUnitsInPrompt` | src/services/openai.ts:18-47 | with the units chosen in the settings, the generation prompt names both of them in the units line and in the closing instruction |
| `OpenAI.GenerationConsiderations` | src/services/openai.ts:17 | the considerations line appears when they are non-empty; otherwise the prompt is the prompt without them |
| `OpenAI.ChatActivityList` | src/services/openai.ts:100 | the chat's activity list is empty when there are no activities |
| `OpenAI.ChatActivityListsEach` | src/services/openai.ts:100 | every activity's "name (Rkm)" entry occurs in the list |
| `OpenAI.ChatContext` | src/services/openai.ts:90-109 | the context exists exactly when the goals have a list of preferred activities |
| `OpenAI.ChatContextPlan` | src/services/openai.ts:97 | a truthy plan appears serialised; otherwise "No plan yet." appears, and the context equals the one built for no plan |
| `OpenAI.ChatContextStates` | src/services/openai.ts:92-107 | the context holds the goals focus line, the units line, the activity list and the instruction to wrap a revised plan in the tag pair |
| `OpenAI.ChatConsiderations` | src/services/openai.ts:93 | non-empty considerations appear in the chat context |
| `OpenAI.ChatWithoutConsiderations` | src/services/openai.ts:93 | empty or missing considerations leave the context as if there were none |
| `App.MigrateGoals` | src/App.tsx:33-37 | an object without a truthy list and with a truthy singular field gets the one-element list and loses the singular field, every other field kept; anything else is unchanged |
| `App.MigrateGoalsIdempotent` | src/App.tsx:33-37 | migrating twice is migrating once |
| `App.MigratedGoalsHaveList` | src/App.tsx:33-37 | after migration, a record that named an activity in either form has a truthy list |
| `App.LoadGoals` | src/App.tsx:29-39 | a missing or empty entry gives no goals; bad JSON and `null` are the two failures; anything else is migrated |
| `App.LoadPlan` | src/App.tsx:52-60 | the plan is the parse of the stored text, or null when the text is missing, empty or unparsable |
| `App.CheckToken` | src/App.tsx:104-114 | no token unless all three entries are non-empty; the stored token is fresh exactly when the expiry parses and `now` is more than 60 s before it; otherwise the refresh token is used |
| `App.Initial` | src/App.tsx:29-68 | the loaded state mirrors the stored token and plan text, and its plan is the parse of that text |
| `App.SaveTokensStep` | src/App.tsx:97-102 | saving tokens keeps memory and storage in agreement |
| `App.DisconnectStep` | src/App.tsx:196-208 | after a disconnect, memory and storage agree (no token, no plan text) |
| `App.TokenStep` | src/App.tsx:104-126 | checking or refreshing the token keeps memory and storage in agreement |
| `App.SaveGoalsStep` | src/App.tsx:128-131 | saving goals keeps memory and storage in agreement |
| `App.PersistChatStep` | src/App.tsx:70-72 | persisting the transcript keeps memory and storage in agreement |
| `App.AfterReply` | src/App.tsx:240-252 | the handled reply is appended to the transcript; without a replacement nothing else changes; with one, the plan, the plan text and its storage entry take the replacement and nothing else changes |
| `App.SendStep` | src/App.tsx:211-258 | sending a message keeps memory and storage in agreement |
| `App.GenerateStep` | src/App.tsx:142-175 | generating a plan keeps memory and storage in agreement |
| `App.RefreshStep` | src/App.tsx:177-194 | refreshing activities keeps memory and storage in agreement |
| `App.SaveGoalsWrites` | src/App.tsx:128-131 | saving goals sets them in memory, writes their encoding under the goals key and changes nothing else |
| `App.PersistChatWritesOnlyChat` | src/App.tsx:70-72 | the transcript effect writes the transcript's encoding under its key and changes nothing else |
| `App.TokenStepKeepsSession` | src/App.tsx:104-126 | a token step that yields a token changes only the token entries and the token in memory |
| `App.RefreshStepCases` | src/App.tsx:177-194 | without a token, only the connect message is added; a failed fetch reports its message and keeps the cached activities in memory and in storage; a successful fetch replaces them and stores their encoding |
| `App.GenerateFetchFailureKeepsCache` | src/App.tsx:155-173 | a generation whose fetch fails reports the error and keeps the cached activities, the plan text and the plan |
| `App.DisconnectClearsSession` | src/App.tsx:196-208 | a disconnect removes exactly the token triple and the activities, plan text and transcript entries, keeps every other entry (goals and settings among them), clears token, plan text and plan, empties activities and transcript, and keeps the goals |
| `App.SavedTokensReadBack` | src/App.tsx:97-114 | right after tokens are saved, the stored token is fresh exactly while `now` is more than a minute before the saved expiry; after that the saved refresh token is used |
| `App.ExpiryReadsBack` | src/App.tsx:100-112 | the expiry's decimal text is non-empty and parses back to the expiry |
| `App.TokenStepCases` | src/App.tsx:104-126 | no token and no change without the full triple; the stored token and no change while fresh; an expired token is refreshed, and a failed refresh disconnects and yields no token |
| `App.SendAppendsUserMessageFirst` | src/App.tsx:211-216 | with a key, the user's message is appended first, followed by at most one assistant message |
| `App.SendNeedsKey` | src/App.tsx:211-212 | without an OpenAI key, sending changes nothing |
| `App.SendReplyFailure` | src/App.tsx:211-254 | a failed coach call leaves the user's message appended and the error reported, and changes nothing else |
| `App.SendWithoutRevision` | src/App.tsx:229-252 | a reply without a complete tag pair, or whose payload does not parse, is appended exactly as received; plan, plan text and storage are unchanged |
| `App.SendAdoptsRevision` | src/App.tsx:232-252 | a reply whose payload parses replaces the plan, stores the cleaned text in memory and in storage, and is shown with the region replaced by the confirmation |
| `App.GenerateKeepsRawAnswer` | src/App.tsx:155-169 | an answered generation stores the fetched activities and the raw answer in memory and in storage; the plan changes only when the answer parses |
| `App.GenerateNeedsGoalsAndKey` | src/App.tsx:143 | without truthy goals or an OpenAI key, generation changes nothing |
| `App.GenerateNeedsToken` | src/App.tsx:143-153 | when the token step yields no token, generation sets the connect message on the state that step left: the unchanged state without the token triple, the disconnected state when an expired token's refresh fails |
| `App.GenerateCompletionFailure` | src/App.tsx:155-171 | a failed model call after a successful fetch leaves the fetched activities stored and the error reported; plan text and plan are kept |
| `App.ViewOf` | src/App.tsx:443-472 | the empty panel exactly when there is no plan text; the plan cards only for a truthy plan; otherwise the raw text |
| `App.StalePlanAfterUnparsableAnswer` | src/App.tsx:161-169 | an unparsable answer leaves the previous plan on screen while a reload shows the raw answer: the plan no longer matches storage |
| `App.ParsedAnswerMatchesStore` | src/App.tsx:161-166 | a non-empty answer that parses leaves the plan equal to what a reload derives from storage |
| `App.Dashboard.constructor` | src/App.tsx:29-68 | mounting gives the loaded state, with memory mirroring storage and the plan matching the stored text |
| `App.Dashboard.SaveStravaTokens` | src/App.tsx:97-102 | writes the three entries, the expiry as decimal text, and sets the token |
| `App.Dashboard.DisconnectStrava` | src/App.tsx:196-208 | removes the six session entries and resets the session state |
| `App.Dashboard.GetValidToken` | src/App.tsx:104-126 | returns the token and leaves the state that the token step specifies |
| `App.Dashboard.SaveGoals` | src/App.tsx:128-131 | sets the goals and writes their encoding |
| `App.Dashboard.PersistChat` | src/App.tsx:70-72 | writes the transcript's encoding |
| `App.Dashboard.SendMessage` | src/App.tsx:211-258 | makes the send step, keeping memory mirrored in storage |
| `App.Dashboard.ShowReply` | src/App.tsx:240-252 | applies the handled reply as `App.AfterReply` specifies |
| `App.Dashboard.GeneratePlan` | src/App.tsx:142-175 | makes the generation step, keeping memory mirrored in storage |
| `App.Dashboard.RefreshWorkouts` | src/App.tsx:177-194 | makes the refresh step, keeping memory mirrored in storage |

## Left out

- Network calls are parameters of type `Result`, an error message standing for a thrown exception. They include:
  - the token exchange and refresh;
  - the activity fetch;
  - the two model calls;
  - `fetchHevyWorkouts` (`src/services/hevy.ts:36-56`).

  `src/services/strava.ts` is not part of this model beyond its records. The request bodies, including the system messages, and the error unwrapping of the model calls (`src/services/openai.ts:50-79`, `111-133`) are not modelled.
- The clock is the parameter `now`, already in whole seconds.
- `JSON.parse` and `JSON.stringify` are the uninterpreted fields of `Codec`. JSON grammar, key order and the encoding of numbers are not modelled. The saved activities, transcript and settings reach the initialisers already decoded.
- A parse of the saved activities, transcript or settings that throws is not modelled. Mounting with saved goals that do not parse, or that parse to `null`, throws in the source. It is a precondition of `App.Dashboard.constructor`; `App.LoadGoals` names both failures.
- Floating point is not modelled:
  - real arithmetic replaces IEEE doubles for the Epley estimate, the volume and the rounding in the prompts;
  - `formatDistance` with `toFixed`, the `date-fns` date labels and numbers beyond 2^53 are left out.
- Strings are sequences of Unicode scalar values, not UTF-16 code units.
- Busy flags (`loading`, `chatLoading`), async interleaving and the functional transcript update are left out; each handler is one atomic step.
- The transcript-persisting effect runs after every transcript change. It is the separate method `App.Dashboard.PersistChat`, not part of each handler. In particular, right after a disconnect the effect writes the empty transcript back under its key.
- The chat call is the `reply` parameter. With goals missing, the source's chat call throws; that is the error outcome of `reply`.
- The following are not modelled: the OAuth redirect effect (`src/App.tsx:74-95`), `handleConnectStrava`, `handleCopyPlan`, rendering, routing, `SettingsModal.tsx` and the submit guard of `AskCoach.tsx`.
- Keys that collide with `Object.prototype` members are not modelled, in either the intensity colour table or the Hevy statistics table. Nor is the rule that makes `Object.values` list integer-like keys first. `Hevy.StatsByName` therefore gives first-appearance order for every name.
- `HevySet.index` is an integer; a fractional index compares unequal to 0 as in the source.
- A settings patch that passes a key with the value `undefined` is not modelled. The patch's None means the key was not passed.
- Plans are JSON values: the source performs no schema check. `WorkoutPlan.RenderPlan` takes a well-typed `WeeklyPlan`. The decoding from JSON into that record is not modelled.
- App.SaveTokensStep: its own contract states only that storage stays mirrored; what the step does is stated by `App.SavedTokensReadBack` and `App.ExpiryReadsBack`.
- App.DisconnectStep: its own contract states only that storage stays mirrored; what the step does is stated by `App.DisconnectClearsSession`.
- App.TokenStep: its own contract states only that storage stays mirrored; what the step does is stated by `App.TokenStepCases` and `App.TokenStepKeepsSession`.
- App.SaveGoalsStep: its own contract states only that storage stays mirrored; what the step does is stated by `App.SaveGoalsWrites`.
- App.PersistChatStep: its own contract states only that storage stays mirrored; what the step does is stated by `App.PersistChatWritesOnlyChat`.
- App.SendStep: its own contract states only that storage stays mirrored; what the step does is stated by `App.SendNeedsKey`, `App.SendAppendsUserMessageFirst`, `App.SendReplyFailure`, `App.SendWithoutRevision` and `App.SendAdoptsRevision`.
- App.GenerateStep: its own contract states only that storage stays mirrored; what the step does is stated by `App.GenerateKeepsRawAnswer`, `App.GenerateNeedsGoalsAndKey`, `App.GenerateNeedsToken`, `App.GenerateFetchFailureKeepsCache` and `App.GenerateCompletionFailure`.
- App.RefreshStep: its own contract states only that storage stays mirrored; what the step does is stated by `App.RefreshStepCases`.
- GoalForm.GoalsToJson: the three declared scalar fields (`mainGoal`, `daysPerWeek`, `fitnessLevel`) are always present in the form's record. A loaded record that lacks one, such as an old record without `mainGoal`, is not represented; the source saves it back without that field. The form's goals are a parameter: the decoding of the dashboard's loaded JSON goals into the form's record is not modelled.
