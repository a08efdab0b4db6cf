/**
 * The dashboard: its state (the saved goals, the activity-tracker token,
 * the recent activities, the raw plan text and the plan parsed from it,
 * the coach transcript, the last error), the browser storage it mirrors
 * parts of that state into, and the handlers that move it from one state
 * to the next.
 *
 * Each handler is specified by a step function on a `State` value; the
 * `Dashboard` class holds the same state in fields, and each of its
 * methods is proved to make the step its function describes. The lemmas
 * then say what the steps promise.
 */
module App {
  import opened Wrappers
  import opened Text
  import opened JsonValues
  import opened Strava
  import opened AskCoach
  import opened GoalForm
  import opened Revision

  const AccessKey: string := "strava_access_token"
  const RefreshKey: string := "strava_refresh_token"
  const ExpiresKey: string := "strava_expires_at"
  const ActivitiesKey: string := "workoutBinderActivities"
  const SuggestionsKey: string := "workoutBinderSuggestions"
  const ChatKey: string := "workoutBinderChatMessages"
  const GoalsKey: string := "workoutBinderUserGoals"
  const SettingsKey: string := "workoutBinderSettings"

  /** The keys a disconnect removes: the token triple and everything fetched or generated with it. */
  const SessionKeys: set<string> := {AccessKey, RefreshKey, ExpiresKey, ActivitiesKey, SuggestionsKey, ChatKey}

  const NotConnectedMessage: string := "Please connect to Strava first."
  const GenerateErrorPrefix: string := "Error generating plan: "
  const ChatErrorPrefix: string := "Chat Error: "
  const RefreshErrorPrefix: string := "Failed to refresh activities: "

  // ---------------------------------------------------------------------
  // Loading saved state

  /**
   * The goals migration: a record saved before the multi-select existed
   * has a truthy `preferredActivity` and no truthy `preferredActivities`;
   * it gets the one-element list and loses the old field. Anything else is
   * returned as it is.
   */
  function MigrateGoals(j: Json): (r: Json)
    ensures (j.Obj? && !TruthyField(j, "preferredActivities") && TruthyField(j, "preferredActivity")) ==>
              r.Obj?
              && Field(r, "preferredActivities") == Some(Arr([j.fields["preferredActivity"]]))
              && "preferredActivity" !in r.fields
              && forall k :: k != "preferredActivities" && k != "preferredActivity" ==>
                   Field(r, k) == Field(j, k)
    ensures !(j.Obj? && !TruthyField(j, "preferredActivities") && TruthyField(j, "preferredActivity")) ==> r == j
  {
    if j.Obj? && !TruthyField(j, "preferredActivities") && TruthyField(j, "preferredActivity") then
      Obj((j.fields - {"preferredActivity"})["preferredActivities" := Arr([j.fields["preferredActivity"]])])
    else j
  }

  /** Migrating twice is migrating once. */
  lemma MigrateGoalsIdempotent(j: Json)
    ensures MigrateGoals(MigrateGoals(j)) == MigrateGoals(j)
  {
  }

  /** After the migration, a record that named an activity in either form has a truthy list. */
  lemma MigratedGoalsHaveList(j: Json)
    requires j.Obj? && (TruthyField(j, "preferredActivities") || TruthyField(j, "preferredActivity"))
    ensures TruthyField(MigrateGoals(j), "preferredActivities")
  {
  }

  /** Why the goals initializer throws. */
  datatype LoadError = GoalsSyntaxError | GoalsAreNull

  /**
   * The goals initializer: nothing saved (or an empty entry) gives
   * `undefined`; otherwise the entry is parsed, which throws on bad JSON,
   * and migrated, which throws on `null` when the property is read.
   */
  function LoadGoals(saved: Option<string>, parse: string -> Option<Json>): (r: Result<Option<Json>, LoadError>)
    ensures !Filled(saved) ==> r == Ok(None)
    ensures Filled(saved) && parse(saved.value).None? ==> r == Err(GoalsSyntaxError)
    ensures Filled(saved) && parse(saved.value) == Some(Null) ==> r == Err(GoalsAreNull)
    ensures Filled(saved) && parse(saved.value).Some? && parse(saved.value) != Some(Null) ==>
              r == Ok(Some(MigrateGoals(parse(saved.value).value)))
  {
    if !Filled(saved) then Ok(None)
    else match parse(saved.value)
      case None => Err(GoalsSyntaxError)
      case Some(j) => if j == Null then Err(GoalsAreNull) else Ok(Some(MigrateGoals(j)))
  }

  /** The plan initializer: the saved plan text parsed, or null when it is missing, empty or unparsable. */
  function LoadPlan(saved: Option<string>, parse: string -> Option<Json>): (r: Json)
    ensures Filled(saved) && parse(saved.value).Some? ==> r == parse(saved.value).value
    ensures !Filled(saved) || parse(saved.value).None? ==> r == Null
  {
    if Filled(saved) then parse(saved.value).GetOr(Null) else Null
  }

  // ---------------------------------------------------------------------
  // Token freshness

  /** What the stored token triple says. */
  datatype TokenCheck = Missing | Fresh(accessToken: string) | Expired(refreshToken: string)

  /** The three token entries are present and non-empty. */
  predicate TokensPresent(store: map<string, string>) {
    Filled(Get(store, AccessKey)) && Filled(Get(store, RefreshKey)) && Filled(Get(store, ExpiresKey))
  }

  /**
   * The test of `getValidToken`: with `now` in whole seconds, the stored
   * token is used while `now < parseInt(expiresAt) - 60`. An expiry that
   * does not parse is NaN, and a comparison with NaN is false.
   */
  function CheckToken(store: map<string, string>, now: int): (r: TokenCheck)
    ensures r.Missing? <==> !TokensPresent(store)
    ensures r.Fresh? <==>
              TokensPresent(store) && ParseInt(store[ExpiresKey]).Some? && now < ParseInt(store[ExpiresKey]).value - 60
    ensures r.Fresh? ==> r.accessToken == store[AccessKey]
    ensures r.Expired? ==> r.refreshToken == store[RefreshKey]
  {
    if !TokensPresent(store) then Missing
    else match ParseInt(store[ExpiresKey])
      case Some(e) => if now < e - 60 then Fresh(store[AccessKey]) else Expired(store[RefreshKey])
      case None => Expired(store[RefreshKey])
  }

  // ---------------------------------------------------------------------
  // The state and its steps

  datatype State = State(
    store: map<string, string>,
    userGoals: Option<Json>,
    stravaToken: Option<string>,
    activities: seq<StravaActivity>,
    suggestions: Option<string>,
    parsedPlan: Json,
    chatMessages: seq<ChatMessage>,
    error: Option<string>)

  /** The token and the raw plan text in memory are the ones in storage. */
  predicate Mirrors(s: State) {
    s.suggestions == Get(s.store, SuggestionsKey) && s.stravaToken == Get(s.store, AccessKey)
  }

  /** The parsed plan is the one a reload would parse from the stored plan text. */
  predicate PlanMatchesStore(s: State, parse: string -> Option<Json>) {
    s.parsedPlan == LoadPlan(Get(s.store, SuggestionsKey), parse)
  }

  /** The state right after the initializers run, with the saved activities and transcript already decoded. */
  function Initial(store: map<string, string>, parse: string -> Option<Json>,
                   activities: seq<StravaActivity>, chat: seq<ChatMessage>): (s: State)
    requires LoadGoals(Get(store, GoalsKey), parse).Ok?
    ensures Mirrors(s) && PlanMatchesStore(s, parse)
  {
    State(store, LoadGoals(Get(store, GoalsKey), parse).value, Get(store, AccessKey), activities,
          Get(store, SuggestionsKey), LoadPlan(Get(store, SuggestionsKey), parse), chat, None)
  }

  /** `saveStravaTokens`: the triple written, the expiry as decimal text. */
  function SaveTokensStep(s: State, data: TokenData): (r: State)
    ensures Mirrors(s) ==> Mirrors(r)
  {
    s.(store := s.store[AccessKey := data.accessToken][RefreshKey := data.refreshToken][ExpiresKey := IntToString(data.expiresAt)],
       stravaToken := Some(data.accessToken))
  }

  /** `handleDisconnectStrava`. */
  function DisconnectStep(s: State): (r: State)
    ensures Mirrors(r)
  {
    s.(store := s.store - SessionKeys, stravaToken := None, activities := [], suggestions := None,
       parsedPlan := Null, chatMessages := [])
  }

  /** A token step: the state it leaves and the token it yields (None for `null`). */
  datatype TokenOutcome = TokenOutcome(state: State, token: Option<string>)

  /**
   * `getValidToken`. `refresh` is what the refresh call would give; it is
   * consulted only when the stored token has expired.
   */
  function TokenStep(s: State, now: int, refresh: Result<TokenData, string>): (r: TokenOutcome)
    ensures Mirrors(s) ==> Mirrors(r.state)
  {
    match CheckToken(s.store, now)
    case Missing => TokenOutcome(s, None)
    case Fresh(token) => TokenOutcome(s, Some(token))
    case Expired(_) =>
      match refresh
      case Ok(data) => TokenOutcome(SaveTokensStep(s, data), Some(data.accessToken))
      case Err(_) => TokenOutcome(DisconnectStep(s), None)
  }

  /** `handleSaveGoals`. */
  function SaveGoalsStep(s: State, goals: UserGoals, stringify: Json -> string): (r: State)
    ensures Mirrors(s) ==> Mirrors(r)
  {
    s.(userGoals := Some(GoalsToJson(goals)), store := s.store[GoalsKey := stringify(GoalsToJson(goals))])
  }

  /** The effect that writes the transcript to storage after it changes. */
  function PersistChatStep(s: State, stringify: Json -> string): (r: State)
    ensures Mirrors(s) ==> Mirrors(r)
  {
    s.(store := s.store[ChatKey := stringify(ChatToJson(s.chatMessages))])
  }

  /**
   * `handleSendMessage`. `reply` is the outcome of the coach call, an
   * error message when it throws.
   */
  function SendStep(s: State, content: string, apiKey: string, reply: Result<string, string>,
                    parse: string -> Option<Json>): (r: State)
    ensures Mirrors(s) ==> Mirrors(r)
  {
    if apiKey == "" then s
    else
      var s1 := s.(chatMessages := s.chatMessages + [ChatMessage(User, content)]);
      match reply
      case Err(e) => s1.(error := Some(ChatErrorPrefix + e))
      case Ok(text) => AfterReply(s1, HandleCoachReply(text, parse))
  }

  /** The coach's reply handled: a revised plan adopted and stored, if any, and the reply shown. */
  function AfterReply(s: State, o: Outcome): (r: State)
    ensures Mirrors(s) ==> Mirrors(r)
    ensures r.chatMessages == s.chatMessages + [ChatMessage(Assistant, o.display)]
    ensures o.replacement.None? ==> r.(chatMessages := s.chatMessages) == s
    ensures o.replacement.Some? ==>
              r.parsedPlan == o.replacement.value.plan
              && r.suggestions == Some(o.replacement.value.text)
              && r.store == s.store[SuggestionsKey := o.replacement.value.text]
              && r.(chatMessages := s.chatMessages, parsedPlan := s.parsedPlan, suggestions := s.suggestions, store := s.store) == s
  {
    var s2 := match o.replacement
      case None => s
      case Some(rep) =>
        s.(parsedPlan := rep.plan, suggestions := Some(rep.text), store := s.store[SuggestionsKey := rep.text]);
    s2.(chatMessages := s2.chatMessages + [ChatMessage(Assistant, o.display)])
  }

  /** The goals state is truthy, so a plan can be generated. */
  predicate HasGoals(s: State) {
    s.userGoals.Some? && Truthy(s.userGoals.value)
  }

  /**
   * `handleGeneratePlan`. `fetched` is the outcome of the activity fetch
   * and `completion` that of the generation call.
   */
  function GenerateStep(s: State, apiKey: string, now: int, refresh: Result<TokenData, string>,
                        fetched: Result<seq<StravaActivity>, string>, completion: Result<string, string>,
                        codec: Codec): (r: State)
    ensures Mirrors(s) ==> Mirrors(r)
  {
    if !HasGoals(s) || apiKey == "" then s
    else
      var t := TokenStep(s.(error := None), now, refresh);
      var s1 := t.state;
      if !Filled(t.token) then s1.(error := Some(NotConnectedMessage))
      else match fetched
        case Err(e) => s1.(error := Some(GenerateErrorPrefix + e))
        case Ok(acts) =>
          var s2 := s1.(activities := acts, store := s1.store[ActivitiesKey := codec.stringify(ActivitiesToJson(acts))]);
          match completion
          case Err(e) => s2.(error := Some(GenerateErrorPrefix + e))
          case Ok(text) =>
            var s3 := s2.(suggestions := Some(text), store := s2.store[SuggestionsKey := text]);
            match codec.parse(text)
            case Some(plan) => s3.(parsedPlan := plan)
            case None => s3
  }

  /** `handleRefreshWorkouts`. */
  function RefreshStep(s: State, now: int, refresh: Result<TokenData, string>,
                       fetched: Result<seq<StravaActivity>, string>, stringify: Json -> string): (r: State)
    ensures Mirrors(s) ==> Mirrors(r)
  {
    var t := TokenStep(s.(error := None), now, refresh);
    var s1 := t.state;
    if !Filled(t.token) then s1.(error := Some(NotConnectedMessage))
    else match fetched
      case Err(e) => s1.(error := Some(RefreshErrorPrefix + e))
      case Ok(acts) => s1.(activities := acts, store := s1.store[ActivitiesKey := stringify(ActivitiesToJson(acts))])
  }

  // ---------------------------------------------------------------------
  // What the steps promise

  /**
   * A disconnect removes exactly the session keys, leaves every other
   * entry (the goals and the settings among them) as it was, and resets
   * the token, plan, activities and transcript.
   */
  lemma DisconnectClearsSession(s: State)
    ensures forall k :: k in SessionKeys ==> Get(DisconnectStep(s).store, k) == None
    ensures forall k :: k !in SessionKeys ==> Get(DisconnectStep(s).store, k) == Get(s.store, k)
    ensures Get(DisconnectStep(s).store, GoalsKey) == Get(s.store, GoalsKey)
    ensures Get(DisconnectStep(s).store, SettingsKey) == Get(s.store, SettingsKey)
    ensures var r := DisconnectStep(s);
            r.stravaToken == None && r.suggestions == None && r.parsedPlan == Null
            && r.activities == [] && r.chatMessages == [] && r.userGoals == s.userGoals
  {
  }

  /**
   * Saved tokens read back: the expiry written as decimal text parses to
   * itself, so right after saving, the stored token is used exactly while
   * `now` is more than a minute before the expiry.
   */
  lemma SavedTokensReadBack(s: State, data: TokenData, now: int)
    requires data.accessToken != "" && data.refreshToken != ""
    ensures CheckToken(SaveTokensStep(s, data).store, now)
            == if now < data.expiresAt - 60 then Fresh(data.accessToken) else Expired(data.refreshToken)
  {
    var store := SaveTokensStep(s, data).store;
    ExpiryReadsBack(data.expiresAt);
    assert store[AccessKey] == data.accessToken;
    assert store[RefreshKey] == data.refreshToken;
    assert store[ExpiresKey] == IntToString(data.expiresAt);
    assert TokensPresent(store);
  }

  /** The decimal text of an expiry is non-empty and parses back to it. */
  lemma ExpiryReadsBack(n: int)
    ensures IntToString(n) != [] && ParseInt(IntToString(n)) == Some(n)
  {
    ParseIntOfIntToString(n, "");
    assert IntToString(n) + "" == IntToString(n);
  }

  /**
   * `getValidToken`: no token without the full triple; the stored token,
   * with nothing changed, while it is fresh; otherwise a refresh, whose
   * failure disconnects.
   */
  lemma TokenStepCases(s: State, now: int, refresh: Result<TokenData, string>)
    ensures !TokensPresent(s.store) ==> TokenStep(s, now, refresh) == TokenOutcome(s, None)
    ensures TokensPresent(s.store) && ParseInt(s.store[ExpiresKey]).Some? && now < ParseInt(s.store[ExpiresKey]).value - 60
            ==> TokenStep(s, now, refresh) == TokenOutcome(s, Some(s.store[AccessKey]))
    ensures CheckToken(s.store, now).Expired? && refresh.Err? ==>
              TokenStep(s, now, refresh) == TokenOutcome(DisconnectStep(s), None)
    ensures CheckToken(s.store, now).Expired? && refresh.Ok? ==>
              TokenStep(s, now, refresh) == TokenOutcome(SaveTokensStep(s, refresh.value), Some(refresh.value.accessToken))
  {
  }

  /** Sending always records the user's message first, then at most the coach's answer. */
  lemma SendAppendsUserMessageFirst(s: State, content: string, apiKey: string, reply: Result<string, string>,
                                    parse: string -> Option<Json>)
    requires apiKey != ""
    ensures var r := SendStep(s, content, apiKey, reply, parse);
            |s.chatMessages| + 1 <= |r.chatMessages| <= |s.chatMessages| + 2
            && r.chatMessages[..|s.chatMessages| + 1] == s.chatMessages + [ChatMessage(User, content)]
  {
    var r := SendStep(s, content, apiKey, reply, parse);
    var withUser := s.chatMessages + [ChatMessage(User, content)];
    if reply.Ok? {
      assert r.chatMessages == withUser + [r.chatMessages[|r.chatMessages| - 1]];
      assert (withUser + [r.chatMessages[|r.chatMessages| - 1]])[..|withUser|] == withUser;
    }
  }

  /** Without an OpenAI key, sending does nothing, not even record the message. */
  lemma SendNeedsKey(s: State, content: string, reply: Result<string, string>, parse: string -> Option<Json>)
    ensures SendStep(s, content, "", reply, parse) == s
  {
  }

  /** A failed coach call leaves the user's message recorded, reports the error, and changes nothing else. */
  lemma SendReplyFailure(s: State, content: string, apiKey: string, e: string, parse: string -> Option<Json>)
    requires apiKey != ""
    ensures SendStep(s, content, apiKey, Err(e), parse)
            == s.(chatMessages := s.chatMessages + [ChatMessage(User, content)], error := Some(ChatErrorPrefix + e))
  {
  }

  /**
   * A reply without a complete tag pair, or whose plan does not parse, is
   * appended exactly as received, and the plan, its text and the storage
   * stay as they were.
   */
  lemma SendWithoutRevision(s: State, content: string, apiKey: string, text: string, parse: string -> Option<Json>)
    requires apiKey != ""
    requires FindRegion(text).None? || parse(CleanPayload(Payload(text, FindRegion(text).value))).None?
    ensures var r := SendStep(s, content, apiKey, Ok(text), parse);
            r.chatMessages == s.chatMessages + [ChatMessage(User, content), ChatMessage(Assistant, text)]
            && r.parsedPlan == s.parsedPlan && r.suggestions == s.suggestions && r.store == s.store
  {
    assert s.chatMessages + [ChatMessage(User, content)] + [ChatMessage(Assistant, text)]
           == s.chatMessages + [ChatMessage(User, content), ChatMessage(Assistant, text)];
  }

  /**
   * A reply whose first tagged plan parses replaces the plan by it, keeps
   * its cleaned text in memory and in storage, and shows the reply with
   * the region replaced by the confirmation.
   */
  lemma SendAdoptsRevision(s: State, content: string, apiKey: string, text: string, parse: string -> Option<Json>)
    requires apiKey != ""
    requires FindRegion(text).Some?
    requires parse(CleanPayload(Payload(text, FindRegion(text).value))).Some?
    ensures var rg := FindRegion(text).value;
            var planText := CleanPayload(Payload(text, rg));
            var r := SendStep(s, content, apiKey, Ok(text), parse);
            Some(r.parsedPlan) == parse(planText)
            && r.suggestions == Some(planText)
            && Get(r.store, SuggestionsKey) == Some(planText)
            && r.chatMessages == s.chatMessages + [ChatMessage(User, content),
                 ChatMessage(Assistant, text[..rg.start] + Confirmation + text[rg.close + |CloseTag|..])]
  {
    assert forall a: seq<ChatMessage>, x, y :: a + [x] + [y] == a + [x, y];
  }

  /** Saving goals sets them in memory, writes their encoding under the goals key, and changes nothing else. */
  lemma SaveGoalsWrites(s: State, goals: UserGoals, stringify: Json -> string)
    ensures var r := SaveGoalsStep(s, goals, stringify);
            r.userGoals == Some(GoalsToJson(goals))
            && Get(r.store, GoalsKey) == Some(stringify(GoalsToJson(goals)))
            && (forall k :: k != GoalsKey ==> Get(r.store, k) == Get(s.store, k))
            && r.(userGoals := s.userGoals, store := s.store) == s
  {
  }

  /** The transcript effect writes the transcript's encoding under its key and changes nothing else. */
  lemma PersistChatWritesOnlyChat(s: State, stringify: Json -> string)
    ensures var r := PersistChatStep(s, stringify);
            Get(r.store, ChatKey) == Some(stringify(ChatToJson(s.chatMessages)))
            && (forall k :: k != ChatKey ==> Get(r.store, k) == Get(s.store, k))
            && r.(store := s.store) == s
  {
  }

  /**
   * A token step that yields a token touches only the token entries of
   * storage and the token in memory.
   */
  lemma TokenStepKeepsSession(s: State, now: int, refresh: Result<TokenData, string>)
    requires Filled(TokenStep(s, now, refresh).token)
    ensures var r := TokenStep(s, now, refresh).state;
            r.(store := s.store, stravaToken := s.stravaToken) == s
            && forall k :: k != AccessKey && k != RefreshKey && k != ExpiresKey ==> Get(r.store, k) == Get(s.store, k)
  {
  }

  /**
   * `handleRefreshWorkouts`: without a usable token, only the connect
   * message is added to what the token step left; a failed fetch reports
   * its message and keeps the cached activities in memory and in storage;
   * a successful one replaces them and stores their encoding.
   */
  lemma RefreshStepCases(s: State, now: int, refresh: Result<TokenData, string>,
                         fetched: Result<seq<StravaActivity>, string>, stringify: Json -> string)
    ensures var t := TokenStep(s.(error := None), now, refresh);
            var r := RefreshStep(s, now, refresh, fetched, stringify);
            (!Filled(t.token) ==> r == t.state.(error := Some(NotConnectedMessage)))
            && (Filled(t.token) && fetched.Err? ==>
                  r.error == Some(RefreshErrorPrefix + fetched.error)
                  && r.activities == s.activities
                  && Get(r.store, ActivitiesKey) == Get(s.store, ActivitiesKey)
                  && r.suggestions == s.suggestions && r.parsedPlan == s.parsedPlan)
            && (Filled(t.token) && fetched.Ok? ==>
                  r.error == None
                  && r.activities == fetched.value
                  && Get(r.store, ActivitiesKey) == Some(stringify(ActivitiesToJson(fetched.value))))
  {
    var t := TokenStep(s.(error := None), now, refresh);
    if Filled(t.token) {
      TokenStepKeepsSession(s.(error := None), now, refresh);
    }
  }

  /**
   * A generation whose activity fetch fails reports the error and keeps
   * the cached activities, the plan text and the plan as they were.
   */
  lemma GenerateFetchFailureKeepsCache(s: State, apiKey: string, now: int, refresh: Result<TokenData, string>,
                                       e: string, completion: Result<string, string>, codec: Codec)
    requires HasGoals(s) && apiKey != "" && Filled(TokenStep(s.(error := None), now, refresh).token)
    ensures var r := GenerateStep(s, apiKey, now, refresh, Err(e), completion, codec);
            r.error == Some(GenerateErrorPrefix + e)
            && r.activities == s.activities
            && Get(r.store, ActivitiesKey) == Get(s.store, ActivitiesKey)
            && r.suggestions == s.suggestions
            && Get(r.store, SuggestionsKey) == Get(s.store, SuggestionsKey)
            && r.parsedPlan == s.parsedPlan
  {
    TokenStepKeepsSession(s.(error := None), now, refresh);
  }

  /** Generation ran up to the model's answer: goals, key and token were there, and the fetch succeeded. */
  predicate GenerationAnswered(s: State, apiKey: string, now: int, refresh: Result<TokenData, string>,
                               fetched: Result<seq<StravaActivity>, string>) {
    HasGoals(s) && apiKey != "" && Filled(TokenStep(s.(error := None), now, refresh).token) && fetched.Ok?
  }

  /**
   * An answered generation always keeps the raw answer as the plan text,
   * in memory and in storage, and stores the fetched activities; the
   * parsed plan changes only when the answer parses.
   */
  lemma GenerateKeepsRawAnswer(s: State, apiKey: string, now: int, refresh: Result<TokenData, string>,
                               fetched: Result<seq<StravaActivity>, string>, text: string, codec: Codec)
    requires GenerationAnswered(s, apiKey, now, refresh, fetched)
    ensures var r := GenerateStep(s, apiKey, now, refresh, fetched, Ok(text), codec);
            r.suggestions == Some(text)
            && Get(r.store, SuggestionsKey) == Some(text)
            && r.activities == fetched.value
            && Get(r.store, ActivitiesKey) == Some(codec.stringify(ActivitiesToJson(fetched.value)))
            && (codec.parse(text).Some? ==> r.parsedPlan == codec.parse(text).value)
            && (codec.parse(text).None? ==> r.parsedPlan == TokenStep(s.(error := None), now, refresh).state.parsedPlan)
  {
  }

  /** Generation without goals or without a key does nothing at all. */
  lemma GenerateNeedsGoalsAndKey(s: State, apiKey: string, now: int, refresh: Result<TokenData, string>,
                                 fetched: Result<seq<StravaActivity>, string>, completion: Result<string, string>,
                                 codec: Codec)
    requires !HasGoals(s) || apiKey == ""
    ensures GenerateStep(s, apiKey, now, refresh, fetched, completion, codec) == s
  {
  }

  /**
   * Without a usable token, generation stops with the connect message,
   * before any fetch: with the state unchanged when the token triple is
   * missing, and after a disconnect when the refresh of an expired token fails.
   */
  lemma GenerateNeedsToken(s: State, apiKey: string, now: int, refresh: Result<TokenData, string>,
                           fetched: Result<seq<StravaActivity>, string>, completion: Result<string, string>,
                           codec: Codec)
    requires HasGoals(s) && apiKey != ""
    requires !Filled(TokenStep(s.(error := None), now, refresh).token)
    ensures GenerateStep(s, apiKey, now, refresh, fetched, completion, codec)
            == TokenStep(s.(error := None), now, refresh).state.(error := Some(NotConnectedMessage))
    ensures !TokensPresent(s.store) ==>
              GenerateStep(s, apiKey, now, refresh, fetched, completion, codec) == s.(error := Some(NotConnectedMessage))
    ensures CheckToken(s.store, now).Expired? && refresh.Err? ==>
              GenerateStep(s, apiKey, now, refresh, fetched, completion, codec)
              == DisconnectStep(s).(error := Some(NotConnectedMessage))
  {
  }

  /**
   * A generation whose model call fails after the fetch has stored the
   * fetched activities, reports the error, and keeps the plan text and
   * the plan.
   */
  lemma GenerateCompletionFailure(s: State, apiKey: string, now: int, refresh: Result<TokenData, string>,
                                  acts: seq<StravaActivity>, e: string, codec: Codec)
    requires HasGoals(s) && apiKey != "" && Filled(TokenStep(s.(error := None), now, refresh).token)
    ensures var t := TokenStep(s.(error := None), now, refresh).state;
            var r := GenerateStep(s, apiKey, now, refresh, Ok(acts), Err(e), codec);
            r == t.(activities := acts, store := t.store[ActivitiesKey := codec.stringify(ActivitiesToJson(acts))],
                    error := Some(GenerateErrorPrefix + e))
            && r.suggestions == s.suggestions
            && Get(r.store, SuggestionsKey) == Get(s.store, SuggestionsKey)
            && r.parsedPlan == s.parsedPlan
  {
    TokenStepKeepsSession(s.(error := None), now, refresh);
  }

  // ---------------------------------------------------------------------
  // The plan view

  /** What the plan panel shows. */
  datatype PlanView = NoPlan | StructuredPlan(plan: Json) | RawText(text: string)

  /** No plan text: the empty panel; a truthy parsed plan: the plan cards; otherwise the raw text. */
  function ViewOf(s: State): (v: PlanView)
    ensures v.NoPlan? <==> !Filled(s.suggestions)
    ensures v.StructuredPlan? ==> Truthy(s.parsedPlan) && v.plan == s.parsedPlan
    ensures v.RawText? ==> !Truthy(s.parsedPlan) && Some(v.text) == s.suggestions
  {
    if !Filled(s.suggestions) then NoPlan
    else if Truthy(s.parsedPlan) then StructuredPlan(s.parsedPlan)
    else RawText(s.suggestions.value)
  }

  /**
   * A generation whose answer does not parse leaves the previous plan on
   * screen next to the new raw text, while a reload of the same storage
   * shows the raw text: the two views disagree.
   */
  lemma StalePlanAfterUnparsableAnswer(s: State, apiKey: string, now: int, refresh: Result<TokenData, string>,
                                       fetched: Result<seq<StravaActivity>, string>, text: string, codec: Codec)
    requires GenerationAnswered(s, apiKey, now, refresh, fetched)
    requires text != "" && codec.parse(text).None?
    requires Truthy(TokenStep(s.(error := None), now, refresh).state.parsedPlan)
    ensures var r := GenerateStep(s, apiKey, now, refresh, fetched, Ok(text), codec);
            ViewOf(r) == StructuredPlan(TokenStep(s.(error := None), now, refresh).state.parsedPlan)
            && ViewOf(r.(parsedPlan := LoadPlan(Get(r.store, SuggestionsKey), codec.parse))) == RawText(text)
            && !PlanMatchesStore(r, codec.parse)
  {
    GenerateKeepsRawAnswer(s, apiKey, now, refresh, fetched, text, codec);
  }

  /** A generation whose non-empty answer parses leaves the plan in step with storage. */
  lemma ParsedAnswerMatchesStore(s: State, apiKey: string, now: int, refresh: Result<TokenData, string>,
                                 fetched: Result<seq<StravaActivity>, string>, text: string, codec: Codec)
    requires GenerationAnswered(s, apiKey, now, refresh, fetched)
    requires text != "" && codec.parse(text).Some?
    ensures PlanMatchesStore(GenerateStep(s, apiKey, now, refresh, fetched, Ok(text), codec), codec.parse)
  {
    GenerateKeepsRawAnswer(s, apiKey, now, refresh, fetched, text, codec);
  }

  // ---------------------------------------------------------------------
  // The component

  /** The dashboard component: its state variables, and browser storage. */
  class Dashboard {
    const codec: Codec
    var store: map<string, string>
    var userGoals: Option<Json>
    var stravaToken: Option<string>
    var activities: seq<StravaActivity>
    var suggestions: Option<string>
    var parsedPlan: Json
    var chatMessages: seq<ChatMessage>
    var error: Option<string>

    function Snapshot(): State
      reads this
    {
      State(store, userGoals, stravaToken, activities, suggestions, parsedPlan, chatMessages, error)
    }

    predicate Valid()
      reads this
    {
      Mirrors(Snapshot())
    }

    /**
     * Mounting: the initializers read storage. `savedActivities` and
     * `savedChat` are the decoded saved entries, empty when nothing is saved.
     */
    constructor (initialStore: map<string, string>, codec: Codec,
                 savedActivities: seq<StravaActivity>, savedChat: seq<ChatMessage>)
      requires LoadGoals(Get(initialStore, GoalsKey), codec.parse).Ok?
      requires !Filled(Get(initialStore, ActivitiesKey)) ==> savedActivities == []
      requires !Filled(Get(initialStore, ChatKey)) ==> savedChat == []
      ensures Snapshot() == Initial(initialStore, codec.parse, savedActivities, savedChat)
      ensures this.codec == codec
      ensures Valid() && PlanMatchesStore(Snapshot(), codec.parse)
    {
      this.codec := codec;
      store := initialStore;
      userGoals := LoadGoals(Get(initialStore, GoalsKey), codec.parse).value;
      stravaToken := Get(initialStore, AccessKey);
      activities := savedActivities;
      suggestions := Get(initialStore, SuggestionsKey);
      parsedPlan := LoadPlan(Get(initialStore, SuggestionsKey), codec.parse);
      chatMessages := savedChat;
      error := None;
    }

    method SaveStravaTokens(data: TokenData)
      requires Valid()
      modifies this
      ensures Snapshot() == SaveTokensStep(old(Snapshot()), data)
      ensures Valid()
    {
      store := store[AccessKey := data.accessToken];
      store := store[RefreshKey := data.refreshToken];
      store := store[ExpiresKey := IntToString(data.expiresAt)];
      stravaToken := Some(data.accessToken);
    }

    method DisconnectStrava()
      modifies this
      ensures Snapshot() == DisconnectStep(old(Snapshot()))
      ensures Valid()
    {
      store := store - {AccessKey};
      store := store - {RefreshKey};
      store := store - {ExpiresKey};
      store := store - {ActivitiesKey};
      store := store - {SuggestionsKey};
      store := store - {ChatKey};
      assert store == old(store) - SessionKeys;
      stravaToken := None;
      activities := [];
      suggestions := None;
      parsedPlan := Null;
      chatMessages := [];
    }

    method GetValidToken(now: int, refresh: Result<TokenData, string>) returns (token: Option<string>)
      requires Valid()
      modifies this
      ensures TokenOutcome(Snapshot(), token) == TokenStep(old(Snapshot()), now, refresh)
      ensures Valid()
    {
      var accessToken := Get(store, AccessKey);
      var refreshToken := Get(store, RefreshKey);
      var expiresAt := Get(store, ExpiresKey);
      if !Filled(accessToken) || !Filled(refreshToken) || !Filled(expiresAt) {
        return None;
      }
      var expiry := ParseInt(expiresAt.value);
      if expiry.Some? && now < expiry.value - 60 {
        return accessToken;
      }
      match refresh {
        case Ok(data) =>
          SaveStravaTokens(data);
          token := Some(data.accessToken);
        case Err(_) =>
          DisconnectStrava();
          token := None;
      }
    }

    method SaveGoals(goals: UserGoals)
      requires Valid()
      modifies this
      ensures Snapshot() == SaveGoalsStep(old(Snapshot()), goals, codec.stringify)
      ensures Valid()
    {
      userGoals := Some(GoalsToJson(goals));
      store := store[GoalsKey := codec.stringify(GoalsToJson(goals))];
    }

    method PersistChat()
      requires Valid()
      modifies this
      ensures Snapshot() == PersistChatStep(old(Snapshot()), codec.stringify)
      ensures Valid()
    {
      store := store[ChatKey := codec.stringify(ChatToJson(chatMessages))];
    }

    method SendMessage(content: string, apiKey: string, reply: Result<string, string>)
      requires Valid()
      modifies this
      ensures Snapshot() == SendStep(old(Snapshot()), content, apiKey, reply, codec.parse)
      ensures Valid()
    {
      if apiKey == "" {
        return;
      }
      chatMessages := chatMessages + [ChatMessage(User, content)];
      match reply {
        case Err(e) =>
          error := Some(ChatErrorPrefix + e);
        case Ok(text) =>
          ShowReply(HandleCoachReply(text, codec.parse));
      }
    }

    /** The handled reply applied: the revised plan adopted and stored, if any, and the reply shown. */
    method ShowReply(outcome: Outcome)
      requires Valid()
      modifies this
      ensures Snapshot() == AfterReply(old(Snapshot()), outcome)
      ensures Valid()
    {
      if outcome.replacement.Some? {
        parsedPlan := outcome.replacement.value.plan;
        suggestions := Some(outcome.replacement.value.text);
        store := store[SuggestionsKey := outcome.replacement.value.text];
      }
      chatMessages := chatMessages + [ChatMessage(Assistant, outcome.display)];
    }

    method GeneratePlan(apiKey: string, now: int, refresh: Result<TokenData, string>,
                        fetched: Result<seq<StravaActivity>, string>, completion: Result<string, string>)
      requires Valid()
      modifies this
      ensures Snapshot() == GenerateStep(old(Snapshot()), apiKey, now, refresh, fetched, completion, codec)
      ensures Valid()
    {
      if !(userGoals.Some? && Truthy(userGoals.value)) || apiKey == "" {
        return;
      }
      error := None;
      var token := GetValidToken(now, refresh);
      if !Filled(token) {
        error := Some(NotConnectedMessage);
        return;
      }
      match fetched {
        case Err(e) =>
          error := Some(GenerateErrorPrefix + e);
        case Ok(recentActivities) =>
          activities := recentActivities;
          store := store[ActivitiesKey := codec.stringify(ActivitiesToJson(recentActivities))];
          match completion {
            case Err(e) =>
              error := Some(GenerateErrorPrefix + e);
            case Ok(workoutPlan) =>
              suggestions := Some(workoutPlan);
              store := store[SuggestionsKey := workoutPlan];
              var parsed := codec.parse(workoutPlan);
              if parsed.Some? {
                parsedPlan := parsed.value;
              }
          }
      }
    }

    method RefreshWorkouts(now: int, refresh: Result<TokenData, string>, fetched: Result<seq<StravaActivity>, string>)
      requires Valid()
      modifies this
      ensures Snapshot() == RefreshStep(old(Snapshot()), now, refresh, fetched, codec.stringify)
      ensures Valid()
    {
      error := None;
      var token := GetValidToken(now, refresh);
      if !Filled(token) {
        error := Some(NotConnectedMessage);
        return;
      }
      match fetched {
        case Err(e) =>
          error := Some(RefreshErrorPrefix + e);
        case Ok(latestActivities) =>
          activities := latestActivities;
          store := store[ActivitiesKey := codec.stringify(ActivitiesToJson(latestActivities))];
      }
    }
  }
}
