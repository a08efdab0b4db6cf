/**
 * The user's goals as the goal form edits them, the form's defaults, the
 * multi-select toggle of preferred activities, and the JSON object the
 * goals are saved as.
 */
module GoalForm {
  import opened Wrappers
  import opened JsonValues

  /**
   * `preferredActivities` is None when the saved record lacks the field
   * (records written before the multi-select existed); `considerations`
   * is optional in the record type. `others` holds any further properties
   * of a loaded record (a leftover `preferredActivity`, say): the form
   * spreads the record it was given, so they travel along and are saved
   * back with it.
   */
  datatype UserGoals = UserGoals(
    mainGoal: string,
    daysPerWeek: int,
    fitnessLevel: string,
    preferredActivities: Option<seq<string>>,
    considerations: Option<string>,
    others: map<string, Json>)

  /** The property names of the declared fields. */
  const DeclaredKeys: set<string> := {"mainGoal", "daysPerWeek", "fitnessLevel", "preferredActivities", "considerations"}

  /** The form's initial goals when nothing was saved. */
  const DefaultGoals: UserGoals := UserGoals("", 3, "intermediate", Some(["running"]), Some(""), map[])

  /** `savedGoals || defaults`. */
  function InitialGoals(saved: Option<UserGoals>): (g: UserGoals)
    ensures saved.None? ==> g == UserGoals("", 3, "intermediate", Some(["running"]), Some(""), map[])
    ensures saved.Some? ==> g == saved.value
  {
    saved.GetOr(DefaultGoals)
  }

  /** `prev.preferredActivities || []`. */
  function Selected(g: UserGoals): seq<string> {
    g.preferredActivities.GetOr([])
  }

  /** `xs.filter(x => x !== a)`: every occurrence of `a` removed, the others kept in order. */
  function Without(xs: seq<string>, a: string): (r: seq<string>)
    ensures a !in r
    ensures multiset(r) == multiset(xs)[a := 0]
  {
    if xs == [] then []
    else
      var init := xs[..|xs| - 1];
      var last := xs[|xs| - 1];
      assert xs == init + [last];
      if last == a then Without(init, a) else Without(init, a) + [last]
  }

  /**
   * The filter works element by element, so it distributes over
   * concatenation: the surviving elements keep their original order.
   */
  lemma {:induction false} WithoutDistributes(xs: seq<string>, ys: seq<string>, a: string)
    ensures Without(xs + ys, a) == Without(xs, a) + Without(ys, a)
  {
    if ys == [] {
      assert xs + ys == xs;
    } else {
      var init := ys[..|ys| - 1];
      var last := ys[|ys| - 1];
      assert (xs + ys)[..|xs + ys| - 1] == xs + init;
      WithoutDistributes(xs, init, a);
    }
  }

  /** Which elements survive the filter: exactly those other than `a`. */
  lemma WithoutMembers(xs: seq<string>, a: string)
    ensures forall x :: x in Without(xs, a) <==> x in xs && x != a
    ensures (forall x :: x in xs ==> x == a) ==> Without(xs, a) == []
  {
    var r := Without(xs, a);
    forall x ensures x in r <==> x in xs && x != a {
      assert x in r <==> x in multiset(r);
      assert x in xs <==> x in multiset(xs);
    }
    if r != [] {
      assert r[0] in r;
    }
  }

  /**
   * `toggleActivity`: add an activity that is not selected, at the end;
   * remove every occurrence of one that is; and when that would leave
   * nothing selected, select just the toggled activity.
   */
  function ToggleActivity(g: UserGoals, activity: string): (r: UserGoals)
    ensures r.preferredActivities.Some? && r.preferredActivities.value != []
    ensures r.(preferredActivities := g.preferredActivities) == g
    ensures activity !in Selected(g) ==> r.preferredActivities.value == Selected(g) + [activity]
    ensures activity in Selected(g) && (exists x :: x in Selected(g) && x != activity) ==>
              r.preferredActivities.value == Without(Selected(g), activity)
    ensures (forall x :: x in Selected(g) ==> x == activity) ==> r.preferredActivities.value == [activity]
  {
    var current := Selected(g);
    var updated := if activity in current then Without(current, activity) else current + [activity];
    assert current != [] ==> current[0] in current;
    WithoutMembers(current, activity);
    g.(preferredActivities := Some(if |updated| > 0 then updated else [activity]))
  }

  lemma {:induction false} WithoutAbsent(xs: seq<string>, a: string)
    requires a !in xs
    ensures Without(xs, a) == xs
  {
    if xs != [] {
      WithoutAbsent(xs[..|xs| - 1], a);
    }
  }

  /** Toggling an unselected activity twice restores the selection it started from. */
  lemma ToggleTwiceRestores(g: UserGoals, activity: string)
    requires g.preferredActivities.Some? && g.preferredActivities.value != []
    requires activity !in g.preferredActivities.value
    ensures ToggleActivity(ToggleActivity(g, activity), activity) == g
  {
    var xs := g.preferredActivities.value;
    var once := ToggleActivity(g, activity);
    assert Selected(once) == xs + [activity];
    assert xs[0] in Selected(once) && xs[0] != activity;
    assert (xs + [activity])[..|xs|] == xs;
    WithoutAbsent(xs, activity);
  }

  /** The selection stays non-empty along any sequence of toggles. */
  function ToggleAll(g: UserGoals, activities: seq<string>): (r: UserGoals)
    ensures activities != [] ==> r.preferredActivities.Some? && r.preferredActivities.value != []
    ensures r.(preferredActivities := g.preferredActivities) == g
  {
    if activities == [] then g
    else ToggleActivity(ToggleAll(g, activities[..|activities| - 1]), activities[|activities| - 1])
  }

  /**
   * Toggling and then saving writes every property other than the list
   * exactly as the record had it, a leftover `preferredActivity` included.
   */
  lemma ToggleSavesOtherProperties(g: UserGoals, activity: string)
    ensures var before := GoalsToJson(g).fields;
            var after := GoalsToJson(ToggleActivity(g, activity)).fields;
            "preferredActivities" in after
            && forall k :: k != "preferredActivities" ==>
                 (k in after <==> k in before) && (k in after ==> after[k] == before[k])
  {
  }

  /**
   * The object `JSON.stringify` is given on save: the declared fields,
   * undefined ones left out, and every further property the record carries.
   */
  function GoalsToJson(g: UserGoals): (j: Json)
    ensures j.Obj? && "mainGoal" in j.fields && j.fields["mainGoal"] == Str(g.mainGoal)
    ensures ("preferredActivities" in j.fields) <==> g.preferredActivities.Some?
    ensures ("considerations" in j.fields) <==> g.considerations.Some?
    ensures "daysPerWeek" in j.fields && j.fields["daysPerWeek"] == Num(g.daysPerWeek as real)
    ensures "fitnessLevel" in j.fields && j.fields["fitnessLevel"] == Str(g.fitnessLevel)
    ensures g.preferredActivities.Some? ==>
              var xs := g.preferredActivities.value;
              j.fields["preferredActivities"].Arr?
              && |j.fields["preferredActivities"].items| == |xs|
              && forall i :: 0 <= i < |xs| ==> j.fields["preferredActivities"].items[i] == Str(xs[i])
    ensures g.considerations.Some? ==> j.fields["considerations"] == Str(g.considerations.value)
    ensures forall k :: k in g.others && k !in DeclaredKeys ==> k in j.fields && j.fields[k] == g.others[k]
    ensures forall k :: k in j.fields ==> k in DeclaredKeys || k in g.others
  {
    var base := (g.others - DeclaredKeys) + map[
      "mainGoal" := Str(g.mainGoal),
      "daysPerWeek" := Num(g.daysPerWeek as real),
      "fitnessLevel" := Str(g.fitnessLevel)];
    var withActivities := match g.preferredActivities
      case Some(xs) => base["preferredActivities" := Arr(seq(|xs|, i requires 0 <= i < |xs| => Str(xs[i])))]
      case None => base;
    var fields := match g.considerations
      case Some(c) => withActivities["considerations" := Str(c)]
      case None => withActivities;
    Obj(fields)
  }
}
