/**
 * Strength statistics from Hevy workouts: per exercise name, the best
 * Epley one-rep-max estimate, the best single-set volume, and the weight
 * and reps of the last set that is first in its exercise.
 *
 * The statistics table is specified by a left fold over the workouts
 * (`ApplyWorkouts`), which the nested loops of `CalculateExerciseStats`
 * are proved to compute; the lemmas then say what the fold yields for
 * each name, independently of how it is computed.
 */
module Hevy {
  import opened Wrappers

  datatype HevySet = HevySet(
    id: string,
    index: int,
    weightKg: real,
    reps: real,
    distanceMeters: Option<real>,
    durationSeconds: Option<real>,
    rpe: Option<real>)

  datatype HevyExerciseSet = HevyExerciseSet(id: string, exerciseTitle: string, notes: string, sets: seq<HevySet>)

  datatype HevyWorkout = HevyWorkout(
    id: string,
    title: string,
    description: string,
    startTime: string,
    endTime: string,
    exercises: seq<HevyExerciseSet>)

  datatype ExerciseStats = ExerciseStats(exerciseName: string, oneRepMax: real, maxVolume: real, lastWeight: real, lastReps: real)

  /** The Epley estimate of the one-repetition maximum of a set. */
  function Epley(s: HevySet): real {
    s.weightKg * (1.0 + s.reps / 30.0)
  }

  function Volume(s: HevySet): real {
    s.weightKg * s.reps
  }

  /** The entry created the first time a name is seen. */
  function FreshStats(name: string): ExerciseStats {
    ExerciseStats(name, 0.0, 0.0, 0.0, 0.0)
  }

  /** The effect of one set on its exercise's entry. */
  function ApplySet(e: ExerciseStats, s: HevySet): (r: ExerciseStats)
    ensures r.exerciseName == e.exerciseName
    ensures r.oneRepMax == (if Epley(s) > e.oneRepMax then Epley(s) else e.oneRepMax)
    ensures r.maxVolume == (if Volume(s) > e.maxVolume then Volume(s) else e.maxVolume)
    ensures s.index == 0 ==> r.lastWeight == s.weightKg && r.lastReps == s.reps
    ensures s.index != 0 ==> r.lastWeight == e.lastWeight && r.lastReps == e.lastReps
  {
    var e1 := if Epley(s) > e.oneRepMax then e.(oneRepMax := Epley(s)) else e;
    var e2 := if Volume(s) > e1.maxVolume then e1.(maxVolume := Volume(s)) else e1;
    if s.index == 0 then e2.(lastWeight := s.weightKg, lastReps := s.reps) else e2
  }

  /** The sets of an exercise applied in order. */
  function ApplySets(e: ExerciseStats, sets: seq<HevySet>): (r: ExerciseStats)
    ensures r.exerciseName == e.exerciseName
    ensures sets == [] ==> r == e
  {
    if sets == [] then e else ApplySet(ApplySets(e, sets[..|sets| - 1]), sets[|sets| - 1])
  }

  /** The maxima only grow, reach every set's value, and are attained by a set or the start value. */
  lemma {:induction false} ApplySetsMaxima(e: ExerciseStats, sets: seq<HevySet>)
    ensures ApplySets(e, sets).exerciseName == e.exerciseName
    ensures e.oneRepMax <= ApplySets(e, sets).oneRepMax
    ensures forall k :: 0 <= k < |sets| ==> Epley(sets[k]) <= ApplySets(e, sets).oneRepMax
    ensures ApplySets(e, sets).oneRepMax == e.oneRepMax
            || exists k :: 0 <= k < |sets| && ApplySets(e, sets).oneRepMax == Epley(sets[k])
    ensures e.maxVolume <= ApplySets(e, sets).maxVolume
    ensures forall k :: 0 <= k < |sets| ==> Volume(sets[k]) <= ApplySets(e, sets).maxVolume
    ensures ApplySets(e, sets).maxVolume == e.maxVolume
            || exists k :: 0 <= k < |sets| && ApplySets(e, sets).maxVolume == Volume(sets[k])
  {
    if sets != [] {
      var init := sets[..|sets| - 1];
      ApplySetsMaxima(e, init);
      var p := ApplySets(e, init);
      if p.oneRepMax != e.oneRepMax {
        var k :| 0 <= k < |init| && p.oneRepMax == Epley(init[k]);
        assert init[k] == sets[k];
      }
      if p.maxVolume != e.maxVolume {
        var k :| 0 <= k < |init| && p.maxVolume == Volume(init[k]);
        assert init[k] == sets[k];
      }
      forall k | 0 <= k < |init| ensures Epley(sets[k]) <= p.oneRepMax && Volume(sets[k]) <= p.maxVolume {
        assert init[k] == sets[k];
      }
    }
  }

  /** A set is the last one that is first in its exercise. */
  predicate LastFirstSet(sets: seq<HevySet>, k: int) {
    0 <= k < |sets| && sets[k].index == 0 && forall j :: k < j < |sets| ==> sets[j].index != 0
  }

  /** The last-set fields come from the last set with index 0, and stay as they were without one. */
  lemma {:induction false} ApplySetsLast(e: ExerciseStats, sets: seq<HevySet>)
    ensures (forall k :: 0 <= k < |sets| ==> sets[k].index != 0) ==>
              ApplySets(e, sets).lastWeight == e.lastWeight && ApplySets(e, sets).lastReps == e.lastReps
    ensures forall k :: LastFirstSet(sets, k) ==>
              ApplySets(e, sets).lastWeight == sets[k].weightKg && ApplySets(e, sets).lastReps == sets[k].reps
  {
    if sets != [] {
      var init := sets[..|sets| - 1];
      ApplySetsLast(e, init);
      forall k | LastFirstSet(sets, k) && k < |sets| - 1 ensures LastFirstSet(init, k) {
        forall j | k < j < |init| ensures init[j].index != 0 {
          assert init[j] == sets[j];
        }
      }
      if forall k :: 0 <= k < |sets| ==> sets[k].index != 0 {
        forall k | 0 <= k < |init| ensures init[k].index != 0 {
          assert init[k] == sets[k];
        }
      }
    }
  }

  lemma {:induction false} ApplySetsConcat(e: ExerciseStats, a: seq<HevySet>, b: seq<HevySet>)
    ensures ApplySets(e, a + b) == ApplySets(ApplySets(e, a), b)
  {
    if b == [] {
      assert a + b == a;
    } else {
      assert (a + b)[..|a + b| - 1] == a + b[..|b| - 1];
      ApplySetsConcat(e, a, b[..|b| - 1]);
    }
  }

  /** The name-keyed table; `order` is the insertion order of the keys. */
  datatype Table = Table(entries: map<string, ExerciseStats>, order: seq<string>)

  const EmptyTable: Table := Table(map[], [])

  /** Every listed name has an entry. */
  predicate Covered(t: Table) {
    forall n :: n in t.order ==> n in t.entries
  }

  /** A well-formed table: the listed names are exactly the keys, listed once, each entry under its own name. */
  predicate Distinct(xs: seq<string>) {
    forall i, j :: 0 <= i < j < |xs| ==> xs[i] != xs[j]
  }

  ghost predicate TableOk(t: Table) {
    (forall n :: n in t.entries <==> n in t.order)
    && Distinct(t.order)
    && (forall n :: n in t.entries ==> t.entries[n].exerciseName == n)
  }

  /** One exercise: create its entry if the name is new, then apply its sets. */
  function ApplyExercise(t: Table, ex: HevyExerciseSet): (r: Table)
    ensures Covered(t) ==> Covered(r)
  {
    var name := ex.exerciseTitle;
    var t1 := if name in t.entries then t else Table(t.entries[name := FreshStats(name)], t.order + [name]);
    Table(t1.entries[name := ApplySets(t1.entries[name], ex.sets)], t1.order)
  }

  function ApplyExercises(t: Table, exs: seq<HevyExerciseSet>): (r: Table)
    ensures Covered(t) ==> Covered(r)
  {
    if exs == [] then t else ApplyExercise(ApplyExercises(t, exs[..|exs| - 1]), exs[|exs| - 1])
  }

  function ApplyWorkouts(t: Table, ws: seq<HevyWorkout>): (r: Table)
    ensures Covered(t) ==> Covered(r)
  {
    if ws == [] then t else ApplyExercises(ApplyWorkouts(t, ws[..|ws| - 1]), ws[|ws| - 1].exercises)
  }

  /** `Object.values(statsMap)`, in insertion order. */
  function Values(t: Table): seq<ExerciseStats>
    requires Covered(t)
  {
    seq(|t.order|, i requires 0 <= i < |t.order| => t.entries[t.order[i]])
  }

  /** What `calculateExerciseStats` returns. */
  function Stats(ws: seq<HevyWorkout>): (r: seq<ExerciseStats>)
    ensures ws == [] ==> r == []
  {
    Values(ApplyWorkouts(EmptyTable, ws))
  }

  /** The exercise titles in traversal order, repeats included. */
  function Titles(exs: seq<HevyExerciseSet>): seq<string> {
    if exs == [] then [] else Titles(exs[..|exs| - 1]) + [exs[|exs| - 1].exerciseTitle]
  }

  /** The exercises of all workouts, in traversal order. */
  function AllExercises(ws: seq<HevyWorkout>): seq<HevyExerciseSet> {
    if ws == [] then [] else AllExercises(ws[..|ws| - 1]) + ws[|ws| - 1].exercises
  }

  /** The sets of every exercise with the given title, in traversal order. */
  function SetsNamed(exs: seq<HevyExerciseSet>, name: string): seq<HevySet> {
    if exs == [] then []
    else SetsNamed(exs[..|exs| - 1], name) + (if exs[|exs| - 1].exerciseTitle == name then exs[|exs| - 1].sets else [])
  }

  /** `seen` followed by the names of `xs` not seen before, in order of first appearance. */
  function FirstSeen(seen: seq<string>, xs: seq<string>): seq<string> {
    if xs == [] then seen
    else
      var p := FirstSeen(seen, xs[..|xs| - 1]);
      if xs[|xs| - 1] in p then p else p + [xs[|xs| - 1]]
  }

  /** The entry a name starts from in a table. */
  function Base(t: Table, name: string): ExerciseStats {
    if name in t.entries then t.entries[name] else FreshStats(name)
  }

  /** The names of all exercises, each once, in order of first appearance. */
  function Names(ws: seq<HevyWorkout>): seq<string> {
    FirstSeen([], Titles(AllExercises(ws)))
  }

  lemma {:induction false} FirstSeenProps(seen: seq<string>, xs: seq<string>)
    requires Distinct(seen)
    ensures Distinct(FirstSeen(seen, xs))
    ensures forall n :: n in FirstSeen(seen, xs) <==> n in seen || n in xs
  {
    if xs != [] {
      var init := xs[..|xs| - 1];
      FirstSeenProps(seen, init);
      assert xs == init + [xs[|xs| - 1]];
    }
  }

  lemma {:induction false} SetsNamedAbsent(exs: seq<HevyExerciseSet>, name: string)
    requires name !in Titles(exs)
    ensures SetsNamed(exs, name) == []
  {
    if exs != [] {
      SetsNamedAbsent(exs[..|exs| - 1], name);
    }
  }

  lemma {:induction false} ApplyExercisesConcat(t: Table, a: seq<HevyExerciseSet>, b: seq<HevyExerciseSet>)
    ensures ApplyExercises(t, a + b) == ApplyExercises(ApplyExercises(t, a), b)
  {
    if b == [] {
      assert a + b == a;
    } else {
      assert (a + b)[..|a + b| - 1] == a + b[..|b| - 1];
      ApplyExercisesConcat(t, a, b[..|b| - 1]);
    }
  }

  /** The nested traversal is the traversal of the flattened exercise list. */
  lemma {:induction false} ApplyWorkoutsFlat(t: Table, ws: seq<HevyWorkout>)
    ensures ApplyWorkouts(t, ws) == ApplyExercises(t, AllExercises(ws))
  {
    if ws != [] {
      var init := ws[..|ws| - 1];
      ApplyWorkoutsFlat(t, init);
      ApplyExercisesConcat(t, AllExercises(init), ws[|ws| - 1].exercises);
    }
  }

  /** One exercise keeps a table well formed, listing a new title last. */
  lemma ApplyExerciseStep(p: Table, ex: HevyExerciseSet)
    requires TableOk(p)
    ensures TableOk(ApplyExercise(p, ex))
    ensures ApplyExercise(p, ex).order ==
              if ex.exerciseTitle in p.order then p.order else p.order + [ex.exerciseTitle]
  {
    var name := ex.exerciseTitle;
    var r := ApplyExercise(p, ex);
    ApplySetsMaxima(Base(p, name), ex.sets);
    if name !in p.entries {
      forall i, j | 0 <= i < j < |r.order| ensures r.order[i] != r.order[j] {
        if j == |r.order| - 1 {
          assert r.order[i] in p.order;
        }
      }
    }
  }

  /** After a run of exercises the table is well formed, its names in order of first appearance. */
  lemma {:induction false} ApplyExercisesOrder(t: Table, exs: seq<HevyExerciseSet>)
    requires TableOk(t)
    ensures TableOk(ApplyExercises(t, exs))
    ensures ApplyExercises(t, exs).order == FirstSeen(t.order, Titles(exs))
  {
    if exs != [] {
      var init := exs[..|exs| - 1];
      ApplyExercisesOrder(t, init);
      ApplyExerciseStep(ApplyExercises(t, init), exs[|exs| - 1]);
    }
  }

  /** One exercise updates the entry of its own title and no other. */
  lemma ApplyExerciseEntries(p: Table, ex: HevyExerciseSet)
    ensures ex.exerciseTitle in ApplyExercise(p, ex).entries
    ensures ApplyExercise(p, ex).entries[ex.exerciseTitle] == ApplySets(Base(p, ex.exerciseTitle), ex.sets)
    ensures forall n :: n != ex.exerciseTitle ==>
              (n in ApplyExercise(p, ex).entries <==> n in p.entries)
              && (n in p.entries ==> ApplyExercise(p, ex).entries[n] == p.entries[n])
  {
  }

  /** Entries are never removed, and every title gets one. */
  lemma {:induction false} KeysGrow(t: Table, exs: seq<HevyExerciseSet>, n: string)
    requires n in t.entries || n in Titles(exs)
    ensures n in ApplyExercises(t, exs).entries
  {
    if exs != [] {
      var init := exs[..|exs| - 1];
      ApplyExerciseEntries(ApplyExercises(t, init), exs[|exs| - 1]);
      if n in t.entries || n in Titles(init) {
        KeysGrow(t, init, n);
      }
    }
  }

  /**
   * After a run of exercises each name's entry is determined by that
   * name's sets alone, applied in traversal order.
   */
  lemma {:induction false} ApplyExercisesEntry(t: Table, exs: seq<HevyExerciseSet>, n: string)
    requires n in ApplyExercises(t, exs).entries
    ensures ApplyExercises(t, exs).entries[n] == ApplySets(Base(t, n), SetsNamed(exs, n))
  {
    if exs == [] {
      assert n in t.entries;
    } else {
      var init := exs[..|exs| - 1];
      var ex := exs[|exs| - 1];
      var p := ApplyExercises(t, init);
      assert ApplyExercises(t, exs) == ApplyExercise(p, ex);
      ApplyExerciseEntries(p, ex);
      if n != ex.exerciseTitle {
        ApplyExercisesEntry(t, init, n);
        assert SetsNamed(exs, n) == SetsNamed(init, n) + [];
        assert SetsNamed(init, n) + [] == SetsNamed(init, n);
      } else {
        if n in p.entries {
          ApplyExercisesEntry(t, init, n);
        } else {
          if n in t.entries || n in Titles(init) {
            KeysGrow(t, init, n);
          }
          SetsNamedAbsent(init, n);
        }
        ApplySetsConcat(Base(t, n), SetsNamed(init, n), ex.sets);
      }
    }
  }

  /**
   * What `calculateExerciseStats` returns: one entry per distinct exercise
   * title, in order of first appearance, each built from the sets of that
   * title only, starting from zeros; no workouts give no entries.
   */
  lemma StatsByName(ws: seq<HevyWorkout>)
    ensures |Stats(ws)| == |Names(ws)|
    ensures Distinct(Names(ws))
    ensures forall n :: n in Names(ws) <==> n in Titles(AllExercises(ws))
    ensures forall i :: 0 <= i < |Names(ws)| ==>
              Stats(ws)[i] == ApplySets(FreshStats(Names(ws)[i]), SetsNamed(AllExercises(ws), Names(ws)[i]))
    ensures ws == [] ==> Stats(ws) == []
  {
    ApplyWorkoutsFlat(EmptyTable, ws);
    ApplyExercisesOrder(EmptyTable, AllExercises(ws));
    forall i | 0 <= i < |Names(ws)|
      ensures Stats(ws)[i] == ApplySets(FreshStats(Names(ws)[i]), SetsNamed(AllExercises(ws), Names(ws)[i]))
    {
      ApplyExercisesEntry(EmptyTable, AllExercises(ws), Names(ws)[i]);
    }
    FirstSeenProps([], Titles(AllExercises(ws)));
  }

  /**
   * The statistics of one exercise name: the largest Epley estimate and
   * volume over that name's sets, or zero when larger; and the weight and
   * reps of its last set with index 0, or zero when it has none.
   */
  lemma StatsEntry(ws: seq<HevyWorkout>, i: int)
    requires 0 <= i < |Stats(ws)|
    ensures i < |Names(ws)| && Stats(ws)[i].exerciseName == Names(ws)[i]
    ensures var s, sets := Stats(ws)[i], SetsNamed(AllExercises(ws), Names(ws)[i]);
      0.0 <= s.oneRepMax
      && (forall k :: 0 <= k < |sets| ==> Epley(sets[k]) <= s.oneRepMax)
      && (s.oneRepMax == 0.0 || exists k :: 0 <= k < |sets| && s.oneRepMax == Epley(sets[k]))
      && 0.0 <= s.maxVolume
      && (forall k :: 0 <= k < |sets| ==> Volume(sets[k]) <= s.maxVolume)
      && (s.maxVolume == 0.0 || exists k :: 0 <= k < |sets| && s.maxVolume == Volume(sets[k]))
      && ((forall k :: 0 <= k < |sets| ==> sets[k].index != 0) ==> s.lastWeight == 0.0 && s.lastReps == 0.0)
      && (forall k :: LastFirstSet(sets, k) ==> s.lastWeight == sets[k].weightKg && s.lastReps == sets[k].reps)
  {
    StatsByName(ws);
    var sets := SetsNamed(AllExercises(ws), Names(ws)[i]);
    ApplySetsMaxima(FreshStats(Names(ws)[i]), sets);
    ApplySetsLast(FreshStats(Names(ws)[i]), sets);
  }

  /**
   * The callback of the exercise loop of `calculateExerciseStats`: create
   * the entry of a new name, then update it field by field, set by set.
   */
  method AddExercise(entries0: map<string, ExerciseStats>, order0: seq<string>, exercise: HevyExerciseSet)
    returns (entries: map<string, ExerciseStats>, order: seq<string>)
    ensures Table(entries, order) == ApplyExercise(Table(entries0, order0), exercise)
  {
    entries, order := entries0, order0;
    var name := exercise.exerciseTitle;
    if name !in entries {
      entries := entries[name := FreshStats(name)];
      order := order + [name];
    }
    ghost var start := entries;
    var k := 0;
    while k < |exercise.sets|
      invariant 0 <= k <= |exercise.sets|
      invariant name in start
      invariant entries == start[name := ApplySets(start[name], exercise.sets[..k])]
    {
      var hevySet := exercise.sets[k];
      var weight := hevySet.weightKg;
      var reps := hevySet.reps;
      var entry := entries[name];
      var estimated1RM := weight * (1.0 + reps / 30.0);
      assert estimated1RM == Epley(hevySet);
      if estimated1RM > entry.oneRepMax {
        entry := entry.(oneRepMax := estimated1RM);
      }
      var volume := weight * reps;
      assert volume == Volume(hevySet);
      if volume > entry.maxVolume {
        entry := entry.(maxVolume := volume);
      }
      if hevySet.index == 0 {
        entry := entry.(lastWeight := weight, lastReps := reps);
      }
      assert entry == ApplySet(entries[name], hevySet);
      assert exercise.sets[..k + 1][..k] == exercise.sets[..k];
      entries := entries[name := entry];
      k := k + 1;
    }
    assert exercise.sets[..k] == exercise.sets;
  }

  /**
   * `calculateExerciseStats`: loops over the workouts and their exercises,
   * then the values of the table in insertion order.
   */
  method CalculateExerciseStats(workouts: seq<HevyWorkout>) returns (stats: seq<ExerciseStats>)
    ensures stats == Stats(workouts)
  {
    var entries: map<string, ExerciseStats> := map[];
    var order: seq<string> := [];
    var i := 0;
    while i < |workouts|
      invariant 0 <= i <= |workouts|
      invariant Table(entries, order) == ApplyWorkouts(EmptyTable, workouts[..i])
    {
      var exercises := workouts[i].exercises;
      var j := 0;
      while j < |exercises|
        invariant 0 <= j <= |exercises|
        invariant Table(entries, order) == ApplyExercises(ApplyWorkouts(EmptyTable, workouts[..i]), exercises[..j])
      {
        entries, order := AddExercise(entries, order, exercises[j]);
        assert exercises[..j + 1][..j] == exercises[..j];
        j := j + 1;
      }
      assert exercises[..j] == exercises;
      assert workouts[..i + 1][..i] == workouts[..i];
      i := i + 1;
    }
    assert workouts[..i] == workouts;
    stats := Values(Table(entries, order));
  }
}
