/**
 * The in-progress workout draft and the three edits the workout screen makes
 * to it (add, delete and edit a set), as functions from the draft before a
 * click to the draft after it.
 *
 * A handler that reads a property of a missing exercise or set throws a
 * TypeError in the browser; the draft is then left as it was. That outcome
 * is `TypeError` here.
 */
module Drafts {
  import opened Wrappers
  import opened Routines

  /** One logged set. Weight is stored, never computed with. */
  datatype LoggedSet = LoggedSet(weight: real, reps: int)

  /** One exercise of the draft, with the sets logged so far. */
  datatype DraftExercise = DraftExercise(name: string, sets: seq<LoggedSet>)

  /** The draft: the routine it was started from and one entry per exercise. */
  datatype Draft = Draft(routineId: string, routineName: string, exercises: seq<DraftExercise>)

  /** How a click handler ended. */
  datatype Status =
    | Rendered   // ran to its end and re-rendered the list
    | Ignored    // its guard was false: a NaN in add, a cancelled prompt in edit
    | TypeError  // read a property of an exercise or set that does not exist

  datatype Step = Step(status: Status, draft: Option<Draft>)

  /** A prompt's answer: cancelled (null), or a string whose parse may be NaN (None). */
  datatype Answer<T> = Cancelled | Entered(parsed: Option<T>)

  /** The draft's exercises are named `names`, one each, in that order. */
  predicate NamedAs(exs: seq<DraftExercise>, names: seq<string>)
  {
    |exs| == |names| && forall i :: 0 <= i < |exs| ==> exs[i].name == names[i]
  }

  /** One draft entry per routine exercise, each with no sets. */
  function EmptyEntries(exs: seq<RoutineExercise>): (entries: seq<DraftExercise>)
    ensures |entries| == |exs|
    ensures forall i :: 0 <= i < |exs| ==> entries[i] == DraftExercise(exs[i].name, [])
  {
    if exs == [] then [] else [DraftExercise(exs[0].name, [])] + EmptyEntries(exs[1..])
  }

  /**
   * The draft a started workout begins with: the routine's id and name, and
   * its exercises by name and in order, each with an empty set list.
   */
  function NewDraft(routineId: string, routineName: string, exs: seq<RoutineExercise>): (d: Draft)
    ensures d.routineId == routineId && d.routineName == routineName
    ensures NamedAs(d.exercises, ExerciseNames(exs))
    ensures forall i :: 0 <= i < |d.exercises| ==> d.exercises[i].sets == []
  {
    Draft(routineId, routineName, EmptyEntries(exs))
  }

  predicate HasExercise(d: Option<Draft>, exIndex: nat)
  {
    d.Some? && exIndex < |d.value.exercises|
  }

  predicate HasSet(d: Option<Draft>, exIndex: nat, setIndex: nat)
  {
    HasExercise(d, exIndex) && setIndex < |d.value.exercises[exIndex].sets|
  }

  /**
   * `d'` differs from `d` at most in the sets of exercise `exIndex`: same
   * routine, same number of exercises, same name there, every other exercise
   * identical.
   */
  predicate OnlySetsChanged(d: Draft, d': Draft, exIndex: nat)
  {
    && d'.routineId == d.routineId
    && d'.routineName == d.routineName
    && |d'.exercises| == |d.exercises|
    && exIndex < |d.exercises|
    && d'.exercises[exIndex].name == d.exercises[exIndex].name
    && forall j :: 0 <= j < |d.exercises| && j != exIndex ==> d'.exercises[j] == d.exercises[j]
  }

  /** The draft with the sets of exercise `exIndex` replaced. */
  function WithSets(d: Draft, exIndex: nat, sets: seq<LoggedSet>): (d': Draft)
    requires exIndex < |d.exercises|
    ensures OnlySetsChanged(d, d', exIndex)
    ensures d'.exercises[exIndex].sets == sets
  {
    d.(exercises := d.exercises[exIndex := d.exercises[exIndex].(sets := sets)])
  }

  /**
   * Add set. The set is appended only when both the weight and the reps
   * parsed as numbers; zero and negative values are accepted. A NaN leaves
   * the draft alone; a missing exercise throws.
   */
  function AddSet(d: Option<Draft>, exIndex: nat, weight: Option<real>, reps: Option<int>): (r: Step)
    ensures r.status == Ignored <==> weight.None? || reps.None?
    ensures r.status == TypeError <==> weight.Some? && reps.Some? && !HasExercise(d, exIndex)
    ensures r.status != Rendered ==> r.draft == d
    ensures r.status == Rendered ==>
      && weight.Some? && reps.Some? && HasExercise(d, exIndex) && r.draft.Some?
      && OnlySetsChanged(d.value, r.draft.value, exIndex)
      && r.draft.value.exercises[exIndex].sets
         == d.value.exercises[exIndex].sets + [LoggedSet(weight.value, reps.value)]
  {
    if weight.None? || reps.None? then Step(Ignored, d)
    else if !HasExercise(d, exIndex) then Step(TypeError, d)
    else
      var sets := d.value.exercises[exIndex].sets;
      Step(Rendered, Some(WithSets(d.value, exIndex, sets + [LoggedSet(weight.value, reps.value)])))
  }

  /**
   * `s'` is `s` after `splice(k, 1)`: one element fewer and the later ones
   * shifted down by one when `k` is an index of `s`, and `s` itself otherwise.
   */
  predicate SplicedOne(s: seq<LoggedSet>, k: nat, s': seq<LoggedSet>)
  {
    if k < |s| then
      && |s'| == |s| - 1
      && (forall i :: 0 <= i < k ==> s'[i] == s[i])
      && (forall i :: k <= i < |s'| ==> s'[i] == s[i + 1])
    else
      s' == s
  }

  /** Delete set: removes the set at `setIndex` of exercise `exIndex`. */
  function DeleteSet(d: Option<Draft>, exIndex: nat, setIndex: nat): (r: Step)
    ensures r.status != Ignored
    ensures r.status == TypeError <==> !HasExercise(d, exIndex)
    ensures r.status == TypeError ==> r.draft == d
    ensures r.status == Rendered ==>
      && HasExercise(d, exIndex) && r.draft.Some?
      && OnlySetsChanged(d.value, r.draft.value, exIndex)
      && SplicedOne(d.value.exercises[exIndex].sets, setIndex, r.draft.value.exercises[exIndex].sets)
  {
    if !HasExercise(d, exIndex) then Step(TypeError, d)
    else
      var sets := d.value.exercises[exIndex].sets;
      var sets' := if setIndex < |sets| then sets[..setIndex] + sets[setIndex + 1..] else sets;
      Step(Rendered, Some(WithSets(d.value, exIndex, sets')))
  }

  /** `parseFloat(answer) || old`: NaN and 0 are falsy, so they keep the old weight. */
  function EditedWeight(parsed: Option<real>, current: real): (w: real)
    ensures parsed.Some? && parsed.value != 0.0 ==> w == parsed.value
    ensures parsed.None? || parsed.value == 0.0 ==> w == current
    ensures w == 0.0 ==> current == 0.0
  {
    if parsed.Some? && parsed.value != 0.0 then parsed.value else current
  }

  /** `parseInt(answer) || old`: NaN and 0 keep the old reps. */
  function EditedReps(parsed: Option<int>, current: int): (n: int)
    ensures parsed.Some? && parsed.value != 0 ==> n == parsed.value
    ensures parsed.None? || parsed.value == 0 ==> n == current
    ensures n == 0 ==> current == 0
  {
    if parsed.Some? && parsed.value != 0 then parsed.value else current
  }

  /**
   * Edit set. A missing set throws before anything is asked. If either prompt
   * is cancelled nothing changes; otherwise only the targeted set is
   * rewritten, each field taking the new value unless it is NaN or 0.
   */
  function EditSet(d: Option<Draft>, exIndex: nat, setIndex: nat, newWeight: Answer<real>, newReps: Answer<int>)
    : (r: Step)
    ensures r.status == TypeError <==> !HasSet(d, exIndex, setIndex)
    ensures r.status == Ignored <==>
      HasSet(d, exIndex, setIndex) && (newWeight.Cancelled? || newReps.Cancelled?)
    ensures r.status != Rendered ==> r.draft == d
    ensures r.status == Rendered ==>
      && HasSet(d, exIndex, setIndex) && newWeight.Entered? && newReps.Entered? && r.draft.Some?
      && OnlySetsChanged(d.value, r.draft.value, exIndex)
      && var before := d.value.exercises[exIndex].sets;
         var after := r.draft.value.exercises[exIndex].sets;
         && |after| == |before|
         && (forall k :: 0 <= k < |before| && k != setIndex ==> after[k] == before[k])
         && after[setIndex].weight == EditedWeight(newWeight.parsed, before[setIndex].weight)
         && after[setIndex].reps == EditedReps(newReps.parsed, before[setIndex].reps)
  {
    if !HasSet(d, exIndex, setIndex) then Step(TypeError, d)
    else if newWeight.Cancelled? || newReps.Cancelled? then Step(Ignored, d)
    else
      var sets := d.value.exercises[exIndex].sets;
      var prev := sets[setIndex];
      var edited := LoggedSet(EditedWeight(newWeight.parsed, prev.weight), EditedReps(newReps.parsed, prev.reps));
      Step(Rendered, Some(WithSets(d.value, exIndex, sets[setIndex := edited])))
  }
}
