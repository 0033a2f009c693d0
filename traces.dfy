/**
 * Sequences of set edits on a draft, and what every such sequence keeps:
 * the routine and the exercise list (names and order) the workout was
 * started with.
 */
module Traces {
  import opened Wrappers
  import opened Routines
  import opened Drafts

  /** One click on the workout screen that touches the sets. */
  datatype SetEdit =
    | AddClick(exIndex: nat, weight: Option<real>, reps: Option<int>)
    | DeleteClick(exIndex: nat, setIndex: nat)
    | EditClick(exIndex: nat, setIndex: nat, newWeight: Answer<real>, newReps: Answer<int>)

  function Apply(d: Option<Draft>, e: SetEdit): Option<Draft>
  {
    match e
    case AddClick(i, w, r) => AddSet(d, i, w, r).draft
    case DeleteClick(i, k) => DeleteSet(d, i, k).draft
    case EditClick(i, k, w, r) => EditSet(d, i, k, w, r).draft
  }

  function Run(d: Option<Draft>, edits: seq<SetEdit>): Option<Draft>
    decreases |edits|
  {
    if edits == [] then d else Run(Apply(d, edits[0]), edits[1..])
  }

  /** Same routine and same exercise names, in the same order. */
  predicate SameShape(d: Draft, d': Draft)
  {
    d'.routineId == d.routineId && d'.routineName == d.routineName
    && |d'.exercises| == |d.exercises|
    && forall i :: 0 <= i < |d.exercises| ==> d'.exercises[i].name == d.exercises[i].name
  }

  /** A single set edit neither creates nor drops the draft, nor changes its shape. */
  lemma ApplyKeepsShape(d: Option<Draft>, e: SetEdit)
    ensures Apply(d, e).Some? <==> d.Some?
    ensures d.Some? ==> SameShape(d.value, Apply(d, e).value)
  {
  }

  /** After any sequence of set edits the draft still has its routine's shape. */
  lemma {:induction false} RunKeepsShape(d: Draft, edits: seq<SetEdit>)
    ensures Run(Some(d), edits).Some?
    ensures SameShape(d, Run(Some(d), edits).value)
    decreases |edits|
  {
    if edits != [] {
      ApplyKeepsShape(Some(d), edits[0]);
      var d1 := Apply(Some(d), edits[0]).value;
      RunKeepsShape(d1, edits[1..]);
    }
  }

  /**
   * A workout started from a routine whose exercises were entered as
   * `inputs` still lists exactly those names, in that order, after any
   * sequence of set edits.
   */
  lemma {:induction false} StartedDraftFollowsRoutine(
    routineId: string, routineName: string, inputs: seq<string>, edits: seq<SetEdit>)
    ensures var d := Run(Some(NewDraft(routineId, routineName, ExercisesFromInputs(inputs))), edits);
      && d.Some?
      && d.value.routineId == routineId && d.value.routineName == routineName
      && NamedAs(d.value.exercises, inputs)
  {
    RunKeepsShape(NewDraft(routineId, routineName, ExercisesFromInputs(inputs)), edits);
  }

  /** Deleting the set just added restores the draft. */
  lemma AddThenDeleteRestores(d: Draft, exIndex: nat, weight: real, reps: int)
    requires exIndex < |d.exercises|
    ensures var added := AddSet(Some(d), exIndex, Some(weight), Some(reps));
      && added.status == Rendered
      && DeleteSet(added.draft, exIndex, |d.exercises[exIndex].sets|) == Step(Rendered, Some(d))
  {
    var ex := d.exercises[exIndex];
    var added := AddSet(Some(d), exIndex, Some(weight), Some(reps)).draft.value;
    var extended := added.exercises[exIndex].sets;
    assert extended[..|ex.sets|] + extended[|ex.sets| + 1..] == ex.sets;
    var restored := WithSets(added, exIndex, ex.sets);
    assert restored.exercises == added.exercises[exIndex := ex];
    assert restored.exercises == d.exercises;
  }

  /** Repeating an edit with the same answers changes nothing further. */
  lemma EditIsIdempotent(d: Option<Draft>, exIndex: nat, setIndex: nat, newWeight: Answer<real>, newReps: Answer<int>)
    ensures var once := EditSet(d, exIndex, setIndex, newWeight, newReps).draft;
      EditSet(once, exIndex, setIndex, newWeight, newReps).draft == once
  {
    var first := EditSet(d, exIndex, setIndex, newWeight, newReps);
    if first.status == Rendered {
      var sets := first.draft.value.exercises[exIndex].sets;
      var again := EditSet(first.draft, exIndex, setIndex, newWeight, newReps).draft.value;
      assert again.exercises[exIndex].sets == sets;
      assert again.exercises == first.draft.value.exercises;
    }
  }
}
