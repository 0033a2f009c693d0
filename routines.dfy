/**
 * The routine form: the list of exercises a routine stores, and the request
 * that submitting the form sends to the routines table.
 */
module Routines {
  import opened Wrappers

  type UserId = string

  /** One entry of a routine's exercise list; the form stores only the name. */
  datatype RoutineExercise = RoutineExercise(name: string)

  /** The record the form writes: routine name, exercises and owner. */
  datatype RoutineData = RoutineData(name: string, exercises: seq<RoutineExercise>, userId: UserId)

  /** The write the form issues: an update of an existing routine, or an insert. */
  datatype RoutineWrite = Update(id: string, data: RoutineData) | Insert(data: RoutineData)

  /** The names of a routine's exercises, in order. */
  function ExerciseNames(exs: seq<RoutineExercise>): (names: seq<string>)
    ensures |names| == |exs|
    ensures forall i :: 0 <= i < |exs| ==> names[i] == exs[i].name
  {
    if exs == [] then [] else [exs[0].name] + ExerciseNames(exs[1..])
  }

  /** The exercise list built from the form's name inputs, one entry per input. */
  function ExercisesFromInputs(inputs: seq<string>): (exs: seq<RoutineExercise>)
    ensures ExerciseNames(exs) == inputs
  {
    if inputs == [] then [] else [RoutineExercise(inputs[0])] + ExercisesFromInputs(inputs[1..])
  }

  /** An exercise list is exactly what the form rebuilds from its own names. */
  lemma InputsFromNames(exs: seq<RoutineExercise>)
    ensures ExercisesFromInputs(ExerciseNames(exs)) == exs
  {
  }

  /**
   * Submitting the routine form. Without a signed-in user nothing is written.
   * Otherwise the record carries the routine name, the input names in form
   * order and the user; a non-empty routine id selects an update of that
   * routine and an empty one an insert.
   */
  function SaveRoutineRequest(user: Option<UserId>, routineName: string, inputs: seq<string>, routineId: string)
    : (w: Option<RoutineWrite>)
    ensures w.None? <==> user.None?
    ensures w.Some? ==> w.value.data.name == routineName && w.value.data.userId == user.value
    ensures w.Some? ==> ExerciseNames(w.value.data.exercises) == inputs
    ensures w.Some? ==> (w.value.Update? <==> routineId != "")
    ensures w.Some? && w.value.Update? ==> w.value.id == routineId
  {
    if user.None? then None
    else
      var data := RoutineData(routineName, ExercisesFromInputs(inputs), user.value);
      if routineId != "" then Some(Update(routineId, data)) else Some(Insert(data))
  }
}
