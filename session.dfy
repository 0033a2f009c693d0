/**
 * The page's session state: the signed-in user and the workout draft, with
 * one method per handler that changes them.
 */
module Tracker {
  import opened Wrappers
  import opened Routines
  import opened Drafts
  import opened Traces

  /** The row the finish handler inserts into the workouts table. */
  datatype WorkoutRecord = WorkoutRecord(
    userId: UserId, routineId: string, routineName: string, date: string, exercises: seq<DraftExercise>)

  /**
   * What finishing sends: nothing without a user or a draft; otherwise the
   * draft's routine and its exercises exactly as logged, stamped with the
   * user and the date.
   */
  function FinishRequest(user: Option<UserId>, d: Option<Draft>, date: string): (w: Option<WorkoutRecord>)
    ensures w.Some? <==> user.Some? && d.Some?
    ensures w.Some? ==> w.value.userId == user.value && w.value.date == date
    ensures w.Some? ==> w.value.routineId == d.value.routineId && w.value.routineName == d.value.routineName
    ensures w.Some? ==> w.value.exercises == d.value.exercises
  {
    if user.None? || d.None? then None
    else Some(WorkoutRecord(user.value, d.value.routineId, d.value.routineName, date, d.value.exercises))
  }

  /**
   * Save a routine from the form as a signed-in user, start a workout from
   * the exercise list that write carries (the store is taken to return the
   * list it was given), click any set edits, then finish: the saved workout
   * is under that routine and lists the form's exercise names in form order.
   */
  lemma SavedWorkoutFollowsForm(
    user: UserId, routineId: string, routineName: string, inputs: seq<string>, formId: string,
    edits: seq<SetEdit>, date: string)
    ensures SaveRoutineRequest(Some(user), routineName, inputs, formId).Some?
    ensures var stored := SaveRoutineRequest(Some(user), routineName, inputs, formId).value.data.exercises;
      var d := Run(Some(NewDraft(routineId, routineName, stored)), edits);
      var w := FinishRequest(Some(user), d, date);
      && w.Some? && w.value.userId == user
      && w.value.routineId == routineId && w.value.routineName == routineName
      && NamedAs(w.value.exercises, inputs)
  {
    var stored := SaveRoutineRequest(Some(user), routineName, inputs, formId).value.data.exercises;
    InputsFromNames(stored);
    StartedDraftFollowsRoutine(routineId, routineName, inputs, edits);
  }

  class Session {
    /** `currentUser`: the signed-in user, if any. */
    var user: Option<UserId>
    /** `currentWorkout`: the in-progress draft, if any. */
    var draft: Option<Draft>

    constructor ()
      ensures user == None && draft == None
    {
      user := None;
      draft := None;
    }

    /** Session check: `session` is what the identity provider reports. */
    method CheckUser(session: Option<UserId>)
      modifies this`user
      ensures user == session
    {
      user := session;
    }

    /**
     * Start a workout. `fetched` is the routine's exercise list as read from
     * the store. A failed read leaves whatever draft there was.
     */
    method StartWorkout(routineId: string, routineName: string, fetched: Result<seq<RoutineExercise>, string>)
      modifies this`draft
      ensures fetched.Err? ==> draft == old(draft)
      ensures fetched.Ok? ==> draft == Some(NewDraft(routineId, routineName, fetched.value))
    {
      if fetched.Ok? {
        draft := Some(NewDraft(routineId, routineName, fetched.value));
      }
    }

    /** The add-set button of exercise `exIndex`, with the parsed inputs. */
    method AddSetClick(exIndex: nat, weight: Option<real>, reps: Option<int>) returns (status: Status)
      modifies this`draft
      ensures Step(status, draft) == AddSet(old(draft), exIndex, weight, reps)
    {
      if weight.None? || reps.None? {
        return Ignored;
      }
      if draft.None? || exIndex >= |draft.value.exercises| {
        return TypeError;
      }
      var d := draft.value;
      var ex := d.exercises[exIndex];
      ex := ex.(sets := ex.sets + [LoggedSet(weight.value, reps.value)]);
      draft := Some(d.(exercises := d.exercises[exIndex := ex]));
      status := Rendered;
    }

    /** The delete button of set `setIndex` of exercise `exIndex`. */
    method DeleteSetClick(exIndex: nat, setIndex: nat) returns (status: Status)
      modifies this`draft
      ensures Step(status, draft) == DeleteSet(old(draft), exIndex, setIndex)
    {
      if draft.None? || exIndex >= |draft.value.exercises| {
        return TypeError;
      }
      var d := draft.value;
      var ex := d.exercises[exIndex];
      if setIndex < |ex.sets| {
        ex := ex.(sets := ex.sets[..setIndex] + ex.sets[setIndex + 1..]);
      }
      draft := Some(d.(exercises := d.exercises[exIndex := ex]));
      status := Rendered;
    }

    /** The edit button of set `setIndex` of exercise `exIndex`, with the two prompt answers. */
    method EditSetClick(exIndex: nat, setIndex: nat, newWeight: Answer<real>, newReps: Answer<int>)
      returns (status: Status)
      modifies this`draft
      ensures Step(status, draft) == EditSet(old(draft), exIndex, setIndex, newWeight, newReps)
    {
      if draft.None? || exIndex >= |draft.value.exercises| || setIndex >= |draft.value.exercises[exIndex].sets| {
        return TypeError;
      }
      if newWeight.Cancelled? || newReps.Cancelled? {
        return Ignored;
      }
      var d := draft.value;
      var ex := d.exercises[exIndex];
      var entry := ex.sets[setIndex];
      entry := entry.(weight := EditedWeight(newWeight.parsed, entry.weight));
      entry := entry.(reps := EditedReps(newReps.parsed, entry.reps));
      ex := ex.(sets := ex.sets[setIndex := entry]);
      draft := Some(d.(exercises := d.exercises[exIndex := ex]));
      status := Rendered;
    }

    /**
     * Finish the workout. `saved` is whether the store accepted the insert.
     * Without a user or a draft nothing is sent; a failed insert keeps the
     * draft and a successful one clears it.
     */
    method FinishWorkout(date: string, saved: bool) returns (request: Option<WorkoutRecord>)
      modifies this`draft
      ensures request == FinishRequest(user, old(draft), date)
      ensures draft == if request.Some? && saved then None else old(draft)
    {
      if user.None? || draft.None? {
        return None;
      }
      request := Some(WorkoutRecord(user.value, draft.value.routineId, draft.value.routineName, date,
                                    draft.value.exercises));
      if saved {
        draft := None;
      }
    }
  }
}

/** A client of `Session`: what a caller can conclude from the contracts alone. */
module Scenario {
  import opened Wrappers
  import opened Routines
  import opened Drafts
  import opened Tracker

  method ZeroRepsScenario(user: UserId, date: string)
  {
    var s := new Session();
    s.CheckUser(Some(user));
    var exs := ExercisesFromInputs(["Squat", "Bench"]);
    s.StartWorkout("r1", "Legs", Ok(exs));
    assert |s.draft.value.exercises| == 2 && s.draft.value.exercises[0].sets == [];

    var st := s.AddSetClick(0, Some(100.0), Some(0));   // zero reps are accepted
    assert st == Rendered && s.draft.value.exercises[0].sets == [LoggedSet(100.0, 0)];
    st := s.AddSetClick(0, None, Some(5));               // a NaN weight is ignored
    assert st == Ignored;
    st := s.EditSetClick(0, 0, Entered(Some(0.0)), Entered(Some(8)));
    assert s.draft.value.exercises[0].sets == [LoggedSet(100.0, 8)];
    st := s.EditSetClick(0, 0, Entered(Some(90.0)), Entered(Some(0)));
    assert s.draft.value.exercises[0].sets == [LoggedSet(90.0, 8)];  // 0 reps cannot be set by editing
    st := s.DeleteSetClick(1, 0);                        // no set there: nothing removed
    assert s.draft.value.exercises[1].sets == [];
    st := s.EditSetClick(0, 3, Entered(Some(1.0)), Entered(Some(1)));
    assert st == TypeError;

    var sent := s.FinishWorkout(date, false);
    assert sent.Some? && s.draft.Some?;                  // a failed insert keeps the draft
    sent := s.FinishWorkout(date, true);
    assert sent.value.exercises[0].sets == [LoggedSet(90.0, 8)] && s.draft == None;
  }
}
