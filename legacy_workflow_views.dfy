/** The older workflow views of api/workflows/views.py: the data lock, which
    moves the user's workflow from the SEARCH step to the SCOPE step once
    knowledge sources exist, and the state read, which answers the default
    state without storing it. */
module LegacyWorkflowViews {

  import opened Common
  import opened Http
  import opened LegacyWorkflowUtils

  /** Failures of the store that the data lock handles: retrieving or
      creating the state fails (`retrieve`), or the transition raises. */
  datatype LockFaults = LockFaults(retrieve: bool, transition: Option<Exception>)

  /** `str(e)` for the exceptions that carry a message; the others render
      as the empty text. */
  function ErrorText(e: Exception): string
  {
    match e
    case ValueError(m) => m
    case PermissionError(m) => m
    case AuthenticationFailed(m) => m
    case RuntimeError(m) => m
    case ValidationError(m) => m
    case _ => ""
  }

  /** The step as the message writes it; a step that is not a text renders
      as the empty text. */
  function StepText(v: Value): string
  {
    if v.Str? then v.s else ""
  }

  const CannotRetrieve := "Could not retrieve or create workflow state."
  const NoSources := "Cannot lock data. Please execute a search and gather results first."
  const Disappeared := "Workflow state disappeared during transition."
  const Locked := "Knowledge Base locked successfully."

  function WrongStep(step: Value): string
  {
    "Data Lock is only allowed in the SEARCH step. Current step: " + StepText(step) + "."
  }

  /** `DataLockAPIView.post` for `user` as intended; `sources` lists the
      owner of every knowledge source. The success body carries the updated
      state's fields under "new_step". */
  function DataLock(states: map<Id, StateFields>, sources: seq<Id>, user: Id, faults: LockFaults)
    : (h: Handled<Value, map<Id, StateFields>>)
    ensures h.outcome.Ok?
    ensures h.outcome.value.status in {OK, BAD_REQUEST, NOT_FOUND, SERVER_ERROR}
  {
    if faults.retrieve then Handled(Ok(Response(SERVER_ERROR, Message("error", CannotRetrieve))), states)
    else
      var (state, created) := GetOrCreateState(states, user);
      var step := Lookup(state, "current_step");
      if step != Str("SEARCH") then Handled(Ok(Response(BAD_REQUEST, Message("error", WrongStep(step)))), created)
      else if user !in sources then Handled(Ok(Response(BAD_REQUEST, Message("error", NoSources))), created)
      else
        var update := if faults.transition.Some? then Raised(faults.transition.value)
                      else UpdateWorkflowState(created, user, [("current_step", Str("SCOPE"))]);
        match update
        case Raised(DoesNotExist) => Handled(Ok(Response(NOT_FOUND, Message("error", Disappeared))), created)
        case Raised(e) => Handled(Ok(Response(SERVER_ERROR, Message("error", "Database error during state transition: " + ErrorText(e)))), created)
        case Ok(updated) =>
          Handled(Ok(Response(OK, Data(Dict(map["message" := Str(Locked), "new_step" := Dict(updated)])))), created[user := updated])
  }

  /** The checks in their order. A failed retrieval writes nothing; every
      later answer keeps the state that was created for a new user. A lock
      succeeds exactly when the step was SEARCH, a source exists and the
      transition does not raise; it then sets only `current_step`, to SCOPE,
      and no other user's state changes. */
  lemma DataLockOutcomes(states: map<Id, StateFields>, sources: seq<Id>, user: Id, faults: LockFaults)
    ensures var h := DataLock(states, sources, user, faults);
      var (state, created) := GetOrCreateState(states, user);
      var step := Lookup(state, "current_step");
      (faults.retrieve ==> h == Handled(Ok(Response(SERVER_ERROR, Message("error", CannotRetrieve))), states))
      && (!faults.retrieve && step != Str("SEARCH") ==>
            h == Handled(Ok(Response(BAD_REQUEST, Message("error", WrongStep(step)))), created))
      && (!faults.retrieve && step == Str("SEARCH") && user !in sources ==>
            h == Handled(Ok(Response(BAD_REQUEST, Message("error", NoSources))), created))
      && (!faults.retrieve && step == Str("SEARCH") && user in sources && faults.transition == Some(DoesNotExist) ==>
            h == Handled(Ok(Response(NOT_FOUND, Message("error", Disappeared))), created))
      && (!faults.retrieve && step == Str("SEARCH") && user in sources
          && faults.transition.Some? && faults.transition.value != DoesNotExist ==>
            h.outcome.value.status == SERVER_ERROR && h.state == created)
      && (h.outcome.value.status == OK <==>
            !faults.retrieve && step == Str("SEARCH") && user in sources && faults.transition.None?)
      && (h.outcome.value.status == OK ==>
            h.state.Keys == created.Keys
            && h.state[user] == state["current_step" := Str("SCOPE")]
            && (forall u | u in states && u != user :: h.state[u] == states[u]))
  {
    var (state, created) := GetOrCreateState(states, user);
    ApplyKwargsEffect(created[user], [("current_step", Str("SCOPE"))]);
  }

  /** `DataLockAPIView.post` as written: the success response puts the
      model instance itself under "new_step", which the JSON renderer cannot
      encode, so rendering raises TypeError after SCOPE has been saved. Every
      other answer is the intended one. */
  function DataLockAsWritten(states: map<Id, StateFields>, sources: seq<Id>, user: Id, faults: LockFaults)
    : (h: Handled<Value, map<Id, StateFields>>)
    ensures h.state == DataLock(states, sources, user, faults).state
    ensures h.outcome.Raised? <==> DataLock(states, sources, user, faults).outcome.value.status == OK
    ensures h.outcome.Raised? ==> h.outcome == Raised(TypeError)
    ensures h.outcome.Ok? ==> h.outcome == DataLock(states, sources, user, faults).outcome
  {
    var intended := DataLock(states, sources, user, faults);
    if intended.outcome.value.status == OK then Handled(Raised(TypeError), intended.state) else intended
  }

  /** As written, no lock is ever answered 200: a lock that the intended
      view answers 200 is served as a server error, yet its SCOPE step is
      stored all the same, so the next attempt is refused as a wrong step.
      A user whose freshly created state is at SEARCH and who has a
      knowledge source shows it. */
  lemma DataLockAsWrittenDiscrepancy(states: map<Id, StateFields>, sources: seq<Id>, user: Id, faults: LockFaults)
    ensures Served(DataLockAsWritten(states, sources, user, faults).outcome) != OK
    ensures DataLock(states, sources, user, faults).outcome.value.status == OK ==>
      var h := DataLockAsWritten(states, sources, user, faults);
      Served(h.outcome) == SERVER_ERROR
      && user in h.state && h.state[user] == GetOrCreateState(states, user).0["current_step" := Str("SCOPE")]
      && DataLock(h.state, sources, user, LockFaults(false, None)).outcome.value
         == Response(BAD_REQUEST, Message("error", WrongStep(Str("SCOPE"))))
    ensures user in sources ==>
      Served(DataLockAsWritten(map[user := DefaultState], sources, user, LockFaults(false, None)).outcome) == SERVER_ERROR
      && Served(DataLock(map[user := DefaultState], sources, user, LockFaults(false, None)).outcome) == OK
  {
    DataLockOutcomes(states, sources, user, faults);
    if DataLock(states, sources, user, faults).outcome.value.status == OK {
      DataLockTwice(states, sources, user, faults);
    }
    DataLockOutcomes(map[user := DefaultState], sources, user, LockFaults(false, None));
  }

  /** Locking again after a successful lock is refused: the step is now SCOPE. */
  lemma DataLockTwice(states: map<Id, StateFields>, sources: seq<Id>, user: Id, faults: LockFaults)
    requires DataLock(states, sources, user, faults).outcome.value.status == OK
    ensures var again := DataLock(DataLock(states, sources, user, faults).state, sources, user, LockFaults(false, None));
      again.outcome.value == Response(BAD_REQUEST, Message("error", WrongStep(Str("SCOPE"))))
      && again.state == DataLock(states, sources, user, faults).state
  {
    DataLockOutcomes(states, sources, user, faults);
  }

  /** `WorkflowStateView.get`: the stored state, or the default state. */
  function StateGet(states: map<Id, StateFields>, user: Id): (r: Response<Value>)
    ensures r.status == OK && r.body.Data?
  {
    if user in states then Response(OK, Data(Dict(states[user])))
    else Response(OK, Data(Dict(DefaultState)))
  }

  /** The read answers the state that `get_or_create` would give, yet it is
      a read: the table it leaves is the one it was given, while
      `get_or_create` would have stored a new state for a new user. */
  lemma StateGetMatchesGetOrCreate(states: map<Id, StateFields>, user: Id)
    ensures StateGet(states, user).body.data == Dict(GetOrCreateState(states, user).0)
    ensures user !in states ==>
      StateGet(states, user).body.data == Dict(DefaultState) && GetOrCreateState(states, user).1 != states
  {
    if user !in states {
      assert user in GetOrCreateState(states, user).1;
    }
  }
}
