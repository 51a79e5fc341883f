/** The older workflow-state helpers of api/workflows/utils.py. A user has at
    most one workflow state (it is keyed by the user); a state is a record of
    named fields, and the update helper sets, one keyword argument after
    another, every field the record has (`hasattr`) and ignores the rest. */
module LegacyWorkflowUtils {

  import opened Common

  /** A workflow state: its fields by name. */
  type StateFields = map<string, Value>

  /** The fields `get_or_create` gives a new state. */
  const DefaultState: StateFields := map[
    "current_step" := Str("SEARCH"),
    "scope_data" := Dict(map[]),
    "analysis_data" := Dict(map[])]

  /** The store of these helpers: workflow states by user, and the owners
      (users) of the stored knowledge sources, one entry per source. */
  class LegacyStore {
    var states: map<Id, StateFields>
    var sources: seq<Id>

    constructor ()
      ensures states == map[] && sources == []
    {
      states := map[];
      sources := [];
    }
  }

  /** `get_or_create_workflow_state`: the user's state, created with the
      defaults when missing. Returns the state and the table after the call. */
  function GetOrCreateState(states: map<Id, StateFields>, user: Id): (r: (StateFields, map<Id, StateFields>))
    ensures user in r.1 && r.1[user] == r.0
    ensures r.1.Keys == states.Keys + {user}
    ensures user in states ==> r == (states[user], states)
    ensures user !in states ==> r.0 == DefaultState && r.1 == states[user := DefaultState]
  {
    if user in states then (states[user], states) else (DefaultState, states[user := DefaultState])
  }

  /** A new state starts at SEARCH with empty scope and analysis data;
      asking again finds the same state and creates nothing. */
  lemma GetOrCreateStateDefaults(states: map<Id, StateFields>, user: Id)
    ensures user !in states ==>
      (GetOrCreateState(states, user).0["current_step"] == Str("SEARCH")
       && GetOrCreateState(states, user).0["scope_data"] == Dict(map[])
       && GetOrCreateState(states, user).0["analysis_data"] == Dict(map[]))
    ensures GetOrCreateState(GetOrCreateState(states, user).1, user) == GetOrCreateState(states, user)
  {
  }

  method GetOrCreateWorkflowState(store: LegacyStore, user: Id) returns (state: StateFields)
    modifies store`states
    ensures (state, store.states) == GetOrCreateState(old(store.states), user)
  {
    if user in store.states {
      state := store.states[user];
    } else {
      state := DefaultState;
      store.states := store.states[user := state];
    }
  }

  // ---------------------------------------------------------------------------
  // update_workflow_state

  /** The loop over `kwargs.items()`: `setattr` for every name the state
      has, so no field is added or removed. */
  function ApplyKwargs(state: StateFields, kwargs: seq<(string, Value)>): (r: StateFields)
    ensures r.Keys == state.Keys
    decreases |kwargs|
  {
    if kwargs == [] then state
    else
      var before := ApplyKwargs(state, kwargs[..|kwargs| - 1]);
      var (field, value) := kwargs[|kwargs| - 1];
      if field in before then before[field := value] else before
  }

  /** The value the last keyword argument named `field` carries, if any. */
  function LastValue(kwargs: seq<(string, Value)>, field: string): (v: Option<Value>)
    ensures v.None? <==> forall i | 0 <= i < |kwargs| :: kwargs[i].0 != field
    decreases |kwargs|
  {
    if kwargs == [] then None
    else if kwargs[|kwargs| - 1].0 == field then Some(kwargs[|kwargs| - 1].1)
    else LastValue(kwargs[..|kwargs| - 1], field)
  }

  /** After the loop the state has exactly the fields it had; a field named
      by some argument holds the value of the last such argument; every
      other field is unchanged; unknown names add nothing. */
  lemma {:induction false} ApplyKwargsEffect(state: StateFields, kwargs: seq<(string, Value)>)
    ensures ApplyKwargs(state, kwargs).Keys == state.Keys
    ensures forall f | f in state :: ApplyKwargs(state, kwargs)[f] == (if LastValue(kwargs, f).Some? then LastValue(kwargs, f).value else state[f])
    decreases |kwargs|
  {
    if kwargs != [] {
      ApplyKwargsEffect(state, kwargs[..|kwargs| - 1]);
    }
  }

  /** `update_workflow_state(user, **kwargs)`: DoesNotExist (and no change)
      for a user without a state; otherwise the state with the arguments
      applied, saved. */
  function UpdateWorkflowState(states: map<Id, StateFields>, user: Id, kwargs: seq<(string, Value)>): (r: Outcome<StateFields>)
    ensures r.Raised? <==> user !in states
    ensures r.Raised? ==> r.error == DoesNotExist
    ensures r.Ok? ==> r.value.Keys == states[user].Keys
  {
    if user !in states then Raised(DoesNotExist)
    else
      ApplyKwargsEffect(states[user], kwargs);
      Ok(ApplyKwargs(states[user], kwargs))
  }

  /** The table after an update. */
  function StatesAfter(states: map<Id, StateFields>, user: Id, r: Outcome<StateFields>): map<Id, StateFields>
  {
    if r.Ok? then states[user := r.value] else states
  }

  method UpdateWorkflowStateIn(store: LegacyStore, user: Id, kwargs: seq<(string, Value)>) returns (r: Outcome<StateFields>)
    modifies store`states
    ensures r == UpdateWorkflowState(old(store.states), user, kwargs)
    ensures store.states == StatesAfter(old(store.states), user, r)
  {
    if user !in store.states {
      return Raised(DoesNotExist);
    }
    var state := store.states[user];
    var i := 0;
    while i < |kwargs|
      invariant 0 <= i <= |kwargs|
      invariant state == ApplyKwargs(old(store.states)[user], kwargs[..i])
    {
      assert kwargs[..i + 1][..i] == kwargs[..i];
      var (field, value) := kwargs[i];
      if field in state {
        state := state[field := value];
      }
      // An unknown field is only reported with a warning.
      i := i + 1;
    }
    assert kwargs[..i] == kwargs;
    store.states := store.states[user := state];
    r := Ok(state);
  }
}
