/**
 * `useValidation`: the simplest form binding. Edits only store values,
 * touching validates one field, and `validate` replaces the state with the
 * whole-entity result. The aggregate `ok` moves only with `validate`.
 */
module UseValidation {
  import opened JsValues
  import opened Schemas

  /**
   * The form state. `errors` starts as `null` (`None`); `touched` is `None`
   * once a validation result, which has no such property, replaced the state.
   */
  datatype State = State(
    errors: Option<map<string, string>>,
    ok: bool,
    data: map<string, Value>,
    touched: Option<map<string, bool>>)

  /** `initialState`. */
  const InitialState := State(None, false, map[], Some(map[]))

  /** The actions the reducer receives. */
  datatype Action =
    | UpdateTouch(touchedFlags: map<string, bool>, updated: map<string, Value>)  // "UT"
    | Update(values: map<string, Value>)                                         // "UP"
    | ValidateAll(result: Validation)                                            // "VA"
    | Touch(touchFlags: map<string, bool>, touchErrors: map<string, string>)     // "TO"
    | Unrecognised                                                               // any other type, "ER" included

  /** `{ ...state.touched }`: a missing `touched` spreads as no flags. */
  function TouchedFlags(state: State): map<string, bool> {
    if state.touched.Some? then state.touched.value else map[]
  }

  /** `{ ...state.errors }`: a `null` `errors` spreads as no errors. */
  function ErrorsOf(state: State): map<string, string> {
    if state.errors.Some? then state.errors.value else map[]
  }

  /** The reducer. */
  function Reduce(state: State, action: Action): State {
    match action
    case UpdateTouch(touchedFlags, updated) =>
      state.(data := state.data + updated, touched := Some(TouchedFlags(state) + touchedFlags))
    case Update(values) => state.(data := state.data + values)
    case ValidateAll(result) => State(Some(result.errors), result.ok, result.data, None)
    case Touch(touchFlags, touchErrors) =>
      state.(touched := Some(TouchedFlags(state) + touchFlags), errors := Some(ErrorsOf(state) + touchErrors))
    case Unrecognised => state
  }

  /**
   * What each case changes: `Update` spreads its payload over `data` only;
   * `UpdateTouch` spreads over `data` and `touched` but leaves `errors`;
   * `Touch` spreads over `touched` and `errors` (a missing map spreading as
   * empty); a validation result replaces the state; anything else leaves it
   * as it is. Every case but validation copies the aggregate `ok`.
   */
  lemma ReducerCases(state: State, action: Action)
    ensures !action.ValidateAll? ==> Reduce(state, action).ok == state.ok
    ensures action.Update? ==>
      var r := Reduce(state, action);
      && r.errors == state.errors && r.touched == state.touched
      && IsSpread(r.data, state.data, action.values)
    ensures action.UpdateTouch? ==>
      var r := Reduce(state, action);
      && r.errors == state.errors
      && IsSpread(r.data, state.data, action.updated)
      && r.touched.Some? && IsSpread(r.touched.value, TouchedFlags(state), action.touchedFlags)
    ensures action.Touch? ==>
      var r := Reduce(state, action);
      && r.data == state.data
      && r.touched.Some? && IsSpread(r.touched.value, TouchedFlags(state), action.touchFlags)
      && r.errors.Some? && IsSpread(r.errors.value, ErrorsOf(state), action.touchErrors)
    ensures action.ValidateAll? ==>
      Reduce(state, action) == State(Some(action.result.errors), action.result.ok, action.result.data, None)
    ensures action.Unrecognised? ==> Reduce(state, action) == state
  {
  }

  /** Applies a run of actions in order. */
  function Run(state: State, actions: seq<Action>): State
    decreases |actions|
  {
    if actions == [] then state else Run(Reduce(state, actions[0]), actions[1..])
  }

  /** Without a validation, no run of actions moves the aggregate `ok`. */
  lemma {:induction false} OkMovesOnlyByValidation(state: State, actions: seq<Action>)
    requires forall i :: 0 <= i < |actions| ==> !actions[i].ValidateAll?
    ensures Run(state, actions).ok == state.ok
    decreases |actions|
  {
    if actions != [] {
      OkMovesOnlyByValidation(Reduce(state, actions[0]), actions[1..]);
    }
  }

  /**
   * Without a validation, a run of actions never forgets a touched field
   * nor a shown error: it can only add flags and replace messages.
   */
  lemma {:induction false} RunOnlyAdds(state: State, actions: seq<Action>)
    requires forall i :: 0 <= i < |actions| ==> !actions[i].ValidateAll?
    ensures TouchedFlags(state).Keys <= TouchedFlags(Run(state, actions)).Keys
    ensures ErrorsOf(state).Keys <= ErrorsOf(Run(state, actions)).Keys
    decreases |actions|
  {
    if actions != [] {
      RunOnlyAdds(Reduce(state, actions[0]), actions[1..]);
    }
  }

  class ValidationForm {
    const schema: Schema
    var state: State

    /** `useReducer(reducer, initialState)`. */
    constructor (schema: Schema)
      ensures this.schema == schema && state == InitialState
    {
      this.schema := schema;
      state := InitialState;
    }

    /** Validates the data and lets the result replace the state. */
    method Validate() returns (v: Validation)
      modifies this
      ensures v == schema.Evaluation(old(state.data))
      ensures state == State(Some(v.errors), v.ok, v.data, None)
    {
      v := schema.Validate(state.data);
      state := Reduce(state, ValidateAll(v));
    }

    /** A change to `name`, whose coerced value is `value`: stores it, nothing else. */
    method UpdateField(name: string, value: Value)
      modifies this
      ensures state == old(state).(data := old(state.data)[name := value])
    {
      state := Reduce(state, Update(map[name := value]));
      SpreadOne(old(state.data), name, value);
    }

    /**
     * Leaving `name` with input text `text`: the field becomes touched, and
     * if it fails its message is merged into the errors. A passing check
     * merges nothing, so an error shown before stays.
     */
    method TouchField(name: string, text: string)
      requires name in schema.rules
      modifies this
      ensures state.ok == old(state.ok) && state.data == old(state.data)
      ensures state.touched == Some(TouchedFlags(old(state))[name := true])
      ensures
        var r := schema.ValidateField(name, map[name := Str(text)]);
        state.errors == Some(if r.ok then ErrorsOf(old(state)) else ErrorsOf(old(state))[name := r.message])
    {
      var r := schema.ValidateField(name, map[name := Str(text)]);
      state := Reduce(state, Touch(map[name := true], if r.ok then map[] else map[name := r.message]));
      SpreadOne(TouchedFlags(old(state)), name, true);
      assert ErrorsOf(old(state)) + map[] == ErrorsOf(old(state));
      SpreadOne(ErrorsOf(old(state)), name, r.message);
    }

    /** A change that also touches the field, without validating it. */
    method UpdateAndTouch(name: string, value: Value)
      modifies this
      ensures state.ok == old(state.ok) && state.errors == old(state.errors)
      ensures state.data == old(state.data)[name := value]
      ensures state.touched == Some(TouchedFlags(old(state))[name := true])
    {
      state := Reduce(state, UpdateTouch(map[name := true], map[name := value]));
      SpreadOne(old(state.data), name, value);
      SpreadOne(TouchedFlags(old(state)), name, true);
    }
  }
}
