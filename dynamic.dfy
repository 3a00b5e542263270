/**
 * `useDynamicSchema`: a form whose schema is re-derived from its own data.
 * The state keeps values, errors and touched flags in separate maps. After
 * every change of `data`, an effect rebuilds the schema from the current
 * data with the user's derivation `fn`; `rebuilt` merges into the `initial`
 * schema object in place and returns it, so the schema the form uses is
 * always that same object.
 */
module Dynamic {
  import opened JsValues
  import opened Schemas

  /**
   * The form state. `touched` is `None` once a validation result (which has
   * no `touched` property) has replaced the state.
   */
  datatype State = State(
    ok: bool,
    errors: map<string, string>,
    data: map<string, Value>,
    touched: Option<map<string, bool>>)

  /** `initialState`. */
  const InitialState := State(false, map[], map[], Some(map[]))

  /** The actions the reducer receives. */
  datatype Action =
    | Change(values: map<string, Value>)                              // "CH"
    | ValidateAll(result: Validation)                                 // "VA"
    | Blur(touchedFlags: map<string, bool>, blurErrors: map<string, string>)  // "TO"
    | Error(fieldErrors: map<string, string>)                         // "ER"
    | Unrecognised                                                    // any other type; `resetForm` sends ""

  /** `{ ...state.touched }`: spreading a missing `touched` gives no flags. */
  function TouchedFlags(state: State): map<string, bool> {
    if state.touched.Some? then state.touched.value else map[]
  }

  /** `state.touched[name]` is truthy. */
  predicate IsTouched(state: State, name: string) {
    state.touched.Some? && name in state.touched.value && state.touched.value[name]
  }

  /**
   * The reducer: `Change` merges into `data` only, `Error` into `errors`
   * only, `Blur` into `touched` and `errors`; a validation result replaces
   * the state (dropping `touched`), and any other action returns the
   * initial state.
   */
  function Reduce(state: State, action: Action): State
  {
    match action
    case Change(values) => state.(data := state.data + values)
    case ValidateAll(result) => State(result.ok, result.errors, result.data, None)
    case Blur(touchedFlags, blurErrors) =>
      state.(touched := Some(TouchedFlags(state) + touchedFlags), errors := state.errors + blurErrors)
    case Error(fieldErrors) => state.(errors := state.errors + fieldErrors)
    case Unrecognised => InitialState
  }

  /**
   * What each reducer case changes: `Change` spreads its payload over `data`
   * only, `Error` over `errors` only, `Blur` its flags over `touched` (a
   * missing `touched` spreading as none) and its errors over `errors`; a
   * validation result replaces the state without `touched`; any other
   * action gives the initial state.
   */
  lemma ReducerCases(state: State, action: Action)
    ensures action.Change? ==>
      var r := Reduce(state, action);
      && r.ok == state.ok && r.errors == state.errors && r.touched == state.touched
      && IsSpread(r.data, state.data, action.values)
    ensures action.Error? ==>
      var r := Reduce(state, action);
      && r.ok == state.ok && r.data == state.data && r.touched == state.touched
      && IsSpread(r.errors, state.errors, action.fieldErrors)
    ensures action.Blur? ==>
      var r := Reduce(state, action);
      && r.ok == state.ok && r.data == state.data
      && r.touched.Some? && IsSpread(r.touched.value, TouchedFlags(state), action.touchedFlags)
      && IsSpread(r.errors, state.errors, action.blurErrors)
    ensures action.ValidateAll? ==>
      Reduce(state, action) == State(action.result.ok, action.result.errors, action.result.data, None)
    ensures action.Unrecognised? ==> Reduce(state, action) == InitialState
  {
  }

  /** How a handler ended: normally, or with the TypeError of reading a flag of a missing `touched`. */
  datatype Outcome = Completed | TypeErrorThrown

  class DynamicForm {
    /** `fn`: derives a schema patch from the current data. */
    const derive: map<string, Value> -> map<string, Rules>
    /** The schema object handed in; `rebuilt` mutates it. */
    const initial: Schema
    /** The schema held in component state. */
    var schema: Schema
    var state: State

    /**
     * The held schema is the `initial` object itself, and it is up to date
     * with the data: rebuilding it from the current data changes nothing.
     */
    ghost predicate Valid()
      reads this, initial
    {
      && schema == initial
      && Merged(initial.rules, derive(state.data)) == initial.rules
    }

    /** Mounting: the initial state, then the effect's first rebuild from the empty data. */
    constructor (derive: map<string, Value> -> map<string, Rules>, initial: Schema)
      modifies initial
      ensures this.derive == derive && this.initial == initial
      ensures state == InitialState
      ensures initial.rules == Merged(old(initial.rules), derive(map[]))
      ensures Valid()
    {
      this.derive := derive;
      this.initial := initial;
      schema := initial;
      state := InitialState;
      new;
      RebuildSchema();
    }

    /**
     * The effect that follows a change of `data`:
     * `setSchema(initial.rebuilt(fn(state.data)))`.
     */
    method RebuildSchema()
      requires schema == initial
      modifies this, initial
      ensures state == old(state)
      ensures Valid()
      ensures initial.rules == Merged(old(initial.rules), derive(state.data))
    {
      schema := initial.Rebuilt(derive(state.data));
      MergedIdempotent(old(initial.rules), derive(state.data));
    }

    /** Validates the data against the current schema and shows the result. */
    method Validate() returns (v: Validation)
      requires Valid()
      modifies this, initial
      ensures Valid()
      ensures v == old(initial.Evaluation(state.data))
      ensures state == State(v.ok, v.errors, v.data, None)
      ensures initial.rules == Merged(old(initial.rules), derive(v.data))
    {
      v := schema.Validate(state.data);
      state := Reduce(state, ValidateAll(v));
      RebuildSchema();
    }

    /**
     * A change to `name`, whose coerced value is `value`: the value is always
     * stored; a field already touched is also validated on its own (against
     * the schema as it was before this change) and its message, empty when
     * it passes, is stored as its error. When a validation result has
     * dropped `touched`, reading the flag throws after the value is stored.
     */
    method UpdateField(name: string, value: Value) returns (outcome: Outcome)
      requires Valid() && (IsTouched(state, name) ==> name in schema.rules)
      modifies this, initial
      ensures Valid()
      ensures state.data == old(state.data)[name := value]
      ensures state.ok == old(state.ok) && state.touched == old(state.touched)
      ensures outcome == TypeErrorThrown <==> old(state.touched).None?
      ensures IsTouched(old(state), name) ==>
        state.errors == old(state.errors)[name := old(initial.ValidateField(name, map[name := value])).message]
      ensures !IsTouched(old(state), name) ==> state.errors == old(state.errors)
      ensures initial.rules == Merged(old(initial.rules), derive(state.data))
    {
      var wasTouched := state.touched;
      state := Reduce(state, Change(map[name := value]));
      SpreadOne(old(state.data), name, value);
      if wasTouched.None? {
        outcome := TypeErrorThrown;
      } else {
        outcome := Completed;
        if name in wasTouched.value && wasTouched.value[name] {
          var r := schema.ValidateField(name, map[name := value]);
          state := Reduce(state, Error(map[name := r.message]));
          SpreadOne(old(state.errors), name, r.message);
        }
      }
      RebuildSchema();
    }

    /**
     * Leaving `name` with input text `text`: an empty text changes nothing;
     * otherwise the field becomes touched and, if it fails, shows its
     * message. A passing blur merges no error, so an earlier error of the
     * field stays.
     */
    method BlurField(name: string, text: string)
      requires Valid() && (text != "" ==> name in schema.rules)
      modifies this
      ensures Valid()
      ensures text == "" ==> state == old(state)
      ensures state.ok == old(state.ok) && state.data == old(state.data)
      ensures text != "" ==> state.touched == Some(TouchedFlags(old(state))[name := true])
      ensures text != "" ==>
        var r := initial.ValidateField(name, map[name := Str(text)]);
        state.errors == if r.ok then old(state.errors) else old(state.errors)[name := r.message]
    {
      if text == "" {
        return;
      }
      var r := schema.ValidateField(name, map[name := Str(text)]);
      state := Reduce(state, Blur(map[name := true], if r.ok then map[] else map[name := r.message]));
      SpreadOne(TouchedFlags(old(state)), name, true);
      assert old(state.errors) + map[] == old(state.errors);
      SpreadOne(old(state.errors), name, r.message);
    }

    /** Returns to the initial state, then rebuilds the schema from the empty data. */
    method ResetForm()
      requires Valid()
      modifies this, initial
      ensures Valid()
      ensures state == InitialState
      ensures initial.rules == Merged(old(initial.rules), derive(map[]))
    {
      state := Reduce(state, Unrecognised);
      RebuildSchema();
    }
  }

  /**
   * The rebuilds accumulate in the one schema object: after two changes the
   * schema is the original one merged once with the second patch laid over
   * the first, so a rule attribute set by both patches has the second
   * patch's value.
   */
  method RebuildsAccumulate(form: DynamicForm, a: string, x: Value, b: string, y: Value)
    requires form.Valid()
    requires IsTouched(form.state, a) ==> a in form.schema.rules
    requires IsTouched(form.state, b) ==> b in form.schema.rules
    modifies form, form.initial
    ensures form.Valid() && form.schema == form.initial
    ensures form.initial.rules == Merged(
      old(form.initial.rules),
      Merged(form.derive(old(form.state.data)[a := x]), form.derive(old(form.state.data)[a := x][b := y])))
  {
    ghost var rules0 := form.initial.rules;
    var outcome := form.UpdateField(a, x);
    outcome := form.UpdateField(b, y);
    MergedComposes(rules0, form.derive(old(form.state.data)[a := x]), form.derive(old(form.state.data)[a := x][b := y]));
  }
}
