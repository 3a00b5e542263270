/**
 * `useSchema`: a form whose state holds one record per schema field. The
 * reducer is pure; the handlers decide what to dispatch from the state they
 * see, and dispatching applies the reducer to the held state at once.
 */
module Core {
  import opened JsValues
  import opened Schemas
  import opened Util

  /** The actions the reducer receives. */
  datatype Action =
    | Change(fields: map<string, FieldState>)   // "CH": records to merge into `data`
    | ValidateAll(next: FormState)              // "VA": the shaped validation result
    | Unrecognised(next: FormState)             // any other type; `resetForm` sends ""

  /**
   * The reducer: `Change` merges its records into `data` and leaves the
   * aggregate `ok` alone; every other action replaces the whole state.
   */
  function Reduce(state: FormState, action: Action): (r: FormState)
    ensures action.Change? ==> r.ok == state.ok
    ensures action.Change? ==> r.data.Keys == state.data.Keys + action.fields.Keys
    ensures action.Change? ==> forall field :: field in r.data ==>
      r.data[field] == if field in action.fields then action.fields[field] else state.data[field]
    ensures !action.Change? ==> r == action.next
  {
    match action
    case Change(fields) => state.(data := state.data + fields)
    case ValidateAll(next) => next
    case Unrecognised(next) => next
  }

  /** Applies a run of actions in order. */
  function Run(state: FormState, actions: seq<Action>): FormState
    decreases |actions|
  {
    if actions == [] then state else Run(Reduce(state, actions[0]), actions[1..])
  }

  /** Field edits alone never move the aggregate `ok`. */
  lemma {:induction false} EditsKeepOk(state: FormState, actions: seq<Action>)
    requires forall i :: 0 <= i < |actions| ==> actions[i].Change?
    ensures Run(state, actions).ok == state.ok
    decreases |actions|
  {
    if actions != [] {
      EditsKeepOk(Reduce(state, actions[0]), actions[1..]);
    }
  }

  /** A record is untouched only while passing, and passes exactly when it shows no error. */
  ghost predicate Consistent(f: FieldState) {
    (f.ok <==> f.error == "") && (!f.touched ==> f.ok)
  }

  /**
   * The shown validation of a whole entity has one touched, consistent
   * record per schema field.
   */
  lemma {:induction false} ShowValidation(schema: Schema, entity: map<string, Value>)
    ensures ShapeOf(schema.Evaluation(entity)).data.Keys == schema.rules.Keys
    ensures forall field :: field in ShapeOf(schema.Evaluation(entity)).data ==>
      var f := ShapeOf(schema.Evaluation(entity)).data[field];
      f.touched && Consistent(f)
  {
    EvaluationShape(schema, entity);
    ShapeMarksErrors(schema.Evaluation(entity));
    ShapedEvaluationConsistent(schema, entity);
  }

  class SchemaForm {
    const schema: Schema
    const initial: map<string, Value>
    var state: FormState

    /** The state has one consistent record per schema field. */
    ghost predicate Valid()
      reads this, schema
    {
      && state.data.Keys == schema.rules.Keys
      && forall field :: field in state.data ==> Consistent(state.data[field])
    }

    /** `useReducer(reducer, Util.init(schema, initial))`. */
    constructor (schema: Schema, initial: map<string, Value>)
      ensures this.schema == schema && this.initial == initial
      ensures state == InitOf(schema.rules, initial)
      ensures Valid()
    {
      this.schema := schema;
      this.initial := initial;
      new;
      state := Init(schema, initial);
      InitIsPristine(schema.rules, initial);
    }

    /** Validates the whole form and shows the result in every field. */
    method Validate() returns (v: Validation)
      requires Valid()
      modifies this
      ensures Valid()
      ensures v == schema.Evaluation(PlainOf(old(state).data))
      ensures state == ShapeOf(v)
      ensures forall field :: field in state.data ==> state.data[field].touched
    {
      var entity := Plain(state.data);
      v := schema.Validate(entity);
      var payload := Shape(v);
      state := Reduce(state, ValidateAll(payload));
      ShowValidation(schema, entity);
    }

    /**
     * A change to `name`, whose coerced value is `value`: an untouched field
     * only takes the value, without showing any error; a touched field is
     * validated on its own and shows the outcome.
     */
    method UpdateField(name: string, value: Value)
      requires Valid() && name in state.data
      modifies this
      ensures Valid()
      ensures state.ok == old(state.ok)
      ensures state.data.Keys == old(state.data.Keys)
      ensures forall field :: field in state.data && field != name ==> state.data[field] == old(state.data[field])
      ensures old(state.data[name].touched) ==>
        var r := schema.ValidateField(name, map[name := value]);
        state.data[name] == FieldState(r.ok, true, value, r.message)
      ensures !old(state.data[name].touched) ==> state.data[name] == FieldState(true, false, value, "")
    {
      if state.data[name].touched {
        var r := schema.ValidateField(name, map[name := value]);
        state := Reduce(state, Change(map[name := FieldState(r.ok, true, value, r.message)]));
      } else {
        state := Reduce(state, Change(map[name := FieldState(true, false, value, "")]));
      }
    }

    /**
     * Leaving `name`, whose input text is `text` and coerced value `value`:
     * an empty text changes nothing; otherwise the field is validated on
     * its own, shows the outcome and becomes touched.
     */
    method BlurField(name: string, text: string, value: Value)
      requires Valid() && (text != "" ==> name in schema.rules)
      modifies this
      ensures Valid()
      ensures text == "" ==> state == old(state)
      ensures state.ok == old(state.ok)
      ensures forall field :: field in state.data && field != name ==> state.data[field] == old(state.data[field])
      ensures text != "" ==>
        var r := schema.ValidateField(name, map[name := value]);
        state.data[name] == FieldState(r.ok, true, value, r.message)
    {
      if text == "" {
        return;
      }
      var r := schema.ValidateField(name, map[name := value]);
      state := Reduce(state, Change(map[name := FieldState(r.ok, true, value, r.message)]));
    }

    /** Restores the untouched initial state. */
    method ResetForm()
      requires Valid()
      modifies this
      ensures Valid()
      ensures state == InitOf(schema.rules, initial)
    {
      var payload := Init(schema, initial);
      state := Reduce(state, Unrecognised(payload));
      InitIsPristine(schema.rules, initial);
    }
  }

  /**
   * A touched record stays touched through edits and blurs of any field:
   * only `resetForm` makes a field untouched again (and `validate` touches
   * every field).
   */
  method TouchedIsSticky(form: SchemaForm, name: string, text: string, value: Value, other: string)
    requires form.Valid() && name in form.state.data && other in form.state.data
    requires form.state.data[other].touched
    modifies form
    ensures form.Valid() && other in form.state.data && form.state.data[other].touched
  {
    form.UpdateField(name, value);
    assert form.state.data[other].touched;
    form.BlurField(name, text, value);
  }

  /**
   * An edit of an untouched field shows no error even when the value fails
   * its rules (`afterEdit` is the record right after that edit); after a blur
   * has touched the field, the same edit shows it.
   */
  method EditShowsErrorOnlyOnceTouched(form: SchemaForm, name: string, text: string, value: Value)
    returns (ghost afterEdit: FieldState)
    requires form.Valid() && name in form.state.data && !form.state.data[name].touched
    requires text != ""
    requires !form.schema.ValidateField(name, map[name := value]).ok
    modifies form
    ensures afterEdit.ok && afterEdit.error == "" && !afterEdit.touched && afterEdit.value == value
    ensures form.Valid() && name in form.state.data
    ensures form.state.data[name].ok == false && form.state.data[name].error != ""
  {
    form.UpdateField(name, value);
    afterEdit := form.state.data[name];
    form.BlurField(name, text, value);
    form.UpdateField(name, value);
  }
}
