/**
 * The helpers that move between a validation result and the per-field form
 * state: default values by declared type, the untouched initial state, and
 * the two conversions `plain` (state to entity) and `shape` (validation
 * result to state).
 */
module Util {
  import opened JsValues
  import opened Schemas

  /** One field as a form shows it. */
  datatype FieldState = FieldState(ok: bool, touched: bool, value: Value, error: string)

  /** The whole form: the aggregate `ok` and one record per field. */
  datatype FormState = FormState(ok: bool, data: map<string, FieldState>)

  /** `v` is a value of the declared type; an unknown or missing type stands for `null`. */
  predicate OfType(v: Value, t: Option<TypeTag>) {
    match t
    case Some(StringType) => v.Str?
    case Some(BooleanType) => v.Bool?
    case Some(NumberType) => v.Int?
    case Some(ArrayType) => v.List?
    case _ => v.Null?
  }

  /** `setType`: the empty value of the declared type, an empty array for `Array`. */
  function SetType(t: Option<TypeTag>): (v: Value)
    ensures OfType(v, t)
    ensures Falsy(v) || v == List([])
  {
    if t == Some(StringType) then Str("")
    else if t == Some(BooleanType) then Bool(false)
    else if t == Some(NumberType) then Int(0)
    else if t == Some(ArrayType) then List([])
    else Null
  }

  /** The type's empty value is the only value its two properties allow. */
  lemma {:induction false} SetTypeIsUnique(t: Option<TypeTag>, v: Value)
    requires OfType(v, t) && (Falsy(v) || v == List([]))
    ensures v == SetType(t)
  {
    match t
    case Some(StringType) =>
    case Some(BooleanType) =>
    case Some(NumberType) =>
    case Some(ArrayType) =>
    case _ =>
  }

  // ---------------------------------------------------------------------
  // Specifications of the three loops

  /** `plain(data)`: each field's value. */
  function PlainOf(data: map<string, FieldState>): map<string, Value> {
    map field | field in data :: data[field].value
  }

  /** The record `shape` builds for a field whose value is `value`. */
  function ShapedField(v: Validation, field: string, value: Value): FieldState {
    FieldState(field !in v.errors, true, value, if field in v.errors then v.errors[field] else "")
  }

  /** `shape(v)`: one touched record per field of `v.data`, and the aggregate `ok` of `v`. */
  function ShapeOf(v: Validation): FormState {
    FormState(v.ok, map field | field in v.data :: ShapedField(v, field, v.data[field]))
  }

  /** The value `init` gives a field: the initial one if supplied, else its type's default. */
  function InitialValue(rules: map<string, Rules>, initial: map<string, Value>, field: string): Value
    requires field in rules
  {
    if field in initial then initial[field] else SetType(rules[field].declaredType)
  }

  /** `init(schema, initial)`: every schema field untouched and passing; the form not yet valid. */
  function InitOf(rules: map<string, Rules>, initial: map<string, Value>): FormState {
    FormState(false, map field | field in rules :: FieldState(true, false, InitialValue(rules, initial, field), ""))
  }

  // ---------------------------------------------------------------------
  // The loops

  /** `Util.plain`: the entity a form state holds. */
  method Plain(data: map<string, FieldState>) returns (entity: map<string, Value>)
    ensures entity == PlainOf(data)
  {
    entity := map[];
    var pending := data.Keys;
    while pending != {}
      invariant pending <= data.Keys
      invariant entity.Keys == data.Keys - pending
      invariant forall field :: field in entity ==> entity[field] == data[field].value
      decreases pending
    {
      var field :| field in pending;
      entity := entity[field := data[field].value];
      pending := pending - {field};
    }
  }

  /** `Util.shape`: the form state a validation result shows. */
  method Shape(v: Validation) returns (state: FormState)
    ensures state == ShapeOf(v)
  {
    var data: map<string, FieldState> := map[];
    var pending := v.data.Keys;
    while pending != {}
      invariant pending <= v.data.Keys
      invariant data.Keys == v.data.Keys - pending
      invariant forall field :: field in data ==> data[field] == ShapedField(v, field, v.data[field])
      decreases pending
    {
      var field :| field in pending;
      var error := if field in v.errors && v.errors[field] != "" then v.errors[field] else "";
      data := data[field := FieldState(if field in v.errors then false else true, true, v.data[field], error)];
      pending := pending - {field};
    }
    state := FormState(v.ok, data);
  }

  /** `Util.init`: the untouched state of a form over `schema`. */
  method Init(schema: Schema, initial: map<string, Value>) returns (state: FormState)
    ensures state == InitOf(schema.rules, initial)
  {
    var data: map<string, FieldState> := map[];
    var pending := schema.rules.Keys;
    while pending != {}
      invariant pending <= schema.rules.Keys
      invariant data.Keys == schema.rules.Keys - pending
      invariant forall field :: field in data ==>
        data[field] == FieldState(true, false, InitialValue(schema.rules, initial, field), "")
      decreases pending
    {
      var field :| field in pending;
      var value := if field in initial then initial[field] else SetType(schema.rules[field].declaredType);
      data := data[field := FieldState(true, false, value, "")];
      pending := pending - {field};
    }
    state := FormState(false, data);
  }

  // ---------------------------------------------------------------------
  // Properties

  /**
   * `init` gives exactly the schema's fields, each untouched, passing and
   * without error, holding the supplied initial value when there is one and
   * its type's default otherwise; keys of `initial` outside the schema are
   * ignored; the aggregate `ok` is false.
   */
  lemma {:induction false} InitIsPristine(rules: map<string, Rules>, initial: map<string, Value>)
    ensures InitOf(rules, initial).ok == false
    ensures InitOf(rules, initial).data.Keys == rules.Keys
    ensures forall field :: field in rules ==>
      var f := InitOf(rules, initial).data[field];
      f.ok && !f.touched && f.error == ""
    ensures PlainOf(InitOf(rules, initial).data) ==
      map field | field in rules :: if field in initial then initial[field] else SetType(rules[field].declaredType)
  {
    var state := InitOf(rules, initial);
    assert PlainOf(state.data).Keys == rules.Keys;
  }

  /**
   * `shape` keeps the fields of the result, touches all of them, fails
   * exactly those with an error and shows that error, and carries the
   * aggregate `ok` over.
   */
  lemma {:induction false} ShapeMarksErrors(v: Validation)
    requires v.errors.Keys <= v.data.Keys
    ensures ShapeOf(v).ok == v.ok
    ensures ShapeOf(v).data.Keys == v.data.Keys
    ensures forall field :: field in v.data ==>
      var f := ShapeOf(v).data[field];
      && f.touched && f.value == v.data[field]
      && (f.ok <==> field !in v.errors)
      && f.error == (if field in v.errors then v.errors[field] else "")
  {
  }

  /** Round trip: flattening the shaped result gives back the validated data, key for key. */
  lemma {:induction false} PlainAfterShape(v: Validation)
    ensures PlainOf(ShapeOf(v).data) == v.data
    ensures ShapeOf(v).data.Keys == v.data.Keys
  {
    var back := PlainOf(ShapeOf(v).data);
    assert back.Keys == v.data.Keys;
    forall field | field in back
      ensures back[field] == v.data[field]
    {
    }
  }

  /**
   * Shaping a whole-entity validation keeps every field's `ok` and `error`
   * consistent: a field passes exactly when its error is empty.
   */
  lemma {:induction false} ShapedEvaluationConsistent(s: Schema, entity: map<string, Value>)
    ensures forall field :: field in ShapeOf(s.Evaluation(entity)).data ==>
      var f := ShapeOf(s.Evaluation(entity)).data[field];
      f.touched && (f.ok <==> f.error == "")
  {
    EvaluationShape(s, entity);
  }

  /**
   * A required field that is not given an initial value fails its required
   * check on its declared type's default, unless that type is `Array`, whose
   * empty default is truthy.
   */
  lemma {:induction false} DefaultFailsRequired(rules: map<string, Rules>, initial: map<string, Value>, field: string)
    requires field in rules && field !in initial
    requires IsOn(rules[field].required) && rules[field].declaredType != Some(ArrayType)
    ensures !Check(rules[field], field, PlainOf(InitOf(rules, initial).data)[field]).valid
  {
    InitIsPristine(rules, initial);
  }
}
