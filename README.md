# validify: schema validation and form-state reconciliation in Dafny

This project models the core of a small form-validation library. It has two halves:

- **The validation engine** (`src/schema.ts`). A `Schema` maps field names to rule declarations (`required`, `email`, `max`, `min`, `maxLength`, `minLength`, `pattern`, `message`, `type`). `checkFunc` evaluates one field's rules as a fixed chain of early-returning checks. `validateField` applies the custom-message override. `validate` evaluates every field and collects `{ok, data, errors}`. `rebuilt` merges a patch into the schema in place, attribute by attribute.
- **The form-state layers built on it.**
  - The helpers of `src/util.ts`:
    - `setType` gives a default value per declared type.
    - `init` builds the untouched state.
    - `plain` flattens field records to values.
    - `shape` turns a validation result into field records.
  - The three reducer-driven form bindings, each a `class` whose handlers dispatch actions to a pure reducer:
    - `useSchema` (`src/core.ts`) keeps one record per field.
    - `useDynamicSchema` (`src/dynamic.ts`) keeps separate `data`/`errors`/`touched` maps and re-derives its schema from the data after every data change.
    - `useValidation` (`src/useValidation.ts`) is the simplest binding.

Files:

| file | module | models |
|---|---|---|
| `js_values.dfy` | `JsValues` | the tagged value domain: truthiness, `String(v)`, `Number(v)`, `.length` |
| `schema.dfy` | `Schemas` | `checkFunc`, its check order, the merge of `rebuilt`, the `Schema` class |
| `util.dfy` | `Util` | `setType`, `plain`, `shape`, `init` (loops proved against specification functions) |
| `core.dfy` | `Core` | the `useSchema` reducer and handlers |
| `dynamic.dfy` | `Dynamic` | the `useDynamicSchema` reducer, handlers and schema-rebuild effect |
| `use_validation.dfy` | `UseValidation` | the `useValidation` reducer and handlers |

Modelling conventions:

- **Values.** A field value is `Str | Int | Bool | List | Null`. `Null` stands for `null`, `undefined` and a missing property alike. `Falsy` is JavaScript truthiness on this domain; an array is always truthy.
- **Numbers.** Numbers are integers. A relational comparison converts its operand with `NumericValue`: booleans become 1/0, and strings go through a decimal-integer reader where `""` is 0. Every other string is NaN (`None`), against which every comparison is false.
- **Bounds.** A numeric rule attribute is an `Option<int>`. The rule consults it only when it is truthy (`BoundOn`: set and not 0), as the source's `if (this[field].max)` does.
- **E-mail.** The built-in e-mail expression is modelled exactly. It is an unanchored search for `\w{2,}@[A-Za-z0-9]{3,}\.[A-Za-z]{2,}` (`ContainsEmail`).
- **User patterns.** A user `pattern` is opaque: its source, its flags and the answer of its `test`.
- **Schemas.** A `Schema` object is a class whose `rules` map is its set of own properties. `rebuilt` reassigns entries of that map in place and returns the object itself.
- **Dispatch.** Dispatching applies the reducer to the held state at once (`state := Reduce(state, action)`). A handler's input event is reduced to the field name, plus the raw text where the source tests the raw text, plus the coerced value where it uses the coerced one.
- **The dynamic schema effect.** In `useDynamicSchema`, the effect `setSchema(initial.rebuilt(fn(state.data)))` runs when the data changes. It is modelled as `RebuildSchema()` at the end of every handler that changes `data`: the constructor, `Validate`, `UpdateField` and `ResetForm`. `rebuilt` returns `initial` itself, so the held schema is always the `initial` object; `DynamicForm.Valid()` records this. `Valid()` also records that the schema is a fixpoint of the current data's patch. Because merging is idempotent, a rebuild from unchanged data (which React would skip) changes nothing.

Behaviour of the code worth knowing, all of it modelled as written:

- **When the dynamic schema is rebuilt.** `useDynamicSchema` rebuilds its schema after every change of `data`: every change, validation and reset. A blur never triggers a rebuild.
- **A passing blur or touch keeps an old error.** In `useDynamicSchema` and `useValidation`, a passing blur or touch merges `{}` into `errors`, so an earlier error of that field stays shown.
- **Validation drops `touched`.** In `useDynamicSchema` and `useValidation`, the validation result replaces the state and has no `touched` map at all. In `useDynamicSchema`, a later `updateField` then reads `state.touched[name]` of `undefined`, which throws a `TypeError` after the change was dispatched. `Dynamic.DynamicForm.UpdateField` returns this as `TypeErrorThrown`.
- **No list-valued field events.** None of the bindings has handlers that add an option to a list-valued (checkbox-group) field or remove one. A list value is only ever stored whole.

## Model

| member | source | states |
|---|---|---|
| Schemas.Check | src/schema.ts:56-105 | passes exactly when its default message is empty; an optional falsy value passes before any other rule; a required falsy value fails with `"<field>" is required!` |
| Schemas.CheckIsFirstViolation | src/schema.ts:56-105 | after the optional-and-empty gate, the outcome is decided by the first rule in the order required, email, max, min, maxLength, minLength, pattern that rejects the value, with that rule's message; if none rejects, the value passes |
| Schemas.NoRulesAcceptEverything | src/schema.ts:56-105 | a declaration with no attributes accepts every value, absent ones included |
| Schemas.NumericBoundsInclusive | src/schema.ts:74-85 | with non-zero `min` <= `max`, a present value passes exactly when `min <= n <= max`; above `max` it gets the max message, below `min` the min message |
| Schemas.AgeRuleExamples | src/App.tsx:17-21 | the demo's `age` rule (required, min 18, max 30) rejects 17 and 31 (the latter with the max message) and accepts 18 and 30 |
| Schemas.LengthBoundsInclusive | src/schema.ts:86-97 | `minLength <= length <= maxLength` decides a value with a length, both ends included, with the matching message on each side |
| Schemas.ZeroBoundIgnored | src/schema.ts:74-85 | a `max` or `min` of 0 gives the same verdict as no bound |
| Schemas.ZeroLengthBoundIgnored | src/schema.ts:86-97 | a `maxLength` or `minLength` of 0 gives the same verdict as no bound |
| Schemas.EmailExamples | src/schema.ts:66-73 | the e-mail expression is found inside longer text and does not accept a two-letter domain |
| Schemas.Merged | src/schema.ts:26-31 | after `rebuilt(patch)` the schema's fields are the old fields together with the patch's |
| Schemas.MergedFields | src/schema.ts:26-31 | a field the patch does not name is unchanged, a field new in the patch is taken as given, and on a field in both exactly the attributes the patch sets are overwritten |
| Schemas.MergeRulesIdempotent | src/schema.ts:28 | spreading the same attribute patch twice equals spreading it once |
| Schemas.MergeRulesComposes | src/schema.ts:28 | spreading `p1` then `p2` equals spreading once with `p2` laid over `p1` |
| Schemas.MergedIdempotent | src/schema.ts:26-31 | rebuilding twice with the same patch equals rebuilding once |
| Schemas.MergedComposes | src/schema.ts:26-31 | rebuilding with `p1` then `p2` equals rebuilding once with their field-wise union in which `p2` wins ties |
| Schemas.Schema.constructor | src/schema.ts:20-24 | the new schema's fields are exactly the declaration's |
| Schemas.Schema.Rebuilt | src/schema.ts:26-31 | mutates the schema in place into the merge of its old rules and the patch, and returns the same object |
| Schemas.Schema.ValidateField | src/schema.ts:33-37 | `ok` is the field's check; the message is empty exactly when `ok`; on failure a non-empty custom message replaces the default one |
| Schemas.FieldCheckIsLocal | src/schema.ts:33-37 | validating the one-field slice `{[field]: value}` agrees with validating any entity holding that value |
| Schemas.Schema.Validate | src/schema.ts:39-53 | the loop computes the whole-entity evaluation of every field, and `ok` holds exactly when `errors` is empty |
| Schemas.EvaluationShape | src/schema.ts:39-53 | `data` is keyed by exactly the schema's fields, `errors` by exactly the failing ones, every error is non-empty, and `ok` holds exactly when `errors` is empty |
| JsValues.IntTextReadsBack | src/schema.ts:74-85 | the text a bound prints as in its message (`${max}`) reads back as the same number |
| Util.SetType | src/util.ts:1-13 | the default is a value of the declared type and is falsy or the empty array |
| Util.SetTypeIsUnique | src/util.ts:1-13 | it is the only value of that type with that property |
| Util.Plain | src/util.ts:16-24 | the entity has exactly the state's fields, each mapped to its record's value |
| Util.Shape | src/util.ts:26-39 | the loop builds the shaped state of the validation result |
| Util.ShapeMarksErrors | src/util.ts:26-39 | `shape` keeps the result's fields, touches all of them, fails exactly those in `errors` and shows their error, and copies the aggregate `ok` |
| Util.PlainAfterShape | src/util.ts:16-39 | round trip: `plain(shape(v).data) == v.data`, with the same keys |
| Util.ShapedEvaluationConsistent | src/util.ts:26-39 | shaping a whole-entity validation gives records that pass exactly when their error is empty |
| Util.Init | src/util.ts:41-51 | the loop builds the untouched initial state of the schema |
| Util.InitIsPristine | src/util.ts:41-51 | `init` has exactly the schema's fields, each passing, untouched and without error, valued from `initial` when present and otherwise by type; extra keys of `initial` are ignored; aggregate `ok` is false |
| Util.DefaultFailsRequired | src/util.ts:44-46 | a required field given no initial value fails its check on its type's default, unless the type is `Array` |
| Core.Reduce | src/core.ts:23-34 | a change merges its records into `data`, keeping every other record and the aggregate `ok`; any other action is replaced by its payload |
| Core.EditsKeepOk | src/core.ts:25-26 | no run of change actions moves the aggregate `ok` |
| Core.ShowValidation | src/core.ts:39-46 | the shaped whole-entity validation has one touched record per schema field, each passing exactly when its error is empty |
| Core.SchemaForm.constructor | src/core.ts:36-37 | the form starts in `init(schema, initial)`, with one consistent record per field |
| Core.SchemaForm.Validate | src/core.ts:39-46 | returns the validation of the flattened state and shows its shape: every field touched, the aggregate `ok` from the result |
| Core.SchemaForm.UpdateField | src/core.ts:48-68 | an untouched field takes the value with no error; a touched one shows its own validation; other fields and the aggregate `ok` stay |
| Core.SchemaForm.BlurField | src/core.ts:70-79 | empty text changes nothing; otherwise the field shows its validation and becomes touched; others and `ok` stay |
| Core.SchemaForm.ResetForm | src/core.ts:81-84 | the state is `init(schema, initial)` again |
| Core.TouchedIsSticky | src/core.ts:48-79 | a touched field stays touched through an edit and a blur of any field |
| Core.EditShowsErrorOnlyOnceTouched | src/core.ts:52-78 | an edit of an untouched field leaves it passing, untouched and without error even though its value fails; after a blur has touched the field, the same edit shows the failure |
| Dynamic.ReducerCases | src/dynamic.ts:25-49 | change spreads its payload over `data` only, error over `errors` only, blur its flags over `touched` and its errors over `errors`: every named key takes the payload's entry and every other key keeps its old one; validation replaces the state without `touched`; anything else gives the initial state |
| Dynamic.DynamicForm.constructor | src/dynamic.ts:51-57 | the form starts in the initial state and the mount effect merges the empty data's patch into `initial` |
| Dynamic.DynamicForm.RebuildSchema | src/dynamic.ts:55-57 | the effect merges the current data's patch into `initial` in place and holds `initial` as the schema |
| Dynamic.DynamicForm.Validate | src/dynamic.ts:59-64 | the state becomes the validation result without `touched`, and the schema is rebuilt from the result's data |
| Dynamic.DynamicForm.UpdateField | src/dynamic.ts:66-75 | the value is always stored; a touched field's error becomes its message (empty when passing); a missing `touched` map throws after the store; the schema is rebuilt |
| Dynamic.DynamicForm.BlurField | src/dynamic.ts:77-88 | empty text changes nothing; otherwise the field becomes touched and a failure's message is merged, a pass merging nothing |
| Dynamic.DynamicForm.ResetForm | src/dynamic.ts:90-92 | the state is the initial state and the schema is rebuilt from the empty data |
| Dynamic.RebuildsAccumulate | src/dynamic.ts:55-57 | two edits of any fields, touched or not, leave `initial` merged once with the second patch laid over the first (last write wins) |
| UseValidation.ReducerCases | src/useValidation.ts:25-50 | update spreads its payload over `data` only; update-touch over `data` and `touched`, leaving `errors`; touch over `touched` and `errors`, a missing map spreading as empty: every named key takes the payload's entry and every other key keeps its old one; validation replaces the state; anything else keeps it; every case but validation keeps `ok` |
| UseValidation.OkMovesOnlyByValidation | src/useValidation.ts:25-50 | no run of actions without a validation moves the aggregate `ok` |
| UseValidation.RunOnlyAdds | src/useValidation.ts:25-50 | without a validation, touched fields and shown errors are never forgotten |
| UseValidation.ValidationForm.constructor | src/useValidation.ts:10-15 | the form starts with `errors` null, `ok` false, and empty `data` and `touched` |
| UseValidation.ValidationForm.Validate | src/useValidation.ts:55-60 | returns the validation of the data, which replaces the state |
| UseValidation.ValidationForm.UpdateField | src/useValidation.ts:62-66 | stores the value and changes nothing else |
| UseValidation.ValidationForm.TouchField | src/useValidation.ts:68-80 | the field becomes touched; a failure's message is merged into `errors`, a pass merges nothing; `ok` and `data` stay |
| UseValidation.ValidationForm.UpdateAndTouch | src/useValidation.ts:82-92 | stores the value and touches the field without validating; `errors` and `ok` stay |

## Left out

- **React machinery.** `useReducer`, `useState`, re-rendering and the scheduling of `useEffect` are left out. Dispatch applies the reducer immediately, and the effect is an explicit step at the end of the handler. A handler reads the state it captured at render time, before any of its own dispatches, even where the read comes after a dispatch in the text (`src/dynamic.ts:71`). The model therefore takes those reads before dispatching.
- **Input coercion.** The `type === "number" ? Number(value) : value` coercion of input events is done by the caller: the handlers take the coerced value. Reading DOM events is input/output.
- **Numbers.** Floating-point numbers, NaN arithmetic and `Number()` on strings other than optionally signed decimal integers are not modelled. Such strings compare as NaN.
- **Regular expressions.** The user `pattern` regular expression engine is not modelled. The `lastIndex` statefulness of `g`/`y` patterns is not modelled either.
- **Property order.** JavaScript's property order of objects is not modelled. Maps are unordered, so which error is listed first is not captured. The set of errors and every message are captured.
- **null and undefined.** They are one value, `Null`. The model does not distinguish `String(null)` from `String(undefined)`; no rule converts a falsy value to text, so no result depends on it.
- **`.length`.** It counts characters, not UTF-16 code units. Characters outside the Basic Multilingual Plane count once here and twice in JavaScript.
- **Schemas.MergeRules:** a patch attribute explicitly set to `undefined` counts as absent. In the source it overwrites the old attribute with `undefined`.
- **Reserved field names.** Field names that clash with the schema object's own methods (`validate`, `rebuilt`, `validateField`) or with `Object.prototype` members are not modelled.
- **Fields missing from the schema or the state.** A field name outside the schema (or outside `useSchema`'s state) makes the source throw a `TypeError`. It appears as a precondition of the handlers and of `Schemas.Schema.ValidateField`.
- **The demo UI.** `src/App.tsx` is JSX. Only its schema declaration is used, as the example in `Schemas.AgeRuleExamples`.
- **`Util.fullInit`.** It is commented out in the source.
- **The `@validify-js/core` package.** `src/core.ts` and `src/dynamic.ts` import `Schema` from it. The package is not part of this model and is taken to behave as `src/schema.ts`.
- **Unused `ERROR` action in `useValidation`.** The reducer has no case for the action type `ERROR`, so that action falls to the default: `UseValidation.Action.Unrecognised`.
