/**
 * The validation engine: the per-field rule evaluator (`checkFunc`), the
 * `Schema` object that maps field names to their rules, validates one field
 * or a whole entity, and merges a patch into itself in place (`rebuilt`).
 */
module Schemas {
  import opened JsValues

  /** The constructor named by a field's `type` attribute. */
  datatype TypeTag = StringType | BooleanType | NumberType | ArrayType | OtherType

  /**
   * A user regular expression: the source and flags it prints as, and the
   * answer its `test` method gives for a text (the regex engine itself is
   * not modelled).
   */
  datatype Pattern = Pattern(source: string, flags: string, test: string -> bool)

  /** One field's rules; `None` is an attribute the declaration leaves out. */
  datatype Rules = Rules(
    declaredType: Option<TypeTag>,
    required: Option<bool>,
    email: Option<bool>,
    max: Option<int>,
    min: Option<int>,
    maxLength: Option<int>,
    minLength: Option<int>,
    pattern: Option<Pattern>,
    message: Option<string>)

  /** The empty declaration `{}`. */
  const NoRules := Rules(None, None, None, None, None, None, None, None, None)

  /** What `checkFunc` returns. */
  datatype Verdict = Verdict(valid: bool, defaultMessage: string)

  /** What `validateField` returns. */
  datatype FieldCheck = FieldCheck(ok: bool, message: string)

  /** What `validate` returns. */
  datatype Validation = Validation(ok: bool, data: map<string, Value>, errors: map<string, string>)

  // ---------------------------------------------------------------------
  // Truthiness of rule attributes

  predicate IsOn(flag: Option<bool>) {
    flag == Some(true)
  }

  /** A numeric bound is consulted only when truthy: set and not 0. */
  predicate BoundOn(bound: Option<int>) {
    bound.Some? && bound.value != 0
  }

  // ---------------------------------------------------------------------
  // The built-in e-mail expression, searched for anywhere in the text

  predicate IsLetter(c: char) {
    'a' <= c <= 'z' || 'A' <= c <= 'Z'
  }

  predicate IsAlnum(c: char) {
    IsLetter(c) || IsDigit(c)
  }

  predicate IsWordChar(c: char) {
    IsAlnum(c) || c == '_'
  }

  /**
   * `s` holds a match of `[\w]{2,}@[A-Za-z0-9]{3,}\.[A-Za-z]{2,}` with its
   * `@` at index `at` and its `.` at index `dot`. Two word characters before
   * the `@` and two letters after the `.` suffice, since longer runs contain
   * these; the domain must fill the whole gap between `@` and `.`.
   */
  predicate EmailAt(s: string, at: int, dot: int) {
    && 2 <= at && at + 4 <= dot && dot + 2 < |s|
    && IsWordChar(s[at - 2]) && IsWordChar(s[at - 1]) && s[at] == '@'
    && (forall k :: at < k < dot ==> IsAlnum(s[k]))
    && s[dot] == '.' && IsLetter(s[dot + 1]) && IsLetter(s[dot + 2])
  }

  /** The unanchored e-mail expression's `test`. */
  predicate ContainsEmail(s: string) {
    exists at, dot | 0 <= at < dot < |s| :: EmailAt(s, at, dot)
  }

  // ---------------------------------------------------------------------
  // Comparisons as the rules perform them

  /** `max < v`: false when `v` converts to NaN. */
  predicate Above(v: Value, max: int) {
    var n := NumericValue(v); n.Some? && max < n.value
  }

  /** `min > v`: false when `v` converts to NaN. */
  predicate Below(v: Value, min: int) {
    var n := NumericValue(v); n.Some? && min > n.value
  }

  /** `maxLength < v.length`: false when `v` has no length. */
  predicate LongerThan(v: Value, maxLength: int) {
    var n := LengthOf(v); n.Some? && maxLength < n.value
  }

  /** `minLength > v.length`: false when `v` has no length. */
  predicate ShorterThan(v: Value, minLength: int) {
    var n := LengthOf(v); n.Some? && minLength > n.value
  }

  /** `${pattern}`: a regular expression prints as `/source/flags`. */
  function PatternText(p: Pattern): string {
    "/" + p.source + "/" + p.flags
  }

  // ---------------------------------------------------------------------
  // Default messages, verbatim (including the misspelling "greather")

  function Quoted(field: string): string {
    "\"" + field + "\""
  }

  function RequiredMessage(field: string): string {
    Quoted(field) + " is required!"
  }

  function EmailMessage(field: string): string {
    Quoted(field) + " is not a valid email address"
  }

  function MaxMessage(field: string, max: int): string {
    Quoted(field) + " must be equal or lower than " + IntToString(max)
  }

  function MinMessage(field: string, min: int): string {
    Quoted(field) + " must be equal or greather than " + IntToString(min)
  }

  function MaxLengthMessage(field: string, maxLength: int): string {
    "length of " + Quoted(field) + " must be equal or lower than " + IntToString(maxLength)
  }

  function MinLengthMessage(field: string, minLength: int): string {
    "length of " + Quoted(field) + " must be equal or greather than " + IntToString(minLength)
  }

  function PatternMessage(field: string, p: Pattern): string {
    Quoted(field) + " doesn't match " + PatternText(p)
  }

  // ---------------------------------------------------------------------
  // checkFunc

  /**
   * `checkFunc` for the field `field` whose value is `v`: a chain of guarded
   * checks, each returning at once. A value that is falsy passes a field
   * that is not required, before any other rule is looked at.
   */
  function Check(rule: Rules, field: string, v: Value): (r: Verdict)
    ensures r.valid <==> r.defaultMessage == ""
    ensures !IsOn(rule.required) && Falsy(v) ==> r.valid
    ensures IsOn(rule.required) && Falsy(v) ==> r == Verdict(false, RequiredMessage(field))
  {
    if !IsOn(rule.required) && Falsy(v) then Verdict(true, "")
    else if IsOn(rule.required) && Falsy(v) then Verdict(false, RequiredMessage(field))
    else if IsOn(rule.email) && !ContainsEmail(ToText(v)) then Verdict(false, EmailMessage(field))
    else if BoundOn(rule.max) && Above(v, rule.max.value) then Verdict(false, MaxMessage(field, rule.max.value))
    else if BoundOn(rule.min) && Below(v, rule.min.value) then Verdict(false, MinMessage(field, rule.min.value))
    else if BoundOn(rule.maxLength) && LongerThan(v, rule.maxLength.value) then
      Verdict(false, MaxLengthMessage(field, rule.maxLength.value))
    else if BoundOn(rule.minLength) && ShorterThan(v, rule.minLength.value) then
      Verdict(false, MinLengthMessage(field, rule.minLength.value))
    else if rule.pattern.Some? && !rule.pattern.value.test(ToText(v)) then
      Verdict(false, PatternMessage(field, rule.pattern.value))
    else Verdict(true, "")
  }

  /** `this[field].message || defaultMessage`: a non-empty custom message replaces the default. */
  function Overridden(rule: Rules, defaultMessage: string): string {
    if rule.message.Some? && rule.message.value != "" then rule.message.value else defaultMessage
  }

  // ---------------------------------------------------------------------
  // An independent statement of the check order

  /** The rules after the initial "optional and empty" gate, one per guarded check. */
  datatype RuleKind = RequiredRule | EmailRule | MaxRule | MinRule | MaxLengthRule | MinLengthRule | PatternRule

  /** The order in which the checks run. */
  const CheckOrder: seq<RuleKind> :=
    [RequiredRule, EmailRule, MaxRule, MinRule, MaxLengthRule, MinLengthRule, PatternRule]

  /** The message with which rule `kind`, taken on its own, rejects `v`, if it does. */
  function Violation(kind: RuleKind, rule: Rules, field: string, v: Value): Option<string> {
    match kind
    case RequiredRule =>
      if IsOn(rule.required) && Falsy(v) then Some(RequiredMessage(field)) else None
    case EmailRule =>
      if IsOn(rule.email) && !ContainsEmail(ToText(v)) then Some(EmailMessage(field)) else None
    case MaxRule =>
      if BoundOn(rule.max) && Above(v, rule.max.value) then Some(MaxMessage(field, rule.max.value)) else None
    case MinRule =>
      if BoundOn(rule.min) && Below(v, rule.min.value) then Some(MinMessage(field, rule.min.value)) else None
    case MaxLengthRule =>
      if BoundOn(rule.maxLength) && LongerThan(v, rule.maxLength.value) then
        Some(MaxLengthMessage(field, rule.maxLength.value))
      else None
    case MinLengthRule =>
      if BoundOn(rule.minLength) && ShorterThan(v, rule.minLength.value) then
        Some(MinLengthMessage(field, rule.minLength.value))
      else None
    case PatternRule =>
      if rule.pattern.Some? && !rule.pattern.value.test(ToText(v)) then
        Some(PatternMessage(field, rule.pattern.value))
      else None
  }

  /** The message of the first rule in `kinds` that rejects `v`. */
  function FirstViolation(kinds: seq<RuleKind>, rule: Rules, field: string, v: Value): Option<string> {
    if kinds == [] then None
    else if Violation(kinds[0], rule, field, v).Some? then Violation(kinds[0], rule, field, v)
    else FirstViolation(kinds[1..], rule, field, v)
  }

  /** The first failing rule decides the outcome, and every rule before it passed. */
  lemma {:induction false} FirstViolationIsFirst(kinds: seq<RuleKind>, rule: Rules, field: string, v: Value, i: nat)
    requires i < |kinds| && Violation(kinds[i], rule, field, v).Some?
    requires forall j :: 0 <= j < i ==> Violation(kinds[j], rule, field, v).None?
    ensures FirstViolation(kinds, rule, field, v) == Violation(kinds[i], rule, field, v)
  {
    if i > 0 {
      assert Violation(kinds[0], rule, field, v).None?;
      FirstViolationIsFirst(kinds[1..], rule, field, v, i - 1);
    }
  }

  /** No rule in `kinds` rejects `v` exactly when there is no first violation. */
  lemma {:induction false} NoViolation(kinds: seq<RuleKind>, rule: Rules, field: string, v: Value)
    ensures FirstViolation(kinds, rule, field, v).None?
        <==> forall j :: 0 <= j < |kinds| ==> Violation(kinds[j], rule, field, v).None?
  {
    if kinds != [] {
      NoViolation(kinds[1..], rule, field, v);
      assert forall j :: 1 <= j < |kinds| ==> kinds[j] == kinds[1..][j - 1];
    }
  }

  /**
   * `checkFunc` is the initial gate followed by the rules in `CheckOrder`,
   * the first that rejects deciding the message.
   */
  lemma {:induction false} CheckIsFirstViolation(rule: Rules, field: string, v: Value)
    ensures Check(rule, field, v) ==
      if !IsOn(rule.required) && Falsy(v) then Verdict(true, "")
      else match FirstViolation(CheckOrder, rule, field, v)
        case None => Verdict(true, "")
        case Some(m) => Verdict(false, m)
  {
    var c := CheckOrder;
    if !IsOn(rule.required) && Falsy(v) {
    } else if Violation(RequiredRule, rule, field, v).Some? {
      FirstViolationIsFirst(c, rule, field, v, 0);
    } else if Violation(EmailRule, rule, field, v).Some? {
      FirstViolationIsFirst(c, rule, field, v, 1);
    } else if Violation(MaxRule, rule, field, v).Some? {
      FirstViolationIsFirst(c, rule, field, v, 2);
    } else if Violation(MinRule, rule, field, v).Some? {
      FirstViolationIsFirst(c, rule, field, v, 3);
    } else {
      LaterViolations(rule, field, v);
    }
  }

  lemma {:induction false} LaterViolations(rule: Rules, field: string, v: Value)
    requires !(!IsOn(rule.required) && Falsy(v))
    requires forall j :: 0 <= j < 4 ==> Violation(CheckOrder[j], rule, field, v).None?
    ensures Check(rule, field, v) ==
      match FirstViolation(CheckOrder, rule, field, v)
        case None => Verdict(true, "")
        case Some(m) => Verdict(false, m)
  {
    var c := CheckOrder;
    assert Violation(c[0], rule, field, v).None? && Violation(c[1], rule, field, v).None?;
    assert Violation(c[2], rule, field, v).None? && Violation(c[3], rule, field, v).None?;
    if Violation(MaxLengthRule, rule, field, v).Some? {
      FirstViolationIsFirst(c, rule, field, v, 4);
    } else if Violation(MinLengthRule, rule, field, v).Some? {
      FirstViolationIsFirst(c, rule, field, v, 5);
    } else if Violation(PatternRule, rule, field, v).Some? {
      FirstViolationIsFirst(c, rule, field, v, 6);
    } else {
      NoViolation(c, rule, field, v);
    }
  }

  /** A declaration with no attributes accepts every value, absent ones included. */
  lemma NoRulesAcceptEverything(field: string, v: Value)
    ensures Check(NoRules, field, v) == Verdict(true, "")
  {
  }

  /**
   * Bounds are inclusive: with a non-zero `min` and `max` and no other
   * constraint, a present value passes exactly when `min <= n <= max`; above
   * `max` the max message is given, below `min` the min message.
   */
  lemma NumericBoundsInclusive(rule: Rules, field: string, v: Value, n: int)
    requires rule.email == None && rule.pattern == None
    requires rule.maxLength == None && rule.minLength == None
    requires BoundOn(rule.max) && BoundOn(rule.min) && rule.min.value <= rule.max.value
    requires NumericValue(v) == Some(n) && !Falsy(v)
    ensures Check(rule, field, v).valid <==> rule.min.value <= n <= rule.max.value
    ensures n > rule.max.value ==> Check(rule, field, v).defaultMessage == MaxMessage(field, rule.max.value)
    ensures n < rule.min.value ==> Check(rule, field, v).defaultMessage == MinMessage(field, rule.min.value)
  {
  }

  /** The same for lengths: `minLength <= v.length <= maxLength`, both ends included. */
  lemma LengthBoundsInclusive(rule: Rules, field: string, v: Value, len: nat)
    requires rule.email == None && rule.pattern == None
    requires rule.max == None && rule.min == None
    requires BoundOn(rule.maxLength) && BoundOn(rule.minLength)
    requires LengthOf(v) == Some(len) && !Falsy(v)
    ensures Check(rule, field, v).valid <==> rule.minLength.value <= len <= rule.maxLength.value
    ensures len > rule.maxLength.value ==>
      Check(rule, field, v).defaultMessage == MaxLengthMessage(field, rule.maxLength.value)
    ensures len < rule.minLength.value <= rule.maxLength.value ==>
      Check(rule, field, v).defaultMessage == MinLengthMessage(field, rule.minLength.value)
  {
  }

  /** The demo form's `age` rule (required, min 18, max 30): 17 and 31 fail, 18 and 30 pass. */
  lemma AgeRuleExamples()
    ensures !Check(NoRules.(required := Some(true), min := Some(18), max := Some(30)), "age", Int(17)).valid
    ensures Check(NoRules.(required := Some(true), min := Some(18), max := Some(30)), "age", Int(18)).valid
    ensures Check(NoRules.(required := Some(true), min := Some(18), max := Some(30)), "age", Int(30)).valid
    ensures Check(NoRules.(required := Some(true), min := Some(18), max := Some(30)), "age", Int(31)) ==
      Verdict(false, MaxMessage("age", 30))
  {
    var age := NoRules.(required := Some(true), min := Some(18), max := Some(30));
    NumericBoundsInclusive(age, "age", Int(17), 17);
    NumericBoundsInclusive(age, "age", Int(18), 18);
    NumericBoundsInclusive(age, "age", Int(30), 30);
    NumericBoundsInclusive(age, "age", Int(31), 31);
  }

  /** A `max` or `min` configured as 0 is never consulted: it behaves as if it were absent. */
  lemma ZeroBoundIgnored(rule: Rules, field: string, v: Value)
    ensures Check(rule.(max := Some(0)), field, v) == Check(rule.(max := None), field, v)
    ensures Check(rule.(min := Some(0)), field, v) == Check(rule.(min := None), field, v)
  {
  }

  /** The same for a `maxLength` or `minLength` of 0. */
  lemma ZeroLengthBoundIgnored(rule: Rules, field: string, v: Value)
    ensures Check(rule.(maxLength := Some(0)), field, v) == Check(rule.(maxLength := None), field, v)
    ensures Check(rule.(minLength := Some(0)), field, v) == Check(rule.(minLength := None), field, v)
  {
  }

  /** The e-mail expression is found inside a longer text and rejects text with a short domain. */
  lemma EmailExamples()
    ensures ContainsEmail("mail: jo@example.org, thanks")
    ensures !ContainsEmail("jo@ex.org")
  {
    assert EmailAt("mail: jo@example.org, thanks", 8, 16);
    var s := "jo@ex.org";
    forall at, dot | 0 <= at < dot < |s| ensures !EmailAt(s, at, dot) {
    }
  }

  // ---------------------------------------------------------------------
  // rebuilt: attribute-wise merge of a patch

  /** `{ ...base, ...patch }`: every attribute `patch` sets wins; the others come from `base`. */
  function MergeRules(base: Rules, patch: Rules): Rules {
    Rules(
      if patch.declaredType.Some? then patch.declaredType else base.declaredType,
      if patch.required.Some? then patch.required else base.required,
      if patch.email.Some? then patch.email else base.email,
      if patch.max.Some? then patch.max else base.max,
      if patch.min.Some? then patch.min else base.min,
      if patch.maxLength.Some? then patch.maxLength else base.maxLength,
      if patch.minLength.Some? then patch.minLength else base.minLength,
      if patch.pattern.Some? then patch.pattern else base.pattern,
      if patch.message.Some? then patch.message else base.message)
  }

  /** `this[field]`, where spreading an absent field contributes no attributes. */
  function Lookup(rules: map<string, Rules>, field: string): Rules {
    if field in rules then rules[field] else NoRules
  }

  /** The rules after `rebuilt(patch)`. */
  function Merged(rules: map<string, Rules>, patch: map<string, Rules>): (r: map<string, Rules>)
    ensures r.Keys == rules.Keys + patch.Keys
  {
    map field | field in rules.Keys + patch.Keys ::
      if field in patch then MergeRules(Lookup(rules, field), patch[field]) else rules[field]
  }

  /** Merging attributes is idempotent. */
  lemma MergeRulesIdempotent(base: Rules, patch: Rules)
    ensures MergeRules(MergeRules(base, patch), patch) == MergeRules(base, patch)
  {
  }

  /** Merging `p1` then `p2` is merging once with `p2` laid over `p1`. */
  lemma MergeRulesComposes(base: Rules, p1: Rules, p2: Rules)
    ensures MergeRules(MergeRules(base, p1), p2) == MergeRules(base, MergeRules(p1, p2))
  {
  }

  /**
   * `rebuilt` keeps fields the patch does not name, adds the fields it
   * introduces, and on a field it names overwrites exactly the attributes
   * it sets.
   */
  lemma MergedFields(rules: map<string, Rules>, patch: map<string, Rules>, field: string)
    ensures field in rules && field !in patch ==> Merged(rules, patch)[field] == rules[field]
    ensures field !in rules && field in patch ==> Merged(rules, patch)[field] == patch[field]
    ensures field in rules && field in patch ==>
      Merged(rules, patch)[field] == MergeRules(rules[field], patch[field])
    ensures field !in rules && field !in patch ==> field !in Merged(rules, patch)
  {
    if field !in rules && field in patch {
      var p := patch[field];
      assert MergeRules(NoRules, p) == p;
    }
  }

  /** Applying the same patch twice is applying it once. */
  lemma {:induction false} MergedIdempotent(rules: map<string, Rules>, patch: map<string, Rules>)
    ensures Merged(Merged(rules, patch), patch) == Merged(rules, patch)
  {
    var once := Merged(rules, patch);
    forall field | field in once
      ensures Merged(once, patch)[field] == once[field]
    {
      if field in patch {
        MergeRulesIdempotent(Lookup(rules, field), patch[field]);
      }
    }
  }

  /**
   * Rebuilding with `p1` and then `p2` equals rebuilding once with the
   * field-wise union of the two patches in which `p2` wins ties.
   */
  lemma {:induction false} MergedComposes(rules: map<string, Rules>, p1: map<string, Rules>, p2: map<string, Rules>)
    ensures Merged(Merged(rules, p1), p2) == Merged(rules, Merged(p1, p2))
  {
    var left := Merged(Merged(rules, p1), p2);
    var right := Merged(rules, Merged(p1, p2));
    forall field | field in left
      ensures right[field] == left[field]
    {
      if field in p2 && field in p1 {
        MergeRulesComposes(Lookup(rules, field), p1[field], p2[field]);
      } else if field in p2 {
        assert MergeRules(NoRules, p2[field]) == p2[field];
        assert Lookup(Merged(rules, p1), field) == Lookup(rules, field);
      }
    }
  }

  // ---------------------------------------------------------------------
  // The Schema object

  class Schema {
    /** The schema's own properties: one declaration per field. */
    var rules: map<string, Rules>

    /** Copies each field of the declaration onto the new object. */
    constructor (declaration: map<string, Rules>)
      ensures rules == declaration
    {
      rules := map[];
      new;
      var pending := declaration.Keys;
      while pending != {}
        invariant pending <= declaration.Keys
        invariant rules.Keys == declaration.Keys - pending
        invariant forall field :: field in rules ==> rules[field] == declaration[field]
        decreases pending
      {
        var field :| field in pending;
        rules := rules[field := declaration[field]];
        pending := pending - {field};
      }
    }

    /**
     * Merges `patch` into this schema in place, field by field, and returns
     * the schema itself.
     */
    method Rebuilt(patch: map<string, Rules>) returns (self: Schema)
      modifies this
      ensures self == this
      ensures rules == Merged(old(rules), patch)
    {
      var pending := patch.Keys;
      while pending != {}
        invariant pending <= patch.Keys
        invariant rules.Keys == old(rules).Keys + (patch.Keys - pending)
        invariant forall field :: field in rules ==>
          rules[field] == if field in patch && field !in pending
            then MergeRules(Lookup(old(rules), field), patch[field])
            else old(rules)[field]
        decreases pending
      {
        var field :| field in pending;
        rules := rules[field := MergeRules(Lookup(rules, field), patch[field])];
        pending := pending - {field};
      }
      self := this;
    }

    /**
     * Validates one field of `entity`: passes with the empty message, or
     * fails with the field's custom message if it has a non-empty one and
     * the rule's default message otherwise.
     */
    function ValidateField(field: string, entity: map<string, Value>): (r: FieldCheck)
      reads this
      requires field in rules
      ensures r.ok == Check(rules[field], field, Get(entity, field)).valid
      ensures r.ok <==> r.message == ""
      ensures !r.ok && rules[field].message.Some? && rules[field].message.value != "" ==>
        r.message == rules[field].message.value
      ensures !r.ok && (rules[field].message.None? || rules[field].message.value == "") ==>
        r.message == Check(rules[field], field, Get(entity, field)).defaultMessage
    {
      var verdict := Check(rules[field], field, Get(entity, field));
      FieldCheck(verdict.valid, if verdict.valid then "" else Overridden(rules[field], verdict.defaultMessage))
    }

    /**
     * What `validate(entity)` computes: every field is evaluated; `data`
     * copies each field's value, `errors` holds the message of each failing
     * field, and `ok` says that no field failed.
     */
    function Evaluation(entity: map<string, Value>): Validation
      reads this
    {
      Validation(
        forall field | field in rules :: ValidateField(field, entity).ok,
        map field | field in rules :: Get(entity, field),
        map field | field in rules && !ValidateField(field, entity).ok :: ValidateField(field, entity).message)
    }

    /** Validates every field of the schema, with no short-circuit across fields. */
    method Validate(entity: map<string, Value>) returns (result: Validation)
      ensures result == Evaluation(entity)
      ensures result.ok <==> result.errors == map[]
    {
      var ok := true;
      var data: map<string, Value> := map[];
      var errors: map<string, string> := map[];
      var pending := rules.Keys;
      while pending != {}
        invariant pending <= rules.Keys
        invariant data.Keys == rules.Keys - pending
        invariant forall field :: field in data ==> data[field] == Get(entity, field)
        invariant errors.Keys <= data.Keys
        invariant forall field :: field in data ==>
          (field in errors <==> !ValidateField(field, entity).ok)
        invariant forall field :: field in errors ==> errors[field] == ValidateField(field, entity).message
        invariant ok <==> errors == map[]
        decreases pending
      {
        var field :| field in pending;
        var verdict := Check(rules[field], field, Get(entity, field));
        ghost var expected := ValidateField(field, entity);
        assert verdict.valid == expected.ok;
        if !verdict.valid {
          assert Overridden(rules[field], verdict.defaultMessage) == expected.message;
          errors := errors[field := Overridden(rules[field], verdict.defaultMessage)];
          ok := false;
        }
        data := data[field := Get(entity, field)];
        pending := pending - {field};
      }
      result := Validation(ok, data, errors);
      EvaluationFrom(this, entity, result);
    }
  }

  /** A result keyed and filled as the loop of `validate` leaves it is the whole-entity evaluation. */
  lemma {:induction false} EvaluationFrom(s: Schema, entity: map<string, Value>, result: Validation)
    requires result.data.Keys == s.rules.Keys
    requires forall field :: field in result.data ==> result.data[field] == Get(entity, field)
    requires result.errors.Keys <= result.data.Keys
    requires forall field :: field in result.data ==>
      (field in result.errors <==> !s.ValidateField(field, entity).ok)
    requires forall field :: field in result.errors ==> result.errors[field] == s.ValidateField(field, entity).message
    requires result.ok <==> result.errors == map[]
    ensures result == s.Evaluation(entity)
  {
    var expected := s.Evaluation(entity);
    assert result.data == expected.data;
    assert result.errors == expected.errors;
    if !result.ok {
      var failing :| failing in result.errors;
      assert !s.ValidateField(failing, entity).ok;
    }
  }

  /**
   * A field's check sees only that field's value, so validating the
   * one-field slice `{[field]: value}` (what the form handlers do) agrees
   * with validating a whole entity that holds the same value.
   */
  lemma FieldCheckIsLocal(s: Schema, field: string, entity: map<string, Value>)
    requires field in s.rules
    ensures s.ValidateField(field, entity) == s.ValidateField(field, map[field := Get(entity, field)])
  {
  }

  /**
   * The whole-entity result: `data` is keyed by exactly the schema's fields,
   * `errors` by exactly the failing ones, each error is the message
   * `validateField` gives, and `ok` holds exactly when `errors` is empty.
   */
  lemma {:induction false} EvaluationShape(s: Schema, entity: map<string, Value>)
    ensures s.Evaluation(entity).data.Keys == s.rules.Keys
    ensures s.Evaluation(entity).errors.Keys ==
      set field | field in s.rules && !s.ValidateField(field, entity).ok
    ensures forall field :: field in s.Evaluation(entity).errors ==>
      s.Evaluation(entity).errors[field] != ""
    ensures s.Evaluation(entity).ok <==> s.Evaluation(entity).errors == map[]
  {
    var v := s.Evaluation(entity);
    if !v.ok {
      var failing :| failing in s.rules && !s.ValidateField(failing, entity).ok;
      assert failing in v.errors;
    }
  }
}
