/**
 * The JavaScript values a form field holds, reduced to a tagged domain, and the
 * few JavaScript coercions the validation rules depend on: truthiness,
 * conversion to text (template literals, `RegExp.prototype.test`), conversion
 * to a number (the relational operators `<` and `>`) and `.length`.
 */
module JsValues {

  datatype Option<+T> = None | Some(value: T)

  /** A field value. `Null` stands for `null`, `undefined` and a missing property alike. */
  datatype Value =
    | Str(s: string)
    | Int(n: int)
    | Bool(b: bool)
    | List(items: seq<Value>)
    | Null

  /** JavaScript's falsy values within this domain; an array is always truthy, even when empty. */
  predicate Falsy(v: Value) {
    match v
    case Str(s) => s == ""
    case Int(n) => n == 0
    case Bool(b) => !b
    case List(_) => false
    case Null => true
  }

  /** `entity[key]`: a missing property reads as undefined. */
  function Get(entity: map<string, Value>, key: string): Value {
    if key in entity then entity[key] else Null
  }

  predicate IsDigit(c: char) {
    '0' <= c <= '9'
  }

  function DigitChar(d: nat): (c: char)
    requires d < 10
    ensures IsDigit(c) && c as int - '0' as int == d
  {
    "0123456789"[d]
  }

  /** Decimal digits of a natural number, most significant first, without leading zeros. */
  function NatToString(n: nat): (s: string)
    ensures |s| >= 1 && forall i :: 0 <= i < |s| ==> IsDigit(s[i])
  {
    if n < 10 then [DigitChar(n)] else NatToString(n / 10) + [DigitChar(n % 10)]
  }

  /** `String(n)` for an integer-valued number. */
  function IntToString(n: int): string {
    if n < 0 then "-" + NatToString(-n) else NatToString(n)
  }

  /** `parts.join(",")`. */
  function Join(parts: seq<string>): string {
    if |parts| == 0 then ""
    else if |parts| == 1 then parts[0]
    else parts[0] + "," + Join(parts[1..])
  }

  /**
   * `String(v)`. An array prints as its elements joined by commas, a null or
   * undefined element printing as the empty string. A falsy value never
   * reaches the rules that convert to text, so the text of `Null` is only a
   * placeholder.
   */
  function ToText(v: Value): string
    decreases v
  {
    match v
    case Str(s) => s
    case Int(n) => IntToString(n)
    case Bool(b) => if b then "true" else "false"
    case Null => "null"
    case List(items) =>
      Join(seq(|items|, i requires 0 <= i < |items| =>
        if items[i].Null? then "" else ToText(items[i])))
  }

  predicate AllDigits(s: string) {
    forall i :: 0 <= i < |s| ==> IsDigit(s[i])
  }

  /** The value of a string of decimal digits. */
  function DigitsValue(s: string): nat
    requires AllDigits(s)
  {
    if s == [] then 0 else DigitsValue(s[..|s| - 1]) * 10 + (s[|s| - 1] as int - '0' as int)
  }

  /**
   * `Number(s)` for the strings this model gives a number: the empty string
   * is 0 and an optionally signed run of decimal digits is its value. Every
   * other string is treated as NaN (`None`).
   */
  function StrNumber(s: string): Option<int> {
    if s == "" then Some(0)
    else if (s[0] == '-' || s[0] == '+') && |s| > 1 && AllDigits(s[1..]) then
      Some(if s[0] == '-' then -(DigitsValue(s[1..]) as int) else DigitsValue(s[1..]) as int)
    else if AllDigits(s) then Some(DigitsValue(s))
    else None
  }

  /**
   * The number a relational comparison with a number converts `v` to, or
   * `None` for NaN (against which every comparison is false).
   */
  function NumericValue(v: Value): Option<int> {
    match v
    case Int(n) => Some(n)
    case Bool(b) => Some(if b then 1 else 0)
    case Str(s) => StrNumber(s)
    case List(_) => StrNumber(ToText(v))
    case Null => None
  }

  /** `v.length`: defined for strings and arrays; `undefined` (`None`) otherwise. */
  function LengthOf(v: Value): Option<nat> {
    match v
    case Str(s) => Some(|s|)
    case List(items) => Some(|items|)
    case _ => None
  }

  /**
   * `r` is `{ ...base, ...patch }` spelled out key by key: it has the keys of
   * both, a key of `patch` takes the patch's entry, and every other key keeps
   * the base's entry.
   */
  ghost predicate IsSpread<K, V>(r: map<K, V>, base: map<K, V>, patch: map<K, V>) {
    && r.Keys == base.Keys + patch.Keys
    && forall k :: k in r ==> r[k] == if k in patch then patch[k] else base[k]
  }

  /** `{ ...m, [k]: v }` is `m` with `k` set to `v`. */
  lemma SpreadOne<K, V>(m: map<K, V>, k: K, v: V)
    ensures m + map[k := v] == m[k := v]
  {
  }

  /** `Number(String(n)) == n`: the text of an integer reads back as that integer. */
  lemma {:induction false} IntTextReadsBack(n: int)
    ensures StrNumber(IntToString(n)) == Some(n)
  {
    var digits := NatToString(if n < 0 then -n else n);
    NatTextValue(if n < 0 then -n else n);
    if n < 0 {
      assert IntToString(n) == "-" + digits;
      assert ("-" + digits)[1..] == digits;
    }
  }

  lemma {:induction false} NatTextValue(n: nat)
    ensures AllDigits(NatToString(n)) && DigitsValue(NatToString(n)) == n
  {
    var s := NatToString(n);
    if n >= 10 {
      NatTextValue(n / 10);
      assert s[..|s| - 1] == NatToString(n / 10);
    }
  }
}
