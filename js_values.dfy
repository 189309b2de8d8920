/**
 * JavaScript values as the dashboard handles them: JSON documents sent to and
 * received from the backend, truthiness, and the `a || b || c` fallback chains
 * that resolve a field from an ordered list of aliases.
 */
module JsValues {
  import opened Wrappers

  /** A JSON value (numbers are restricted to integers). */
  datatype Json =
    | JNull
    | JBool(b: bool)
    | JNum(n: int)
    | JStr(s: string)
    | JArr(items: seq<Json>)
    | JObj(fields: map<string, Json>)

  /** A JSON object body, as built by the request helpers. */
  type JsonObject = map<string, Json>

  /** JavaScript truthiness: null, false, 0 and "" are falsy; arrays and objects are truthy even when empty. */
  predicate Truthy(v: Json) {
    match v
    case JNull => false
    case JBool(b) => b
    case JNum(n) => n != 0
    case JStr(s) => s != ""
    case JArr(_) => true
    case JObj(_) => true
  }

  /** Truthiness of a property that may be `undefined`. */
  predicate TruthyProp(v: Option<Json>) {
    v.Some? && Truthy(v.value)
  }

  /** Truthiness of a string-valued property that may be `undefined`. */
  predicate Present(s: Option<string>) {
    s.Some? && s.value != ""
  }

  /** Property access `o.k`: `undefined` unless `o` is an object that has key `k`. */
  function Prop(o: Json, k: string): (r: Option<Json>)
    ensures r.Some? <==> o.JObj? && k in o.fields
    ensures r.Some? ==> r.value == o.fields[k]
  {
    if o.JObj? && k in o.fields then Some(o.fields[k]) else None
  }

  /** The alternative at index `i` is defined and truthy. */
  predicate HoldsAt<T>(alts: seq<Option<T>>, truthy: T -> bool, i: int)
    requires 0 <= i < |alts|
  {
    alts[i].Some? && truthy(alts[i].value)
  }

  /**
   * The operand a chain `alts[0] || alts[1] || ...` stops at: the first
   * alternative that is defined and truthy, or `None` when there is none.
   */
  function FirstTruthy<T>(alts: seq<Option<T>>, truthy: T -> bool): (r: Option<T>)
    ensures r.None? <==> forall i :: 0 <= i < |alts| ==> !HoldsAt(alts, truthy, i)
    ensures r.Some? ==> truthy(r.value)
    ensures forall k :: 0 <= k < |alts| && HoldsAt(alts, truthy, k) && (forall j :: 0 <= j < k ==> !HoldsAt(alts, truthy, j))
                        ==> r == alts[k]
  {
    FirstTruthyFrom(alts, truthy, 0)
  }

  /** The scan behind `FirstTruthy`, starting at index `n`. */
  function FirstTruthyFrom<T>(alts: seq<Option<T>>, truthy: T -> bool, n: nat): (r: Option<T>)
    requires n <= |alts|
    ensures r.None? <==> forall i :: n <= i < |alts| ==> !HoldsAt(alts, truthy, i)
    ensures r.Some? ==> truthy(r.value)
    ensures forall k :: n <= k < |alts| && HoldsAt(alts, truthy, k) && (forall j :: n <= j < k ==> !HoldsAt(alts, truthy, j))
                        ==> r == alts[k]
    decreases |alts| - n
  {
    if n == |alts| then None
    else if HoldsAt(alts, truthy, n) then alts[n]
    else FirstTruthyFrom(alts, truthy, n + 1)
  }

  predicate NonEmpty(s: string) { s != "" }

  /** `alts[0] || ... || alts[n-1] || default` over string-valued properties. */
  function Or(alts: seq<Option<string>>, default: string): string {
    FirstTruthy(alts, NonEmpty).GetOr(default)
  }

  /** A fallback chain ending in a non-empty literal never yields an empty string. */
  lemma OrNonEmpty(alts: seq<Option<string>>, default: string)
    requires default != ""
    ensures Or(alts, default) != ""
  {
  }

  /** The chain yields the first truthy alias, and the default only when every alias is falsy. */
  lemma OrFirstPresent(alts: seq<Option<string>>, default: string, k: nat)
    requires k < |alts| && Present(alts[k])
    requires forall j :: 0 <= j < k ==> !Present(alts[j])
    ensures Or(alts, default) == alts[k].value
  {
    assert HoldsAt(alts, NonEmpty, k);
  }

  lemma OrAllAbsent(alts: seq<Option<string>>, default: string)
    requires forall j :: 0 <= j < |alts| ==> !Present(alts[j])
    ensures Or(alts, default) == default
  {
    assert forall j :: 0 <= j < |alts| ==> !HoldsAt(alts, NonEmpty, j);
  }
}
