/**
 * JSON values as JSON.parse produces them, with the two JavaScript behaviours
 * the core relies on: truthiness, and the own enumerable properties that an
 * object spread `{ ...v }` copies.
 */
module Json {

  import opened Text

  /** Numbers are integers; fractional numbers are not part of this model. */
  datatype Json =
    | JNull
    | JBool(b: bool)
    | JNum(n: int)
    | JStr(s: string)
    | JArr(items: seq<Json>)
    | JObj(fields: map<string, Json>)

  /** JavaScript truthiness of a JSON value. */
  predicate Truthy(j: Json) {
    match j
    case JNull => false
    case JBool(b) => b
    case JNum(n) => n != 0
    case JStr(s) => s != ""
    case JArr(_) => true
    case JObj(_) => true
  }

  /** The properties `{ ...items }` copies from an array: one per index, keyed by its decimal string. */
  function IndexEntries(items: seq<Json>): (m: map<string, Json>)
    ensures forall i :: 0 <= i < |items| ==> NatToString(i) in m
    decreases |items|
  {
    if items == [] then map[]
    else IndexEntries(items[..|items| - 1])[NatToString(|items| - 1) := items[|items| - 1]]
  }

  /** The properties `{ ...s }` copies from a string: one single-character string per index. */
  function CharEntries(s: string): (m: map<string, Json>)
    ensures forall i :: 0 <= i < |s| ==> NatToString(i) in m
    decreases |s|
  {
    if s == [] then map[]
    else CharEntries(s[..|s| - 1])[NatToString(|s| - 1) := JStr([s[|s| - 1]])]
  }

  /**
   * The own enumerable properties that an object spread copies from `j`:
   * all fields of an object, the indices of an array or string, and nothing
   * from null, a boolean or a number.
   */
  function Spread(j: Json): (m: map<string, Json>)
    ensures j.JObj? ==> m == j.fields
    ensures j.JNull? || j.JBool? || j.JNum? ==> m == map[]
  {
    match j
    case JObj(fields) => fields
    case JArr(items) => IndexEntries(items)
    case JStr(s) => CharEntries(s)
    case _ => map[]
  }

  /** Every key an object spread copies from a non-object is a decimal index. */
  lemma {:induction false} SpreadOfNonObjectHasOnlyIndexKeys(j: Json, k: string)
    requires !j.JObj?
    ensures k in Spread(j) ==> |k| > 0 && forall i :: 0 <= i < |k| ==> '0' <= k[i] <= '9'
  {
    if k in Spread(j) {
      match j
      case JArr(items) => IndexKeysAreDigits(items, k);
      case JStr(s) => CharKeysAreDigits(s, k);
    }
  }

  lemma {:induction false} IndexKeysAreDigits(items: seq<Json>, k: string)
    requires k in IndexEntries(items)
    ensures |k| > 0 && forall i :: 0 <= i < |k| ==> '0' <= k[i] <= '9'
    decreases |items|
  {
    if k != NatToString(|items| - 1) {
      IndexKeysAreDigits(items[..|items| - 1], k);
    }
  }

  lemma {:induction false} CharKeysAreDigits(s: string, k: string)
    requires k in CharEntries(s)
    ensures |k| > 0 && forall i :: 0 <= i < |k| ==> '0' <= k[i] <= '9'
    decreases |s|
  {
    if k != NatToString(|s| - 1) {
      CharKeysAreDigits(s[..|s| - 1], k);
    }
  }
}
