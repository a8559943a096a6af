/**
 * The newer mock-data generator (dist/collections/data-generator.js). It
 * hands JSONSchemaFaker a shallow copy of the schema; for an array schema
 * the copy carries effective `minItems`/`maxItems` bounds chosen schema
 * first, then caller, then the defaults 0 and 50, floored, clamped to at
 * least 0 and with the minimum forced down to the maximum. The faker is a
 * parameter; its result is always returned as an array.
 */
module DataGenerator {

  import opened Wrappers
  import opened Json

  const DefaultMinItems: int := 0
  const DefaultMaxItems: int := 50

  /** `'type' in s && s.type === 'array'`. */
  predicate IsArraySchema(s: map<string, Json>) {
    "type" in s && s["type"] == JStr("array")
  }

  /**
   * `Math.floor` applied to a JSON value, for the values whose conversion to
   * a number is an integer: null is 0, a boolean 0 or 1, an integer itself.
   * Strings, arrays and objects are outside this model.
   */
  function NumericValue(j: Json): (r: Option<int>)
    ensures j.JNum? ==> r == Some(j.n)
    ensures j.JStr? || j.JArr? || j.JObj? ==> r.None?
  {
    match j
    case JNull => Some(0)
    case JBool(b) => Some(if b then 1 else 0)
    case JNum(n) => Some(n)
    case _ => None
  }

  /**
   * The bound one of the two keys gets before normalisation: the schema's
   * own property when present, else the caller's argument when given, else
   * the default.
   */
  function Effective(copy: map<string, Json>, key: string, param: Option<int>, default: int): (r: Option<int>)
    ensures key in copy ==> r == NumericValue(copy[key])
    ensures key !in copy ==> r == Some(param.GetOr(default))
  {
    if key in copy then NumericValue(copy[key])
    else if param.Some? then param
    else Some(default)
  }

  /** `Math.max(0, Math.floor(n))` on an integer. */
  function Normalize(n: int): (r: int)
    ensures r >= 0 && r >= n
    ensures n >= 0 ==> r == n
    ensures n < 0 ==> r == 0
  {
    if n < 0 then 0 else n
  }

  /**
   * The two effective bounds after normalisation and the fix-up: the
   * maximum is the normalised maximum, the minimum is the normalised
   * minimum unless that exceeds the maximum, in which case it is the
   * maximum. The maximum is never raised to meet the minimum.
   */
  function Bounds(lo: int, hi: int): (r: (int, int))
    ensures 0 <= r.0 <= r.1
    ensures r.1 == Normalize(hi)
    ensures Normalize(lo) <= Normalize(hi) ==> r.0 == Normalize(lo)
    ensures Normalize(lo) > Normalize(hi) ==> r.0 == r.1
  {
    var min, max := Normalize(lo), Normalize(hi);
    (if min > max then max else min, max)
  }

  /**
   * The copy after the bounds block (lines 21-41): `None` when a bound the
   * schema itself declares is not a number this model converts.
   */
  function BoundedCopy(schema: Json, minItems: Option<int>, maxItems: Option<int>): (r: Option<map<string, Json>>)
    ensures !IsArraySchema(Spread(schema)) ==> r == Some(Spread(schema))
    ensures IsArraySchema(Spread(schema)) ==>
              (r.None? <==> Effective(Spread(schema), "minItems", minItems, DefaultMinItems).None? ||
                            Effective(Spread(schema), "maxItems", maxItems, DefaultMaxItems).None?)
    ensures r.Some? && IsArraySchema(Spread(schema)) ==>
              "minItems" in r.value && "maxItems" in r.value && r.value["minItems"].JNum? && r.value["maxItems"].JNum? &&
              0 <= r.value["minItems"].n <= r.value["maxItems"].n
    ensures r.Some? ==> forall k :: k in Spread(schema) && k != "minItems" && k != "maxItems" ==>
              k in r.value && r.value[k] == Spread(schema)[k]
  {
    var copy := Spread(schema);
    if !IsArraySchema(copy) then Some(copy)
    else
      match (Effective(copy, "minItems", minItems, DefaultMinItems), Effective(copy, "maxItems", maxItems, DefaultMaxItems))
      case (Some(lo), Some(hi)) =>
        var b := Bounds(lo, hi);
        Some(copy["minItems" := JNum(b.0)]["maxItems" := JNum(b.1)])
      case _ => None
  }

  /** The extra guard (lines 48-50): for an array schema with numeric bounds in the wrong order, lower the minimum. */
  function ExtraGuard(s: map<string, Json>): (r: map<string, Json>)
    ensures r.Keys == s.Keys
    ensures forall k :: k in s && k != "minItems" ==> r[k] == s[k]
    ensures "minItems" in s && "maxItems" in s && s["minItems"].JNum? && s["maxItems"].JNum? ==>
              r["minItems"].JNum? && (IsArraySchema(s) ==> r["minItems"].n <= r["maxItems"].n) &&
              (s["minItems"].n <= s["maxItems"].n ==> r == s)
  {
    if "type" in s && s["type"] == JStr("array") && "minItems" in s && "maxItems" in s
       && s["minItems"].JNum? && s["maxItems"].JNum? && s["minItems"].n > s["maxItems"].n
    then s["minItems" := s["maxItems"]]
    else s
  }

  /** The schema copy handed to the faker: the extra guard never changes what the bounds block produced. */
  function ResolverInput(schema: Json, minItems: Option<int>, maxItems: Option<int>): (r: Option<map<string, Json>>)
    ensures r == BoundedCopy(schema, minItems, maxItems)
  {
    match BoundedCopy(schema, minItems, maxItems)
    case Some(s) =>
      ExtraGuardIsNoOp(schema, minItems, maxItems);
      Some(ExtraGuard(s))
    case None => None
  }

  /** `Array.isArray(x) ? x : [x]`. */
  function Wrap(generated: Json): (r: seq<Json>)
    ensures generated.JArr? ==> r == generated.items
    ensures !generated.JArr? ==> r == [generated]
  {
    if generated.JArr? then generated.items else [generated]
  }

  /**
   * generate(schema, minItems, maxItems), with the faker as the parameter
   * `resolve` (`None` is a rejected promise): no result without a schema
   * copy or when the faker rejects; otherwise always a list, the faker's
   * own list or its single value wrapped.
   */
  function Generate(schema: Json, minItems: Option<int>, maxItems: Option<int>, resolve: Json -> Option<Json>): (r: Option<seq<Json>>)
    ensures ResolverInput(schema, minItems, maxItems).None? ==> r.None?
    ensures ResolverInput(schema, minItems, maxItems).Some? ==>
              var g := resolve(JObj(ResolverInput(schema, minItems, maxItems).value));
              (g.None? <==> r.None?) &&
              (g.Some? && g.value.JArr? ==> r == Some(g.value.items)) &&
              (g.Some? && !g.value.JArr? ==> r == Some([g.value]))
  {
    match ResolverInput(schema, minItems, maxItems)
    case Some(s) =>
      (match resolve(JObj(s))
       case Some(g) => Some(Wrap(g))
       case None => None)
    case None => None
  }

  // ---------------------------------------------------------------------
  // Properties

  /** A schema that is not an array schema reaches the faker as an unchanged copy. */
  lemma NonArraySchemaUnchanged(schema: Json, minItems: Option<int>, maxItems: Option<int>)
    requires !IsArraySchema(Spread(schema))
    ensures ResolverInput(schema, minItems, maxItems) == Some(Spread(schema))
  {
    assert ExtraGuard(Spread(schema)) == Spread(schema);
  }

  /**
   * For an array schema whose bounds are numbers, the copy keeps every other
   * property of the schema and carries the bounds chosen by precedence and
   * fixed up by Bounds.
   */
  lemma ArraySchemaBounds(schema: Json, minItems: Option<int>, maxItems: Option<int>, lo: int, hi: int)
    requires IsArraySchema(Spread(schema))
    requires Effective(Spread(schema), "minItems", minItems, DefaultMinItems) == Some(lo)
    requires Effective(Spread(schema), "maxItems", maxItems, DefaultMaxItems) == Some(hi)
    ensures ResolverInput(schema, minItems, maxItems).Some?
    ensures var s := ResolverInput(schema, minItems, maxItems).value;
            s.Keys == Spread(schema).Keys + {"minItems", "maxItems"} &&
            (forall k :: k in Spread(schema) && k != "minItems" && k != "maxItems" ==> s[k] == Spread(schema)[k]) &&
            s["minItems"] == JNum(Bounds(lo, hi).0) && s["maxItems"] == JNum(Bounds(lo, hi).1)
  {
    var copy := Spread(schema);
    var b := Bounds(lo, hi);
    var s := copy["minItems" := JNum(b.0)]["maxItems" := JNum(b.1)];
    assert BoundedCopy(schema, minItems, maxItems) == Some(s);
    assert ExtraGuard(s) == s;
  }

  /** Every bound the faker receives satisfies 0 <= minItems <= maxItems. */
  lemma BoundsAreOrdered(schema: Json, minItems: Option<int>, maxItems: Option<int>)
    requires ResolverInput(schema, minItems, maxItems).Some?
    requires IsArraySchema(Spread(schema))
    ensures var s := ResolverInput(schema, minItems, maxItems).value;
            "minItems" in s && "maxItems" in s && s["minItems"].JNum? && s["maxItems"].JNum? &&
            0 <= s["minItems"].n <= s["maxItems"].n
  {
    var copy := Spread(schema);
    var lo := Effective(copy, "minItems", minItems, DefaultMinItems).value;
    var hi := Effective(copy, "maxItems", maxItems, DefaultMaxItems).value;
    ArraySchemaBounds(schema, minItems, maxItems, lo, hi);
  }

  /**
   * Without bounds in the schema or from the caller the faker receives the
   * defaults 0 and 50; caller bounds in the right order pass unchanged.
   */
  lemma CallerBoundsUsed(schema: Json, minItems: Option<int>, maxItems: Option<int>)
    requires IsArraySchema(Spread(schema))
    requires "minItems" !in Spread(schema) && "maxItems" !in Spread(schema)
    requires 0 <= minItems.GetOr(DefaultMinItems) <= maxItems.GetOr(DefaultMaxItems)
    ensures var s := ResolverInput(schema, minItems, maxItems).value;
            s["minItems"] == JNum(minItems.GetOr(DefaultMinItems)) &&
            s["maxItems"] == JNum(maxItems.GetOr(DefaultMaxItems))
  {
    ArraySchemaBounds(schema, minItems, maxItems, minItems.GetOr(DefaultMinItems), maxItems.GetOr(DefaultMaxItems));
  }

  /** The schema's own bounds beat the caller's. */
  lemma SchemaBoundsWin(schema: Json, minItems: Option<int>, maxItems: Option<int>, lo: int, hi: int)
    requires IsArraySchema(Spread(schema))
    requires "minItems" in Spread(schema) && Spread(schema)["minItems"] == JNum(lo)
    requires "maxItems" in Spread(schema) && Spread(schema)["maxItems"] == JNum(hi)
    requires 0 <= lo <= hi
    ensures ResolverInput(schema, minItems, maxItems) == Some(Spread(schema))
  {
    ArraySchemaBounds(schema, minItems, maxItems, lo, hi);
    var s := ResolverInput(schema, minItems, maxItems).value;
    assert s == Spread(schema);
  }

  /** Normalisation and the fix-up are idempotent. */
  lemma BoundsIdempotent(lo: int, hi: int)
    ensures var b := Bounds(lo, hi); Bounds(b.0, b.1) == b
  {
  }

  /** The extra guard changes nothing in a copy the bounds block produced. */
  lemma ExtraGuardIsNoOp(schema: Json, minItems: Option<int>, maxItems: Option<int>)
    requires BoundedCopy(schema, minItems, maxItems).Some?
    ensures ExtraGuard(BoundedCopy(schema, minItems, maxItems).value) == BoundedCopy(schema, minItems, maxItems).value
  {
    var copy := Spread(schema);
    if IsArraySchema(copy) {
      var lo := Effective(copy, "minItems", minItems, DefaultMinItems).value;
      var hi := Effective(copy, "maxItems", maxItems, DefaultMaxItems).value;
      var b := Bounds(lo, hi);
      assert BoundedCopy(schema, minItems, maxItems).value == copy["minItems" := JNum(b.0)]["maxItems" := JNum(b.1)];
    }
  }
}
