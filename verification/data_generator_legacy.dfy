/**
 * The older mock-data generator (src/collections/data-generator.ts), the one
 * the collection loader calls: for an array schema both bounds of the copy
 * are set to one item count, 50 unless the caller gives another.
 */
module DataGeneratorLegacy {

  import opened Wrappers
  import opened Json
  import DataGenerator

  /** DEFAULT_ITEM_COUNT. */
  const DefaultItemCount: int := 50

  /** The schema copy handed to the faker: `{ ...schema }`, plus both bounds set to `count` for an array schema. */
  function ResolverInput(schema: Json, count: int := DefaultItemCount): (r: map<string, Json>)
    ensures DataGenerator.IsArraySchema(Spread(schema)) ==>
              r.Keys == Spread(schema).Keys + {"minItems", "maxItems"} &&
              r["minItems"] == JNum(count) && r["maxItems"] == JNum(count) &&
              forall k :: k in Spread(schema) && k != "minItems" && k != "maxItems" ==> r[k] == Spread(schema)[k]
    ensures !DataGenerator.IsArraySchema(Spread(schema)) ==> r == Spread(schema)
  {
    var copy := Spread(schema);
    if DataGenerator.IsArraySchema(copy) then copy["minItems" := JNum(count)]["maxItems" := JNum(count)]
    else copy
  }

  /**
   * generate(schema, count = 50), with the faker as the parameter `resolve`;
   * `None` from the faker is a rejected promise, which `generate` passes on.
   * Otherwise the result is a list: the faker's list itself, or its single
   * value wrapped.
   */
  function Generate(schema: Json, resolve: Json -> Option<Json>, count: int := DefaultItemCount): (r: Option<seq<Json>>)
    ensures var g := resolve(JObj(ResolverInput(schema, count)));
            (g.None? <==> r.None?) &&
            (g.Some? && g.value.JArr? ==> r == Some(g.value.items)) &&
            (g.Some? && !g.value.JArr? ==> r == Some([g.value]))
  {
    match resolve(JObj(ResolverInput(schema, count)))
    case Some(g) => Some(DataGenerator.Wrap(g))
    case None => None
  }

  // ---------------------------------------------------------------------
  // Relation to the newer generator

  /**
   * For an array schema without bounds of its own, a non-negative count
   * gives the faker the same copy as the newer generator called with that
   * count as both bounds.
   */
  lemma AgreesWithNewerOnUnboundedSchema(schema: Json, count: int)
    requires DataGenerator.IsArraySchema(Spread(schema))
    requires "minItems" !in Spread(schema) && "maxItems" !in Spread(schema)
    requires count >= 0
    ensures DataGenerator.ResolverInput(schema, Some(count), Some(count)) == Some(ResolverInput(schema, count))
  {
    DataGenerator.ArraySchemaBounds(schema, Some(count), Some(count), count, count);
    var s := DataGenerator.ResolverInput(schema, Some(count), Some(count)).value;
    assert s == ResolverInput(schema, count);
  }

  /** Both generators hand a non-array schema over as an unchanged copy. */
  lemma AgreesWithNewerOnNonArraySchema(schema: Json, count: int, minItems: Option<int>, maxItems: Option<int>)
    requires !DataGenerator.IsArraySchema(Spread(schema))
    ensures DataGenerator.ResolverInput(schema, minItems, maxItems) == Some(ResolverInput(schema, count))
  {
    DataGenerator.NonArraySchemaUnchanged(schema, minItems, maxItems);
  }

  /**
   * Where they differ: the older generator overwrites the schema's own
   * bounds with the count and passes a negative count through, while the
   * newer one keeps the schema's bounds and clamps at 0.
   */
  lemma DiffersFromNewer(schema: Json, count: int)
    requires DataGenerator.IsArraySchema(Spread(schema))
    requires "minItems" in Spread(schema) && Spread(schema)["minItems"] == JNum(count + 1)
    requires "maxItems" in Spread(schema) && Spread(schema)["maxItems"] == JNum(count + 1)
    requires count >= 0
    ensures ResolverInput(schema, count)["minItems"] == JNum(count)
    ensures DataGenerator.ResolverInput(schema, Some(count), Some(count)).value["minItems"] == JNum(count + 1)
  {
    DataGenerator.SchemaBoundsWin(schema, Some(count), Some(count), count + 1, count + 1);
  }

  /** A negative count reaches the faker unchanged in the older generator, but as 0 in the newer one. */
  lemma NegativeCountNotClamped(schema: Json, count: int)
    requires DataGenerator.IsArraySchema(Spread(schema))
    requires "minItems" !in Spread(schema) && "maxItems" !in Spread(schema)
    requires count < 0
    ensures ResolverInput(schema, count)["maxItems"] == JNum(count)
    ensures DataGenerator.ResolverInput(schema, Some(count), Some(count)).value["maxItems"] == JNum(0)
  {
    DataGenerator.ArraySchemaBounds(schema, Some(count), Some(count), count, count);
  }
}
