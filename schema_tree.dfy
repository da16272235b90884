/** The schema object a caller hands to the helpers: field name to the
    description of that field. */
module SchemaTree {
  import opened JsValues

  /** One field's description, with the properties the helpers read. */
  datatype FieldSchema = FieldSchema(
    attributeType: Option<string>,  // `AttributeType`, a tag such as "S"
    keyType: Option<string>,        // `KeyType`, "HASH" or "RANGE" for a key field
    lowerKeyType: Option<string>,   // `keyType`, which the table definition reads
    nested: Option<Schema>)         // `Schema`, the description of a map's fields

  /** A schema object; its fields in `for...in` order. */
  datatype Schema = Schema(fields: seq<(string, FieldSchema)>)

  /** `schema[key]`; a description is an object, so a present one is truthy. */
  function Lookup(schema: Schema, key: string): (r: Option<FieldSchema>)
    ensures r.Some? ==> r.value < schema
    ensures r == Get(schema.fields, key)
  {
    var r := Get(schema.fields, key);
    if r.Some? then GetFound(schema.fields, key); r else r
  }

  /** The tag a field's description carries; `undefined` when it has none,
      which is also the property name an object literal then uses. */
  function TagKey(f: FieldSchema): string {
    match f.attributeType
    case Some(t) => t
    case None => "undefined"
  }
}
