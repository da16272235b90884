/** interface/Schema.js: a table's binding of name, field schema, billing
    mode and provisioned throughput, and the key schema and attribute
    definitions that table creation derives from the field schema. */
module TableSchema {
  import opened JsValues
  import opened SchemaTree
  import C = Constants

  // ===== Billing =====

  /** The throughput the constructor takes when none is given. */
  const DefaultThroughput: Value := Obj([("readCapacity", Num(0)), ("writeCapacity", Num(0))])

  /** `Billing mode must be ${Object.values(BILLING_MODE)}`: the array of
      names prints joined by commas. */
  const InvalidBillingMode := Thrown("Billing mode must be PAY_PER_REQUEST,PROVISIONED")

  /** The message for a provisioned table without both capacities. */
  const MissingCapacity := Thrown("REQUIRED READ OR WRITE Capacity for billing mode PROVISIONED")

  /** Neither "a capacity is absent" nor "it is exactly 0": `name in t` and
      `t[name] !== 0`, or the TypeError `in` throws on a non-object. */
  function CapacitySet(t: Value, name: string): Result<bool> {
    var present :- HasProperty(t, name);
    Ok(present && GetProperty(t, name) != Ok(Num(0)))
  }

  /** The billing mode and throughput the constructor stores, or what it
      throws. Undefined arguments take the defaults. */
  function ResolveBilling(billingMode: Value, provisionedThroughput: Value): Result<(string, Value)> {
    var mode := if billingMode.Undefined? then Str(C.BillingModeName(C.PAY_REQUEST)) else billingMode;
    var throughput := if provisionedThroughput.Undefined? then DefaultThroughput else provisionedThroughput;
    if mode != Str("PAY_PER_REQUEST") && mode != Str("PROVISIONED") then Err(InvalidBillingMode)
    else if mode == Str("PROVISIONED") then
      var read :- CapacitySet(throughput, "readCapacity");
      if !read then Err(MissingCapacity)
      else
        var write :- CapacitySet(throughput, "writeCapacity");
        if !write then Err(MissingCapacity)
        else Ok(("PROVISIONED", throughput))
    else Ok(("PAY_PER_REQUEST", Obj([])))
  }

  /** A throughput object a provisioned table accepts: both capacities are
      present and neither is exactly 0; any other value, negatives
      included, is accepted. */
  predicate CapacitiesGiven(t: Value) {
    t.Obj? &&
    Get(t.fields, "readCapacity").Some? && Get(t.fields, "readCapacity") != Some(Num(0)) &&
    Get(t.fields, "writeCapacity").Some? && Get(t.fields, "writeCapacity") != Some(Num(0))
  }

  /** The invariant of a constructed table binding. */
  predicate BillingConsistent(billingMode: string, provisionedThroughput: Value) {
    && billingMode in C.BillingModeNames
    && (billingMode == "PAY_PER_REQUEST" ==> provisionedThroughput == Obj([]))
    && (billingMode == "PROVISIONED" ==> CapacitiesGiven(provisionedThroughput))
  }

  /** The constructor throws "Billing mode must be ..." exactly when the
      mode (after its default) is neither name; pay-per-request then always
      succeeds, with an empty throughput. */
  lemma BillingModeChecked(billingMode: Value, provisionedThroughput: Value)
    ensures ResolveBilling(billingMode, provisionedThroughput) == Err(InvalidBillingMode) <==>
              !billingMode.Undefined? && billingMode != Str("PAY_PER_REQUEST") && billingMode != Str("PROVISIONED")
    ensures billingMode.Undefined? || billingMode == Str("PAY_PER_REQUEST") ==>
              ResolveBilling(billingMode, provisionedThroughput) == Ok(("PAY_PER_REQUEST", Obj([])))
  {
    assert C.BillingModeName(C.PAY_REQUEST) == "PAY_PER_REQUEST";
    assert |MissingCapacity.message| != |InvalidBillingMode.message|;
  }

  /** For a provisioned table with an object throughput, the constructor
      succeeds exactly when both capacities are given, and then stores the
      throughput unchanged; otherwise it throws the missing-capacity error. */
  lemma ProvisionedObject(provisionedThroughput: Value)
    requires provisionedThroughput.Obj?
    ensures var r := ResolveBilling(Str("PROVISIONED"), provisionedThroughput);
            && (r.Ok? <==> CapacitiesGiven(provisionedThroughput))
            && (r.Ok? ==> r.value == ("PROVISIONED", provisionedThroughput))
            && (r.Err? ==> r.error == MissingCapacity)
  {
  }

  /** The default throughput has both capacities 0, so a provisioned table
      needs an explicit throughput. */
  lemma ProvisionedNeedsThroughput()
    ensures ResolveBilling(Str("PROVISIONED"), Undefined) == Err(MissingCapacity)
  {
    assert Get(DefaultThroughput.fields, "readCapacity") == Some(Num(0));
  }

  /** A throughput that is not an object makes a provisioned table throw
      the TypeError of `in`, and an array (which has no capacities) the
      missing-capacity error. */
  lemma ProvisionedNonObject(provisionedThroughput: Value)
    requires !provisionedThroughput.Obj? && !provisionedThroughput.Undefined?
    ensures var r := ResolveBilling(Str("PROVISIONED"), provisionedThroughput);
            && r.Err?
            && (provisionedThroughput.Arr? <==> r.error == MissingCapacity)
            && (!provisionedThroughput.Arr? ==> r.error.TypeError?)
  {
    if provisionedThroughput.Arr? {
      var name := "readCapacity";
      assert name != "length";
      assert !AllDigits(name) by { assert !IsDigit(name[0]); }
    }
  }

  /** Whatever the constructor stores keeps the binding's invariant. */
  lemma ResolveBillingConsistent(billingMode: Value, provisionedThroughput: Value)
    requires ResolveBilling(billingMode, provisionedThroughput).Ok?
    ensures var r := ResolveBilling(billingMode, provisionedThroughput).value;
            BillingConsistent(r.0, r.1)
  {
  }

  // ===== The table binding =====

  /** What `new Schema(name, schema, billingMode, provisionedThroughput)`
      builds. */
  class Table {
    var schemaName: Value
    var schema: Schema
    var billingMode: string
    var provisionedThroughput: Value

    predicate Valid()
      reads this
    {
      BillingConsistent(billingMode, provisionedThroughput)
    }

    constructor (name: Value, schema: Schema, billingMode: string, provisionedThroughput: Value)
      requires BillingConsistent(billingMode, provisionedThroughput)
      ensures Valid()
      ensures this.schemaName == name && this.schema == schema
      ensures this.billingMode == billingMode && this.provisionedThroughput == provisionedThroughput
    {
      this.schemaName := name;
      this.schema := schema;
      this.billingMode := billingMode;
      this.provisionedThroughput := provisionedThroughput;
    }
  }

  /** interface/Schema.js's constructor: the name and field schema are stored
      as given, the billing mode and throughput after their checks. */
  method NewTable(name: Value, schema: Schema, billingMode: Value, provisionedThroughput: Value)
    returns (r: Result<Table>)
    ensures r.Ok? <==> ResolveBilling(billingMode, provisionedThroughput).Ok?
    ensures r.Err? ==> r.error == ResolveBilling(billingMode, provisionedThroughput).error
    ensures r.Ok? ==> fresh(r.value) && r.value.Valid()
    ensures r.Ok? ==> r.value.schemaName == name && r.value.schema == schema
    ensures r.Ok? ==> (r.value.billingMode, r.value.provisionedThroughput) ==
                        ResolveBilling(billingMode, provisionedThroughput).value
  {
    var resolved := ResolveBilling(billingMode, provisionedThroughput);
    if resolved.Err? {
      return Err(resolved.error);
    }
    ResolveBillingConsistent(billingMode, provisionedThroughput);
    var t := new Table(name, schema, resolved.value.0, resolved.value.1);
    return Ok(t);
  }

  // ===== Table definitions =====

  /** `{ AttributeName, KeyType }`; the key type is read from the field's
      lower-case `keyType`, so it is undefined (None) unless the schema
      carries one. */
  datatype KeySchemaElement = KeySchemaElement(attributeName: string, keyType: Option<string>)

  /** `{ AttributeName, AttributeType }`. */
  datatype AttributeDefinition = AttributeDefinition(attributeName: string, attributeType: Option<string>)

  /** The field's `KeyType` is present and names a hash or range key. */
  predicate IsKeyField(f: FieldSchema) {
    f.keyType.Some? &&
    (f.keyType.value == C.KeyTypeName(C.PRIMARY_KEY) || f.keyType.value == C.KeyTypeName(C.RANGE))
  }

  /** KeySchema after the loop has visited `fields`. */
  function KeySchemaOf(fields: seq<(string, FieldSchema)>): (r: seq<KeySchemaElement>)
    ensures |r| <= |fields|
  {
    if fields == [] then []
    else
      var last := fields[|fields| - 1];
      KeySchemaOf(fields[..|fields| - 1]) +
        (if IsKeyField(last.1) then [KeySchemaElement(last.0, last.1.lowerKeyType)] else [])
  }

  /** AttributeDefinitions after the loop has visited `fields`: one per
      field, in order, with its `AttributeType`. */
  function AttributeDefinitionsOf(fields: seq<(string, FieldSchema)>): (r: seq<AttributeDefinition>)
    ensures |r| == |fields|
    ensures forall i :: 0 <= i < |fields| ==>
              r[i] == AttributeDefinition(fields[i].0, fields[i].1.attributeType)
  {
    if fields == [] then []
    else
      var last := fields[|fields| - 1];
      AttributeDefinitionsOf(fields[..|fields| - 1]) + [AttributeDefinition(last.0, last.1.attributeType)]
  }

  /** The KeySchema and AttributeDefinitions loop of interface/Schema.js's
      CreateTable, over a field schema. */
  method DeriveTableDefinitions(schema: Schema)
    returns (keySchema: seq<KeySchemaElement>, attributeDefinitions: seq<AttributeDefinition>)
    ensures keySchema == KeySchemaOf(schema.fields)
    ensures attributeDefinitions == AttributeDefinitionsOf(schema.fields)
  {
    keySchema, attributeDefinitions := [], [];
    var i := 0;
    while i < |schema.fields|
      invariant 0 <= i <= |schema.fields|
      invariant keySchema == KeySchemaOf(schema.fields[..i])
      invariant attributeDefinitions == AttributeDefinitionsOf(schema.fields[..i])
    {
      var (key, field) := schema.fields[i];
      assert schema.fields[..i + 1][..i] == schema.fields[..i];
      if field.keyType.Some? && (field.keyType.value == "HASH" || field.keyType.value == "RANGE") {
        keySchema := keySchema + [KeySchemaElement(key, field.lowerKeyType)];
      }
      attributeDefinitions := attributeDefinitions + [AttributeDefinition(key, field.attributeType)];
      i := i + 1;
    }
    assert schema.fields[..i] == schema.fields;
  }

  /** Every KeySchema entry comes from a key field, names it and carries its
      lower-case `keyType`. */
  lemma {:induction false} KeySchemaSound(fields: seq<(string, FieldSchema)>, e: KeySchemaElement)
    requires e in KeySchemaOf(fields)
    ensures exists i :: 0 <= i < |fields| && IsKeyField(fields[i].1) &&
                        e == KeySchemaElement(fields[i].0, fields[i].1.lowerKeyType)
  {
    var init := fields[..|fields| - 1];
    if e in KeySchemaOf(init) {
      KeySchemaSound(init, e);
      var i :| 0 <= i < |init| && IsKeyField(init[i].1) &&
               e == KeySchemaElement(init[i].0, init[i].1.lowerKeyType);
      assert fields[i] == init[i];
    } else {
      assert IsKeyField(fields[|fields| - 1].1);
    }
  }

  /** Every key field has its KeySchema entry. */
  lemma {:induction false} KeySchemaComplete(fields: seq<(string, FieldSchema)>, i: nat)
    requires i < |fields| && IsKeyField(fields[i].1)
    ensures KeySchemaElement(fields[i].0, fields[i].1.lowerKeyType) in KeySchemaOf(fields)
  {
    var init := fields[..|fields| - 1];
    if i < |fields| - 1 {
      assert init[i] == fields[i];
      KeySchemaComplete(init, i);
    }
  }

  /** The KeySchema entries keep the fields' order: the entries of a prefix
      of the fields are a prefix of the entries. */
  lemma {:induction false} KeySchemaPrefix(fields: seq<(string, FieldSchema)>, n: nat)
    requires n <= |fields|
    ensures KeySchemaOf(fields[..n]) <= KeySchemaOf(fields)
  {
    if n < |fields| {
      KeySchemaPrefix(fields[..|fields| - 1], n);
      assert fields[..|fields| - 1][..n] == fields[..n];
    } else {
      assert fields[..n] == fields;
    }
  }

  /** A field schema that never carries the lower-case `keyType` gives every
      KeySchema entry an undefined KeyType. */
  lemma KeySchemaKeyTypeUndefined(fields: seq<(string, FieldSchema)>, e: KeySchemaElement)
    requires forall i :: 0 <= i < |fields| ==> fields[i].1.lowerKeyType.None?
    requires e in KeySchemaOf(fields)
    ensures e.keyType.None?
  {
    KeySchemaSound(fields, e);
  }
}
