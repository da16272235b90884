# njs2-dynamo core, in Dafny

This project models the core of njs2-dynamo, a small JavaScript helper
library for DynamoDB, and proves properties of that model. The core has
four parts:

- **Constants** (`constants.dfy`, from `constants/constant.js`): billing
  modes, key roles, the ten attribute type tags, the default-value table
  and the three update kinds.
- **Marshalling** (`marshalling.dfy`, from `helper/dataHelper.js`):
  - `DataHelper` turns a native document into DynamoDB's tagged wire format
    (`{S: ...}`, `{N: ...}`, `{M: {...}}`, ...). A schema guides it.
  - `ListHelper` and `MapHelper` tag values by their JavaScript type.
  - `ExtractDataType` and `ExtractDataTypeFromArray` strip one level of
    tags again.
- **Expressions** (`expressions.dfy`, from `helper/expressionHelper.js`):
  - `generateUpdateExpression` builds a SET/ADD/REMOVE update expression
    with `#name` and `:value` placeholder maps.
  - `generateWhereCondition` is meant to build a condition expression.
- **Table binding** (`table_schema.dfy`, from `interface/Schema.js`):
  - The `Schema` constructor checks and stores the billing mode and the
    provisioned throughput.
  - `CreateTable` has a loop that derives the KeySchema and the
    AttributeDefinitions from the field schema.

Two supporting modules sit underneath:

- `js_values.dfy` is the slice of JavaScript these helpers rely on:
  - values and truthiness, `String(v)`, `Number(v)`
  - `for...in` (`Entries`) and `for...of` (`Iterate`)
  - `Object.keys` and `Object.values`
  - property reads and the `in` operator
  - keyed assignment on an object (`Put`: replace in place, or append)
  - `JSON.stringify`
- `schema_tree.dfy` is the schema object the helpers read, one
  `FieldSchema` per field.

Every helper that loops in the source is a `method` with that loop. Each is
proved equal to a specification function (a left fold over the prefix the
loop has visited). Lemmas then state what those functions promise.

## Quirks the model keeps

The model keeps each of these behaviours of the code.

- `DataHelper` loops over the document's keys (`for...in data`). A schema
  field that the document lacks is never emitted. `DEFAULT_VALUES` is not
  read anywhere in the core, so no default value is ever substituted.
  `Constants.DefaultValueByTag` shows that a lookup of it by tag would miss
  MAP and LIST anyway.
- REMOVE appends `key[value]` right after the keyword, with no space
  (`REMOVEitems[2]`). It also allocates a `:v` value placeholder whenever the
  value is greater than -1.
- SET and ADD clauses start with a space, and the separator is `", "`. So
  clauses after the first are preceded by two spaces (`SET #ka0 = :va0,  #kb1 = :vb1`).
- The separator follows a clause whenever the next value is truthy, even if
  the next key is not in the schema. The expression can therefore end in `", "`.
- Placeholders are not collision-free. `#k` + key + index gives the same
  text for key `x1` at index 0 and key `x` at index 10.
- `generateWhereCondition` throws as soon as it meets a key the schema has
  (see Findings), so it only ever returns an empty condition.
- In `DataHelper`, a LIST field reads `keyName[data]`, a property of the key
  string. A set-typed field's converted elements are dropped.
- `MapHelper` asks whether the containing `data` is an array. The value of
  the property itself plays no part in that choice.

## Model

| member | source | states |
|---|---|---|
| Constants.ParseBillingMode | constants/constant.js:3-6 | a billing-mode name is accepted exactly when it is one of the two names, and it reads back as that name |
| Constants.TagsDistinct | constants/constant.js:13-24 | every attribute type tag reads back as its own type, so the ten tags are distinct |
| Constants.DefaultValueByTag | constants/constant.js:26-37 | looking up `DEFAULT_VALUES` by tag finds a value for eight types and misses exactly MAP and LIST, whose entries are keyed "MAP" and "LIST" |
| Constants.UpdateTypeKeyOrder | constants/constant.js:39-43 | the update kind numbered n is the (n-1)th key of `UPDATE_TYPE`, which the update builder relies on |
| SchemaTree.Lookup | helper/dataHelper.js:11 | `schema[key]` finds the last binding of the key, and a nested description is smaller than its schema |
| JsValues.DecimalRoundTrip | helper/dataHelper.js:24 | the decimal text `'' + n` of an integer reads back as the same number |
| JsValues.PutGet | helper/dataHelper.js:17-19 | after `obj[k] = v`, reading `k` gives `v` and every other key reads as before |
| JsValues.GetMissing | helper/dataHelper.js:11 | a key is absent from an object exactly when no property has that name |
| JsValues.Iterate | helper/dataHelper.js:67 | `for...of` succeeds exactly on arrays and strings, and throws a TypeError otherwise |
| JsValues.HasProperty | interface/Schema.js:20 | `name in v` throws unless `v` is an object or array, and on an object is true exactly when the property is present |
| JsValues.ObjectKeys | helper/expressionHelper.js:82-83 | `Object.keys` throws exactly on null and undefined |
| JsValues.JoinEnds | helper/expressionHelper.js:91-93 | a join of clauses starts with the first clause and ends with the last one, not with a separator |
| Marshalling.EncodeElement | helper/dataHelper.js:82-112 | a list element takes no branch exactly when it is a boolean |
| Marshalling.EncodeListElements | helper/dataHelper.js:78-116 | ListHelper keeps the order of the elements, drops exactly the booleans, and encodes each other element by its type |
| Marshalling.EncodeListLength | helper/dataHelper.js:78-116 | a list without booleans keeps its length, element by element |
| Marshalling.ListHelper | helper/dataHelper.js:78-116 | the loop returns the encoded elements, or the TypeError of `for...of` on a non-iterable |
| Marshalling.EncodeMapUpToMissing | helper/dataHelper.js:122-160 | MapHelper stores nothing under a key it has not visited |
| Marshalling.EncodeMapUpToGet | helper/dataHelper.js:122-160 | a visited key holds the encoding of its last binding's value |
| Marshalling.EncodeMapLookup | helper/dataHelper.js:118-163 | MapHelper's keys are exactly the `for...in` keys; numbers, strings, booleans and null/undefined get N, S, BOOL and NULL; objects get M of themselves, or L of the container when the container is an array |
| Marshalling.MapHelper | helper/dataHelper.js:118-163 | the loop builds the same object as the specification fold |
| Marshalling.FieldErrors | helper/dataHelper.js:40-72 | a property throws exactly when it is a LIST field whose `keyName[data]` is not a string, a MAP field without a nested schema or whose value throws, or a set field whose value is not iterable; a MAP field without a schema throws "Schema is required for Map attribute Type" |
| Marshalling.FieldErrorThrows | helper/dataHelper.js:6-73 | one throwing property makes the whole call throw, with that property's error when everything before it succeeded |
| Marshalling.EncodeFieldsMissing | helper/dataHelper.js:6-73 | DataHelper stores nothing under a key it has not visited |
| Marshalling.EncodeFieldsGet | helper/dataHelper.js:6-73 | for distinct keys, the item holds under each visited key exactly what that key's field stores |
| Marshalling.EncodedKeys | helper/dataHelper.js:8-14 | a stored key is non-empty, is a property of the document, and has a schema entry with an `AttributeType` |
| Marshalling.EncodedField | helper/dataHelper.js:15-72 | per tag: BOOL stores `!!v`; N and S store `String(v)`; B stores `v`; L stores the one character `keyName[data]`; M stores DataHelper of `v` under the nested schema; set and unknown tags store nothing |
| Marshalling.ListFieldOfObject | helper/dataHelper.js:41 | for an object document, `keyName[data]` reads property "[object Object]" of the key string, which is undefined, so a LIST field throws |
| Marshalling.DataHelper | helper/dataHelper.js:3-76 | the loop returns the specification's item, or throws its error |
| Marshalling.FirstOfValues | helper/dataHelper.js:183 | `Object.values(x)[0]` throws exactly on null and undefined, and is otherwise the first value or undefined |
| Marshalling.ExtractDataTypeFromArray | helper/dataHelper.js:165-172 | the loop returns the unwrapped elements, in order |
| Marshalling.ExtractFields | helper/dataHelper.js:180-185 | the `for...in` loop assigns each property the first value of the object it holds |
| Marshalling.ExtractDataType | helper/dataHelper.js:174-188 | arrays go through ExtractDataTypeFromArray, objects and null through the property loop, anything else gives `{}` |
| Marshalling.UnwrapFieldsOk | helper/dataHelper.js:182-184 | unwrapping an object throws exactly when some property holds null or undefined |
| Marshalling.UnwrapFieldsGet | helper/dataHelper.js:182-184 | the unwrapped object has the same keys, each holding the first value of what it held |
| Marshalling.UnwrapElements | helper/dataHelper.js:165-172 | unwrapping an array succeeds exactly when every element does, and keeps length and order |
| Marshalling.UnwrapShape | helper/dataHelper.js:174-188 | a scalar or null gives an empty object; an array gives an array of the same length |
| Marshalling.Payload | helper/dataHelper.js:183 | `Object.values(tagged)[0]` of a tagged value is its payload |
| Marshalling.ExtractItem | helper/dataHelper.js:174-188 | unwrapping a tagged item gives an object with the item's keys, each holding its value's payload |
| Marshalling.MarshalThenExtract | helper/dataHelper.js:15-38 | marshalling then unwrapping gives back S strings, BOOL booleans and B values unchanged, and an N number as decimal text that reads back as the number |
| Expressions.UpdateCallback | helper/expressionHelper.js:21-57 | one call of the forEach callback extends the expression and the two placeholder maps as one step of the specification fold |
| Expressions.GenerateUpdateExpression | helper/expressionHelper.js:3-73 | the forEach loop returns the specification's parts, or throws its error |
| Expressions.UpdateText | helper/expressionHelper.js:14-50 | for SET, ADD and REMOVE the expression is the kind's name followed by one piece per index, in order: nothing when the key is not in the schema or its value is falsy, otherwise ` #name = :value` (SET), ` #name :value` (ADD), or `key[v]`/`key` (REMOVE), followed by ", " exactly when the next value is truthy |
| Expressions.UpdateErrors | helper/expressionHelper.js:7-62 | the builder throws "Invalid update types" exactly for a kind outside 1..4, then "something went wrong" exactly when the lists differ in length, and otherwise succeeds |
| Expressions.UpdatePrefix | helper/expressionHelper.js:14 | the expression starts with SET, ADD or REMOVE for kinds 1-3; for kind 4 it is undefined or starts with "undefined" |
| Expressions.UpdateKindFourText | helper/expressionHelper.js:14-50 | for kind 4 the expression is undefined, or "undefined" followed only by separators |
| Expressions.UpdateNames | helper/expressionHelper.js:28-56 | each name placeholder maps to the key of the last contributing index that produced it, and no other placeholder is present |
| Expressions.UpdateValues | helper/expressionHelper.js:52-54 | each value placeholder maps to `{tag: String(value)}` of the last contributing index that needs one, and no other placeholder is present |
| Expressions.LastNameFound | helper/expressionHelper.js:25-30 | a name placeholder is present exactly when some contributing index produced it, and then it names that index's key |
| Expressions.NamesWithoutCollision | helper/expressionHelper.js:28-56 | when no later contributing index repeats an index's placeholder, that placeholder names the index's own key |
| Expressions.PlaceholderCollision | helper/expressionHelper.js:29-33 | key "x1" at index 0 and key "x" at index 10 get the same name and value placeholders |
| Expressions.SetExample | helper/expressionHelper.js:32-56 | SET over keys a and b gives `SET #ka0 = :va0,  #kb1 = :vb1` and the matching maps |
| Expressions.RemoveExample | helper/expressionHelper.js:38-56 | REMOVE gives `REMOVEitems[2], `, allocating `:vitems0`, when the next key is missing from the schema |
| Expressions.FindKeyInSchema | helper/expressionHelper.js:85-86 | the loop reports whether some key has a schema entry |
| Expressions.GenerateWhereCondition | helper/expressionHelper.js:76-118 | the builder as written returns the as-written specification's result |
| Expressions.WhereAsWrittenOutcome | helper/expressionHelper.js:76-118 | as written, the builder succeeds exactly when both clauses are objects with no schema key, and then returns an empty condition |
| Expressions.WhereAsWrittenThrowsOnClauses | helper/expressionHelper.js:85-107 | whenever the intended builder has a clause to build, the builder as written throws |
| Expressions.EqualClauses | helper/expressionHelper.js:85-95 | the intended equality loop builds at most one clause per key |
| Expressions.OtherClauses | helper/expressionHelper.js:97-107 | the intended relational loop builds at most one clause per key |
| Expressions.EqualClausesSound | helper/expressionHelper.js:85-90 | each equality clause is for a schema key of the clause object, with placeholders `#uek`/`:uev` + key and the clause object's value at that key |
| Expressions.EqualClausesComplete | helper/expressionHelper.js:85-90 | every key of the equality object that the schema has gets a clause |
| Expressions.OtherClausesSound | helper/expressionHelper.js:97-102 | each relational clause is for a schema key of the other object, with placeholders `#uok`/`:uov` + key and the `value` of that key's entry |
| Expressions.OtherClausesComplete | helper/expressionHelper.js:97-102 | every key of the other object that the schema has gets a clause |
| Expressions.NameMapSound | helper/expressionHelper.js:88-100 | a name in the placeholder map is some clause's name, holding that clause's key |
| Expressions.NameMapComplete | helper/expressionHelper.js:88-100 | every clause's name is in the placeholder map |
| Expressions.ValueMapSound | helper/expressionHelper.js:89-101 | a placeholder in the value map is some clause's value placeholder, holding that clause's value |
| Expressions.ValueMapComplete | helper/expressionHelper.js:89-101 | every clause's value placeholder is in the value map |
| Expressions.PlaceholderNamesKey | helper/expressionHelper.js:88-100 | `#uek` + k and `#uok` + k only ever name the key k, so the two families never confuse keys |
| Expressions.EqualValuePlaceholder | helper/expressionHelper.js:89-101 | `:uev` + k is only ever the placeholder of the equality object's value at k, never a relational clause's |
| Expressions.OtherValuePlaceholder | helper/expressionHelper.js:89-101 | `:uov` + k is only ever the placeholder of the `value` of k's entry in the other object |
| Expressions.WhereIntendedNamesSound | helper/expressionHelper.js:86-100 | every name placeholder of the intended condition stands for a schema key, as `#uek` or `#uok` + key |
| Expressions.WhereIntendedNamesComplete | helper/expressionHelper.js:86-100 | each equality key in the schema is named by `#uek` + key, whatever the relational clauses add |
| Expressions.WhereIntendedOtherNamesComplete | helper/expressionHelper.js:86-100 | each key of the other object in the schema is named by `#uok` + key, whatever the equality clauses add |
| Expressions.WhereIntendedValuesSound | helper/expressionHelper.js:86-101 | every value placeholder of the intended condition is `:uev` + a schema key, standing for the equality object's value there, or `:uov` + a schema key, standing for the `value` of that key's entry |
| Expressions.WhereIntendedValuesComplete | helper/expressionHelper.js:86-89 | each equality key in the schema has `:uev` + key, standing for the equality object's value at that key |
| Expressions.WhereIntendedOtherValuesComplete | helper/expressionHelper.js:98-101 | each key of the other object in the schema has `:uov` + key, standing for the `value` of that key's entry |
| Expressions.WhereIntendedJoin | helper/expressionHelper.js:91-104 | the intended condition is empty without clauses, and otherwise starts with the first clause and ends with the last, with no dangling " AND " |
| TableSchema.BillingModeChecked | interface/Schema.js:4-14 | the constructor throws "Billing mode must be PAY_PER_REQUEST,PROVISIONED" exactly when a given mode is neither name; pay-per-request (the default) always succeeds with `{}` |
| TableSchema.ProvisionedObject | interface/Schema.js:16-28 | for an object throughput, PROVISIONED succeeds exactly when both capacities are present and not exactly 0, storing the object unchanged, and otherwise throws the missing-capacity error |
| TableSchema.ProvisionedNeedsThroughput | interface/Schema.js:4-26 | PROVISIONED with the default throughput (both capacities 0) throws |
| TableSchema.ProvisionedNonObject | interface/Schema.js:19-26 | PROVISIONED with a non-object throughput throws: the missing-capacity error for an array, the `in` TypeError otherwise |
| TableSchema.ResolveBillingConsistent | interface/Schema.js:11-32 | whatever the constructor stores satisfies the binding's invariant |
| TableSchema.Table.constructor | interface/Schema.js:6-32 | the binding stores its four fields as given and is valid |
| TableSchema.NewTable | interface/Schema.js:4-33 | construction succeeds exactly when the billing checks pass, stores name and schema as given and the resolved billing, and otherwise throws the checks' error |
| TableSchema.KeySchemaOf | interface/Schema.js:42-53 | the KeySchema has at most one entry per field |
| TableSchema.AttributeDefinitionsOf | interface/Schema.js:55-58 | one AttributeDefinition per field, in order, with the field's name and `AttributeType` |
| TableSchema.DeriveTableDefinitions | interface/Schema.js:37-59 | the loop returns the specified KeySchema and AttributeDefinitions |
| TableSchema.KeySchemaSound | interface/Schema.js:42-53 | each KeySchema entry comes from a field whose `KeyType` is HASH or RANGE, and carries that field's lower-case `keyType` |
| TableSchema.KeySchemaComplete | interface/Schema.js:42-53 | every HASH or RANGE field has its KeySchema entry |
| TableSchema.KeySchemaPrefix | interface/Schema.js:39-53 | KeySchema entries keep the order of the fields |
| TableSchema.KeySchemaKeyTypeUndefined | interface/Schema.js:49-52 | when no field carries a lower-case `keyType`, every KeySchema entry's KeyType is undefined |

## Findings

| source | as written | input that shows it | evidently intended | confidence | as-written member | corrected member |
|---|---|---|---|---|---|---|
| helper/expressionHelper.js:85-107 | the loops assign to the undeclared `ConditionalExpression` and read the undeclared `whereEqualClause`; the `i <= length` guard always holds | schema with field `status`, equality clause `{status: "active"}`: a ReferenceError instead of a condition | `ConditionExpression` updated, values read from `equalClause` and `otherConditionalClause`, clauses joined by " AND " with none left dangling | not executed | Expressions.WhereAsWrittenThrowsOnClauses | Expressions.WhereIntendedNamesComplete |

## Left out

- The AWS calls are not modelled. These are `CreateTable`'s `createTable` request, its status-polling loop, `DescribeTable`, the connection helper, the dynamoose wrappers and `index.js`. They are network I/O and async polling.
- `console.log` calls are not modelled: they are output only.
- The KeySchema/AttributeDefinitions loop is modelled on the binding's own field schema. In the source, `CreateTable` is an arrow function, so its `this` is the module's exports object, not the binding.
- Numbers are integers. Floating point, NaN, `-0` and JavaScript's number formatting are not modelled. Neither are string-to-number conversions other than optionally signed decimal digits.
- Property lookups see own properties only. Properties inherited from `Object.prototype` are not modelled, for `schema[key]` and for the `in` operator alike.
- `AttributeType` and `KeyType` are strings or absent; other value types are not modelled. A field description is always an object, so reading it never throws.
- Object keys are strings, and the schema's field list is taken to have distinct names, as a JavaScript object does.
- `JSON.stringify` is modelled for well-formed strings only: `"`, `\`, and the control characters (`\b`, `\f`, `\n`, `\r`, `\t`, otherwise `\u00XX`) are escaped. A Dafny `char` cannot be a lone surrogate, so the escaping of lone surrogates is not modelled. `JSON.parse(JSON.stringify(items))` is the identity. An `undefined` B payload, which the round trip would drop, is therefore kept.
- MapHelper's `schema` argument is never read, so the model leaves it out.
- generateUpdateExpression's keys are strings. forEach skipping holes in sparse arrays is not modelled. An update kind that is not an integer is not modelled.
- Marshalling.EncodedField, Marshalling.EncodeFieldsGet and Marshalling.EncodedKeys: these assume the document's `for...in` keys are distinct, as they are for a JavaScript object.
- Strings are sequences of Unicode scalar values, indexed by character. JavaScript indexes strings by UTF-16 code unit. The two agree only when no character lies outside the Basic Multilingual Plane. For a string with a surrogate pair, the model's `Entries` (`for...in`), `StringProperty` (`s[i]`, `s.length`) and first-value read (`Object.values(s)[0]`) differ from JavaScript's. `Iterate` (`for...of`) steps by code point in both. This affects `keyName[data]` on a LIST field, `DataHelper` over a string document, and `ExtractDataType` of an object with a property that holds a string, whose first character it reads.
