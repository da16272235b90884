/** helper/dataHelper.js: the schema-guided marshaller `DataHelper`, the
    type-guided `ListHelper` and `MapHelper`, and the one-level unwrapper
    `ExtractDataType` with `ExtractDataTypeFromArray`.

    Each exported helper is a method written as the source writes it (a
    fresh accumulator filled by a loop), proved equal to a specification
    function; the lemmas below state what those functions promise. */
module Marshalling {
  import opened JsValues
  import opened SchemaTree
  import C = Constants

  /** A wire-format attribute value: an object with one property, the tag,
      holding the payload. Only the tags the helpers produce appear. */
  datatype AttributeValue =
    | StrAttr(s: string)                              // {S: s}
    | NumAttr(digits: string)                         // {N: digits}
    | BinAttr(raw: Value)                             // {B: raw}
    | BoolAttr(b: bool)                               // {BOOL: b}
    | NullAttr                                        // {NULL: true}
    | MapAttr(fields: seq<(string, AttributeValue)>)  // {M: {...}}
    | ListAttr(items: seq<AttributeValue>)            // {L: [...]}

  /** A wire-format item: field name to attribute value, in assignment order. */
  type Item = seq<(string, AttributeValue)>

  /** The plain object an attribute value is. */
  function ToJs(a: AttributeValue): Value {
    match a
    case StrAttr(s) => Obj([(C.Tag(C.STRING), Str(s))])
    case NumAttr(d) => Obj([(C.Tag(C.NUMBER), Str(d))])
    case BinAttr(raw) => Obj([(C.Tag(C.BINARY), raw)])
    case BoolAttr(b) => Obj([(C.Tag(C.BOOL), Bool(b))])
    case NullAttr => Obj([(C.Tag(C.NULL), Bool(true))])
    case MapAttr(fs) =>
      Obj([(C.Tag(C.MAP), Obj(seq(|fs|, i requires 0 <= i < |fs| => (fs[i].0, ToJs(fs[i].1)))))])
    case ListAttr(xs) =>
      Obj([(C.Tag(C.LIST), Arr(seq(|xs|, i requires 0 <= i < |xs| => ToJs(xs[i]))))])
  }

  /** The plain object an item is. */
  function ItemToJs(item: Item): Value {
    Obj(seq(|item|, i requires 0 <= i < |item| => (item[i].0, ToJs(item[i].1))))
  }

  // ===== ListHelper =====

  /** The branch of ListHelper an element takes; a boolean takes none.
      `typeof` is "object" for null, arrays and objects alike. */
  function EncodeElement(v: Value): (r: Option<AttributeValue>)
    ensures r.None? <==> v.Bool?
  {
    match v
    case Str(s) => Some(StrAttr(s))
    case Num(_) => Some(NumAttr(ToJsString(v)))
    case Null => Some(StrAttr(JsonText(v)))
    case Arr(_) => Some(StrAttr(JsonText(v)))
    case Obj(_) => Some(StrAttr(JsonText(v)))
    case Undefined => Some(NullAttr)
    case Bool(_) => None
  }

  /** What ListHelper pushes for the elements `xs`, in order. */
  function EncodeList(xs: seq<Value>): seq<AttributeValue> {
    if xs == [] then []
    else
      var init := EncodeList(xs[..|xs| - 1]);
      match EncodeElement(xs[|xs| - 1])
      case Some(a) => init + [a]
      case None => init
  }

  /** The elements that are not booleans, in order. */
  function NonBooleans(xs: seq<Value>): (r: seq<Value>)
    ensures |r| <= |xs|
  {
    if xs == [] then []
    else NonBooleans(xs[..|xs| - 1]) + (if xs[|xs| - 1].Bool? then [] else [xs[|xs| - 1]])
  }

  /** ListHelper keeps the order of the elements, drops the booleans and
      encodes every other element by its own branch. */
  lemma {:induction false} EncodeListElements(xs: seq<Value>)
    ensures |EncodeList(xs)| == |NonBooleans(xs)| <= |xs|
    ensures forall i :: 0 <= i < |NonBooleans(xs)| ==>
              !NonBooleans(xs)[i].Bool? && EncodeList(xs)[i] == EncodeElement(NonBooleans(xs)[i]).value
  {
    if xs != [] {
      EncodeListElements(xs[..|xs| - 1]);
    }
  }

  /** A list without booleans keeps its length. */
  lemma EncodeListLength(xs: seq<Value>)
    requires forall i :: 0 <= i < |xs| ==> !xs[i].Bool?
    ensures |EncodeList(xs)| == |xs|
    ensures forall i :: 0 <= i < |xs| ==> EncodeList(xs)[i] == EncodeElement(xs[i]).value
  {
    NonBooleansOfNoBooleans(xs);
    EncodeListElements(xs);
  }

  lemma {:induction false} NonBooleansOfNoBooleans(xs: seq<Value>)
    requires forall i :: 0 <= i < |xs| ==> !xs[i].Bool?
    ensures NonBooleans(xs) == xs
  {
    if xs != [] {
      NonBooleansOfNoBooleans(xs[..|xs| - 1]);
      assert xs == xs[..|xs| - 1] + [xs[|xs| - 1]];
    }
  }

  /** helper/dataHelper.js ListHelper: for...of over `arrData`, pushing one
      tagged value per element. */
  method ListHelper(arrData: Value) returns (r: Result<seq<AttributeValue>>)
    ensures Iterate(arrData).Err? ==> r == Err(Iterate(arrData).error)
    ensures Iterate(arrData).Ok? ==> r == Ok(EncodeList(Iterate(arrData).value))
  {
    var values :- Iterate(arrData);
    var data: seq<AttributeValue> := [];
    var i := 0;
    while i < |values|
      invariant 0 <= i <= |values|
      invariant data == EncodeList(values[..i])
    {
      var val := values[i];
      if val.Str? {
        data := data + [StrAttr(val.s)];
      } else if val.Num? {
        data := data + [NumAttr(ToJsString(val))];
      } else if val.Null? || val.Arr? || val.Obj? {
        data := data + [StrAttr(JsonText(val))];
      } else if val.Undefined? {
        data := data + [NullAttr];
      }
      // the Array.isArray and second typeof-object branches are never reached,
      // and a boolean matches no branch at all
      assert values[..i + 1][..i] == values[..i];
      i := i + 1;
    }
    assert values[..|values|] == values;
    return Ok(data);
  }

  // ===== MapHelper =====

  /** The branch of MapHelper a property's value `v` takes inside `data`. */
  function EncodeMapValue(v: Value, data: Value): AttributeValue
    requires v < data || v.Str?
    decreases data, 0, 0
  {
    match v
    case Num(_) => NumAttr(ToJsString(v))
    case Str(s) => StrAttr(s)
    case Bool(b) => BoolAttr(b)
    case Null => NullAttr
    case Undefined => NullAttr
    case _ =>
      // the source tests the container, not the property's value
      if data.Arr? then ListAttr(EncodeList(data.items)) else MapAttr(EncodeMap(v))
  }

  /** What MapHelper assigns for the first `n` properties `for...in` visits. */
  function EncodeMapUpTo(data: Value, n: nat): Item
    requires n <= |Entries(data)|
    decreases data, 0, n
  {
    if n == 0 then []
    else
      var e := Entries(data)[n - 1];
      Put(EncodeMapUpTo(data, n - 1), e.0, EncodeMapValue(e.1, data))
  }

  /** What MapHelper returns for `data`. */
  function EncodeMap(data: Value): Item
    decreases data, 1, 0
  {
    EncodeMapUpTo(data, |Entries(data)|)
  }

  /** One more step of MapHelper's loop. */
  lemma EncodeMapStep(data: Value, i: nat)
    requires i < |Entries(data)|
    ensures EncodeMapUpTo(data, i + 1) ==
              Put(EncodeMapUpTo(data, i), Entries(data)[i].0, EncodeMapValue(Entries(data)[i].1, data))
  {
  }

  /** MapHelper stores nothing under a key it has not visited. */
  lemma {:induction false} EncodeMapUpToMissing(data: Value, n: nat, k: string)
    requires n <= |Entries(data)| && Get(Entries(data)[..n], k).None?
    ensures Get(EncodeMapUpTo(data, n), k).None?
  {
    if n > 0 {
      var es := Entries(data);
      assert es[..n] == es[..n - 1] + [es[n - 1]];
      GetAppend(es[..n - 1], es[n - 1].0, es[n - 1].1, k);
      EncodeMapStep(data, n - 1);
      PutGet(EncodeMapUpTo(data, n - 1), es[n - 1].0, EncodeMapValue(es[n - 1].1, data), k);
      EncodeMapUpToMissing(data, n - 1, k);
    }
  }

  /** A property MapHelper visits keeps the value of its last binding. */
  lemma {:induction false} EncodeMapUpToGet(data: Value, n: nat, k: string)
    requires n <= |Entries(data)| && Get(Entries(data)[..n], k).Some?
    ensures var v := Get(Entries(data)[..n], k).value;
            (v < data || v.Str?) && Get(EncodeMapUpTo(data, n), k) == Some(EncodeMapValue(v, data))
  {
    var es := Entries(data);
    assert es[..n] == es[..n - 1] + [es[n - 1]];
    GetAppend(es[..n - 1], es[n - 1].0, es[n - 1].1, k);
    EncodeMapStep(data, n - 1);
    PutGet(EncodeMapUpTo(data, n - 1), es[n - 1].0, EncodeMapValue(es[n - 1].1, data), k);
    if es[n - 1].0 != k {
      EncodeMapUpToGet(data, n - 1, k);
    }
  }

  /** MapHelper gives every property a value chosen by the property's type;
      its keys are exactly the keys `for...in` visits. */
  lemma EncodeMapLookup(data: Value, k: string)
    ensures Get(EncodeMap(data), k).Some? <==> Get(Entries(data), k).Some?
    ensures Get(Entries(data), k).Some? ==>
              var v := Get(Entries(data), k).value;
              var a := Get(EncodeMap(data), k).value;
              && (v.Num? ==> a == NumAttr(IntToDecimal(v.n)))
              && (v.Str? ==> a == StrAttr(v.s))
              && (v.Bool? ==> a == BoolAttr(v.b))
              && (v.Null? || v.Undefined? ==> a == NullAttr)
              && (v.Arr? || v.Obj? ==>
                    a == if data.Arr? then ListAttr(EncodeList(data.items)) else MapAttr(EncodeMap(v)))
  {
    var es := Entries(data);
    assert es[..|es|] == es;
    if Get(es, k).None? {
      EncodeMapUpToMissing(data, |es|, k);
    } else {
      EncodeMapUpToGet(data, |es|, k);
    }
  }

  /** helper/dataHelper.js MapHelper (its schema argument is never read):
      for...in over `data`, assigning one tagged value per property. */
  method MapHelper(data: Value) returns (mapData: Item)
    ensures mapData == EncodeMap(data)
    decreases data, 1, 0
  {
    var entries := Entries(data);
    mapData := [];
    var i := 0;
    while i < |entries|
      invariant 0 <= i <= |entries|
      invariant mapData == EncodeMapUpTo(data, i)
    {
      var subDocKey := entries[i].0;
      var value := entries[i].1;
      var attr: AttributeValue;
      if value.Num? {
        attr := NumAttr(ToJsString(value));
      } else if value.Str? {
        attr := StrAttr(value.s);
      } else if value.Bool? {
        attr := BoolAttr(value.b);
      } else if value.Null? || value.Undefined? {
        attr := NullAttr;
      } else if data.Arr? {
        var arrData := ListHelper(data);
        attr := ListAttr(arrData.value);
      } else {
        var subMapData := MapHelper(value);
        attr := MapAttr(subMapData);
      }
      EncodeMapStep(data, i);
      mapData := Put(mapData, subDocKey, attr);
      i := i + 1;
    }
  }

  // ===== DataHelper =====

  const MapSchemaRequired := Thrown("Schema is required for Map attribute Type")

  predicate IsSetTag(t: string) {
    t == C.Tag(C.STRING_SET) || t == C.Tag(C.BINARY_SET) || t == C.Tag(C.NUMBER_SET)
  }

  /** What DataHelper's loop body stores for the property `key` of `data`,
      whose value is `v`: nothing (None), a tagged value, or an exception. */
  function FieldValue(key: string, v: Value, data: Value, schema: Schema): Result<Option<AttributeValue>>
    decreases schema, 0, 0
  {
    if key == "" then Ok(None)
    else match Lookup(schema, key)
      case None => Ok(None)
      case Some(f) =>
        match f.attributeType
        case None => Ok(None)
        case Some(t) =>
          if t == C.Tag(C.BOOL) then Ok(Some(BoolAttr(Truthy(v))))
          else if t == C.Tag(C.NUMBER) then Ok(Some(NumAttr(ToJsString(v))))
          else if t == C.Tag(C.BINARY) then Ok(Some(BinAttr(v)))
          else if t == C.Tag(C.STRING) then Ok(Some(StrAttr(ToJsString(v))))
          else if t == C.Tag(C.LIST) then
            // the source passes `keyName[data]`: a property of the key string
            var elements :- Iterate(StringProperty(key, ToJsString(data)));
            Ok(Some(ListAttr(EncodeList(elements))))
          else if t == C.Tag(C.MAP) then
            if f.nested.None? then Err(MapSchemaRequired)
            else
              var mapData :- EncodeDocument(v, f.nested.value);
              Ok(Some(MapAttr(mapData)))
          else if IsSetTag(t) then
            // the elements are converted into a local list that is then dropped
            var _ :- Iterate(v);
            Ok(None)
          else Ok(None)
  }

  /** What DataHelper builds from the first `n` of the properties `es` that
      `for...in` visits in `data`. */
  function EncodeFieldsUpTo(es: seq<(string, Value)>, data: Value, schema: Schema, n: nat): Result<Item>
    requires n <= |es|
    decreases schema, 0, n
  {
    if n == 0 then Ok([])
    else
      var items :- EncodeFieldsUpTo(es, data, schema, n - 1);
      var a :- FieldValue(es[n - 1].0, es[n - 1].1, data, schema);
      Ok(if a.Some? then Put(items, es[n - 1].0, a.value) else items)
  }

  /** What DataHelper returns for `data` under `schema`. */
  function EncodeDocument(data: Value, schema: Schema): Result<Item>
    decreases schema, 1, 0
  {
    EncodeFieldsUpTo(Entries(data), data, schema, |Entries(data)|)
  }

  /** Once a property throws, DataHelper throws the same error. */
  lemma {:induction false} EncodeFieldsErrorPersists(es: seq<(string, Value)>, data: Value, schema: Schema, m: nat, n: nat)
    requires m <= n <= |es|
    requires EncodeFieldsUpTo(es, data, schema, m).Err?
    ensures EncodeFieldsUpTo(es, data, schema, n) == EncodeFieldsUpTo(es, data, schema, m)
  {
    if m < n {
      EncodeFieldsErrorPersists(es, data, schema, m, n - 1);
    }
  }

  /** One more step of DataHelper's loop. */
  lemma EncodeFieldsStep(es: seq<(string, Value)>, data: Value, schema: Schema, i: nat, items: Item)
    requires i < |es| && EncodeFieldsUpTo(es, data, schema, i) == Ok(items)
    requires FieldValue(es[i].0, es[i].1, data, schema).Ok?
    ensures var a := FieldValue(es[i].0, es[i].1, data, schema).value;
            EncodeFieldsUpTo(es, data, schema, i + 1) ==
              Ok(if a.Some? then Put(items, es[i].0, a.value) else items)
  {
  }

  /** A property whose field throws makes the whole call throw, with that
      field's error when every property before it succeeded. */
  lemma FieldErrorThrows(data: Value, schema: Schema, j: nat)
    requires j < |Entries(data)|
    requires FieldValue(Entries(data)[j].0, Entries(data)[j].1, data, schema).Err?
    ensures EncodeDocument(data, schema).Err?
    ensures EncodeFieldsUpTo(Entries(data), data, schema, j).Ok? ==>
              EncodeDocument(data, schema) ==
                Err(FieldValue(Entries(data)[j].0, Entries(data)[j].1, data, schema).error)
  {
    var es := Entries(data);
    EncodeFieldsErrorPersists(es, data, schema, j + 1, |es|);
  }

  /** DataHelper stores nothing under a key it has not visited. */
  lemma {:induction false} EncodeFieldsMissing(es: seq<(string, Value)>, data: Value, schema: Schema, n: nat, k: string)
    requires n <= |es| && EncodeFieldsUpTo(es, data, schema, n).Ok?
    requires Get(es[..n], k).None?
    ensures Get(EncodeFieldsUpTo(es, data, schema, n).value, k).None?
  {
    if n > 0 {
      var e := es[n - 1];
      var prev := EncodeFieldsUpTo(es, data, schema, n - 1);
      var a := FieldValue(e.0, e.1, data, schema);
      EncodeFieldsStep(es, data, schema, n - 1, prev.value);
      assert es[..n] == es[..n - 1] + [e];
      GetAppend(es[..n - 1], e.0, e.1, k);
      PutGet(prev.value, e.0, if a.value.Some? then a.value.value else NullAttr, k);
      EncodeFieldsMissing(es, data, schema, n - 1, k);
    }
  }

  /** The item DataHelper has built after `n` properties holds, for each
      key it has visited, what the key's binding stores (nothing, for a key
      whose field stores nothing). */
  lemma {:induction false} EncodeFieldsGet(es: seq<(string, Value)>, data: Value, schema: Schema, n: nat, k: string)
    requires n <= |es| && DistinctKeys(es)
    requires EncodeFieldsUpTo(es, data, schema, n).Ok?
    requires Get(es[..n], k).Some?
    ensures var field := FieldValue(k, Get(es[..n], k).value, data, schema);
            field.Ok? && Get(EncodeFieldsUpTo(es, data, schema, n).value, k) == field.value
  {
    var e := es[n - 1];
    var prev := EncodeFieldsUpTo(es, data, schema, n - 1);
    var a := FieldValue(e.0, e.1, data, schema);
    EncodeFieldsStep(es, data, schema, n - 1, prev.value);
    assert es[..n] == es[..n - 1] + [e];
    GetAppend(es[..n - 1], e.0, e.1, k);
    PutGet(prev.value, e.0, if a.value.Some? then a.value.value else NullAttr, k);
    if e.0 == k {
      GetMissing(es[..n - 1], k);
      EncodeFieldsMissing(es, data, schema, n - 1, k);
    } else {
      EncodeFieldsGet(es, data, schema, n - 1, k);
    }
  }

  /** DataHelper stores a key only if the document has that (non-empty)
      property and the schema gives the property a tag. */
  lemma EncodedKeys(data: Value, schema: Schema, k: string)
    requires EncodeDocument(data, schema).Ok? && DistinctKeys(Entries(data))
    requires Get(EncodeDocument(data, schema).value, k).Some?
    ensures k != "" && Get(Entries(data), k).Some?
    ensures Lookup(schema, k).Some? && Lookup(schema, k).value.attributeType.Some?
  {
    var es := Entries(data);
    assert es[..|es|] == es;
    if Get(es, k).None? {
      EncodeFieldsMissing(es, data, schema, |es|, k);
    } else {
      EncodeFieldsGet(es, data, schema, |es|, k);
    }
  }

  /** What DataHelper stores for the property `k` of the document, whose
      value is `v` and whose schema tag is `t`: BOOL stores `!!v`; NUMBER
      and STRING store the string of the value; BINARY stores the value
      itself; a LIST field holds the one character the key string has at
      the position named by the document's text; a MAP field holds
      DataHelper of the value under the nested schema; set fields and
      unknown tags store nothing. */
  lemma EncodedField(data: Value, schema: Schema, k: string, v: Value, t: string)
    requires EncodeDocument(data, schema).Ok? && DistinctKeys(Entries(data))
    requires k != "" && Get(Entries(data), k) == Some(v)
    requires Lookup(schema, k).Some? && Lookup(schema, k).value.attributeType == Some(t)
    ensures var out := Get(EncodeDocument(data, schema).value, k);
            && (t == "BOOL" ==> out == Some(BoolAttr(Truthy(v))))
            && (t == "N" ==> out == Some(NumAttr(ToJsString(v))))
            && (t == "B" ==> out == Some(BinAttr(v)))
            && (t == "S" ==> out == Some(StrAttr(ToJsString(v))))
            && (t == "L" ==>
                  && StringProperty(k, ToJsString(data)).Str?
                  && out == Some(ListAttr([StrAttr(StringProperty(k, ToJsString(data)).s)])))
            && (t == "M" ==>
                  var nested := Lookup(schema, k).value.nested;
                  && nested.Some?
                  && EncodeDocument(v, nested.value).Ok?
                  && out == Some(MapAttr(EncodeDocument(v, nested.value).value)))
            && (t !in {"BOOL", "N", "B", "S", "L", "M"} ==> out.None?)
  {
    var es := Entries(data);
    assert es[..|es|] == es;
    EncodeFieldsGet(es, data, schema, |es|, k);
    var field := FieldValue(k, v, data, schema);
    assert field.Ok? && Get(EncodeDocument(data, schema).value, k) == field.value;
    if t == "L" {
      var p := StringProperty(k, ToJsString(data));
      assert Iterate(p).Ok?;
      assert Iterate(p).value == [p];
      assert EncodeList([p]) == [StrAttr(p.s)] by {
        assert [p][..0] == [];
      }
    }
  }

  /** The properties that make DataHelper throw: a LIST field whose
      `keyName[data]` is not a string, a MAP field without a nested schema
      or whose value throws, and a set field whose value `for...of` cannot
      iterate. Every other property goes through. */
  lemma FieldErrors(key: string, v: Value, data: Value, schema: Schema)
    ensures FieldValue(key, v, data, schema).Err? <==>
              && key != ""
              && Lookup(schema, key).Some?
              && Lookup(schema, key).value.attributeType.Some?
              && var f := Lookup(schema, key).value;
                 var t := f.attributeType.value;
                 || (t == "L" && !StringProperty(key, ToJsString(data)).Str?)
                 || (t == "M" && (f.nested.None? || EncodeDocument(v, f.nested.value).Err?))
                 || (IsSetTag(t) && !(v.Arr? || v.Str?))
    ensures key != "" && Lookup(schema, key).Some? &&
            Lookup(schema, key).value.attributeType == Some("M") &&
            Lookup(schema, key).value.nested.None? ==>
              FieldValue(key, v, data, schema) == Err(MapSchemaRequired)
  {
  }

  /** In a LIST field of an object document, `keyName[data]` reads the
      property "[object Object]" of the key string, which is undefined, so
      such a field always throws. */
  lemma ListFieldOfObject(key: string, data: Value)
    requires data.Obj?
    ensures StringProperty(key, ToJsString(data)) == Undefined
  {
    assert !IsDigit(ToJsString(data)[0]);
  }

  /** helper/dataHelper.js DataHelper: for...in over the document (not over
      the schema), one tagged value per property whose schema entry has a
      tag with a branch. The final JSON round trip copies plain data and is
      the identity here. */
  method DataHelper(data: Value, schema: Schema) returns (r: Result<Item>)
    ensures r == EncodeDocument(data, schema)
    decreases schema, 1, 0
  {
    var entries := Entries(data);
    var items: Item := [];
    var i := 0;
    while i < |entries|
      invariant 0 <= i <= |entries|
      invariant EncodeFieldsUpTo(entries, data, schema, i) == Ok(items)
    {
      var keyName := entries[i].0;
      var value := entries[i].1;
      var field := Lookup(schema, keyName);
      var stored: Option<AttributeValue> := None;
      if keyName != "" && field.Some? && field.value.attributeType.Some? {
        var t := field.value.attributeType.value;
        if t == C.Tag(C.BOOL) {
          stored := Some(BoolAttr(Truthy(value)));
        } else if t == C.Tag(C.NUMBER) {
          stored := Some(NumAttr(ToJsString(value)));
        } else if t == C.Tag(C.BINARY) {
          stored := Some(BinAttr(value));
        } else if t == C.Tag(C.STRING) {
          stored := Some(StrAttr(ToJsString(value)));
        } else if t == C.Tag(C.LIST) {
          var arrData := ListHelper(StringProperty(keyName, ToJsString(data)));
          if arrData.Err? {
            assert FieldValue(keyName, value, data, schema) == Err(arrData.error);
            FieldErrorThrows(data, schema, i);
            return Err(arrData.error);
          }
          stored := Some(ListAttr(arrData.value));
        } else if t == C.Tag(C.MAP) {
          if field.value.nested.None? {
            assert FieldValue(keyName, value, data, schema) == Err(MapSchemaRequired);
            FieldErrorThrows(data, schema, i);
            return Err(MapSchemaRequired);
          }
          var mapData := DataHelper(value, field.value.nested.value);
          if mapData.Err? {
            assert FieldValue(keyName, value, data, schema) == Err(mapData.error);
            FieldErrorThrows(data, schema, i);
            return Err(mapData.error);
          }
          stored := Some(MapAttr(mapData.value));
        } else if IsSetTag(t) {
          var valueData := Iterate(value);
          if valueData.Err? {
            assert FieldValue(keyName, value, data, schema) == Err(valueData.error);
            FieldErrorThrows(data, schema, i);
            return Err(valueData.error);
          }
        }
      }
      assert FieldValue(keyName, value, data, schema) == Ok(stored);
      EncodeFieldsStep(entries, data, schema, i, items);
      if stored.Some? {
        items := Put(items, keyName, stored.value);
      }
      i := i + 1;
    }
    return Ok(items);
  }

  // ===== ExtractDataType and ExtractDataTypeFromArray =====

  /** `Object.values(v)[0]`: the payload of a tagged value; undefined when
      there is none, and a TypeError on null or undefined. */
  function FirstValue(v: Value): Result<Value> {
    match v
    case Null => Err(TypeError("Cannot convert undefined or null to object"))
    case Undefined => Err(TypeError("Cannot convert undefined or null to object"))
    case Obj(fs) => Ok(if fs == [] then Undefined else fs[0].1)
    case Arr(xs) => Ok(if xs == [] then Undefined else xs[0])
    case Str(s) => Ok(if s == [] then Undefined else Str([s[0]]))
    case _ => Ok(Undefined)
  }

  /** FirstValue is the first element of `Object.values`. */
  lemma FirstOfValues(v: Value)
    ensures FirstValue(v).Ok? <==> ObjectValues(v).Ok?
    ensures FirstValue(v).Err? ==> FirstValue(v) == Err(ObjectValues(v).error)
    ensures FirstValue(v).Ok? ==>
              FirstValue(v).value == if ObjectValues(v).value == [] then Undefined else ObjectValues(v).value[0]
  {
  }

  /** What ExtractDataType assigns for the first `n` properties of an object. */
  function UnwrapFieldsUpTo(fields: seq<(string, Value)>, n: nat): Result<seq<(string, Value)>>
    requires n <= |fields|
  {
    if n == 0 then Ok([])
    else
      var items :- UnwrapFieldsUpTo(fields, n - 1);
      var e := fields[n - 1];
      var first :- FirstValue(e.1);
      Ok(Put(items, e.0, first))
  }

  /** What ExtractDataTypeFromArray pushes for the first `n` elements. */
  function UnwrapElementsUpTo(data: Value, n: nat): Result<seq<Value>>
    requires Iterate(data).Ok? && n <= |Iterate(data).value|
    decreases Depth(data), 1, n
  {
    if n == 0 then Ok([])
    else
      var items :- UnwrapElementsUpTo(data, n - 1);
      var x := Iterate(data).value[n - 1];
      DepthOfIterated(data, n - 1);
      var item :- Unwrap(x);
      Ok(items + [item])
  }

  /** What ExtractDataTypeFromArray returns: for...of over `data`. */
  function UnwrapArray(data: Value): Result<Value>
    decreases Depth(data), 2, 0
  {
    var xs :- Iterate(data);
    var items :- UnwrapElementsUpTo(data, |xs|);
    Ok(Arr(items))
  }

  /** What ExtractDataType returns: an array is unwrapped element by
      element, an object (or null, whose `typeof` is "object") property by
      property, and anything else gives an empty object. */
  function Unwrap(data: Value): Result<Value>
    decreases Depth(data), if data.Arr? then 3 else 0, 0
  {
    if data.Arr? then UnwrapArray(data)
    else if data.Obj? || data.Null? then
      var fields :- UnwrapFieldsUpTo(Entries(data), |Entries(data)|);
      Ok(Obj(fields))
    else Ok(Obj([]))
  }

  /** helper/dataHelper.js ExtractDataTypeFromArray. */
  method ExtractDataTypeFromArray(data: Value) returns (r: Result<Value>)
    ensures r == UnwrapArray(data)
    decreases Depth(data), 2, 0
  {
    var values :- Iterate(data);
    var items: seq<Value> := [];
    var i := 0;
    while i < |values|
      invariant 0 <= i <= |values|
      invariant UnwrapElementsUpTo(data, i) == Ok(items)
    {
      DepthOfIterated(data, i);
      var item := ExtractDataType(values[i]);
      if item.Err? {
        UnwrapElementsErrorPersists(data, i + 1, |values|);
        return Err(item.error);
      }
      UnwrapElementsStep(data, i, items);
      items := items + [item.value];
      i := i + 1;
    }
    return Ok(Arr(items));
  }

  lemma {:induction false} UnwrapElementsErrorPersists(data: Value, m: nat, n: nat)
    requires Iterate(data).Ok? && m <= n <= |Iterate(data).value|
    requires UnwrapElementsUpTo(data, m).Err?
    ensures UnwrapElementsUpTo(data, n) == UnwrapElementsUpTo(data, m)
  {
    if m < n {
      UnwrapElementsErrorPersists(data, m, n - 1);
    }
  }

  lemma {:induction false} UnwrapFieldsErrorPersists(fields: seq<(string, Value)>, m: nat, n: nat)
    requires m <= n <= |fields|
    requires UnwrapFieldsUpTo(fields, m).Err?
    ensures UnwrapFieldsUpTo(fields, n) == UnwrapFieldsUpTo(fields, m)
  {
    if m < n {
      UnwrapFieldsErrorPersists(fields, m, n - 1);
    }
  }

  /** One more step of ExtractDataType's loop. */
  lemma UnwrapFieldsStep(fields: seq<(string, Value)>, i: nat, items: seq<(string, Value)>)
    requires i < |fields| && UnwrapFieldsUpTo(fields, i) == Ok(items)
    requires FirstValue(fields[i].1).Ok?
    ensures UnwrapFieldsUpTo(fields, i + 1) == Ok(Put(items, fields[i].0, FirstValue(fields[i].1).value))
  {
  }

  /** One more step of ExtractDataTypeFromArray's loop. */
  lemma UnwrapElementsStep(data: Value, i: nat, items: seq<Value>)
    requires Iterate(data).Ok? && i < |Iterate(data).value|
    requires UnwrapElementsUpTo(data, i) == Ok(items)
    requires Unwrap(Iterate(data).value[i]).Ok?
    ensures UnwrapElementsUpTo(data, i + 1) == Ok(items + [Unwrap(Iterate(data).value[i]).value])
  {
  }

  lemma UnwrapObjectShape(data: Value)
    requires data.Obj? || data.Null?
    ensures Unwrap(data) == (var fields :- UnwrapFieldsUpTo(Entries(data), |Entries(data)|); Ok(Obj(fields)))
  {
  }

  /** helper/dataHelper.js ExtractDataType. */
  method ExtractDataType(data: Value) returns (r: Result<Value>)
    ensures r == Unwrap(data)
    decreases Depth(data), if data.Arr? then 3 else 0, 0
  {
    if data.Arr? {
      r := ExtractDataTypeFromArray(data);
    } else if data.Obj? || data.Null? {
      var items :- ExtractFields(Entries(data));
      UnwrapObjectShape(data);
      r := Ok(Obj(items));
    } else {
      r := Ok(Obj([]));
    }
  }

  /** The for...in loop of ExtractDataType: each property gets the first
      value of the object it holds. */
  method ExtractFields(fields: seq<(string, Value)>) returns (r: Result<seq<(string, Value)>>)
    ensures r == UnwrapFieldsUpTo(fields, |fields|)
  {
    var items: seq<(string, Value)> := [];
    var i := 0;
    while i < |fields|
      invariant 0 <= i <= |fields|
      invariant UnwrapFieldsUpTo(fields, i) == Ok(items)
    {
      var first := FirstValue(fields[i].1);
      if first.Err? {
        UnwrapFieldsErrorPersists(fields, i + 1, |fields|);
        return Err(first.error);
      }
      UnwrapFieldsStep(fields, i, items);
      items := Put(items, fields[i].0, first.value);
      i := i + 1;
    }
    return Ok(items);
  }


  // ----- What ExtractDataType promises -----

  /** ExtractDataType throws exactly when some property holds null or
      undefined, whose `Object.values` throws. */
  lemma {:induction false} UnwrapFieldsOk(fs: seq<(string, Value)>, n: nat)
    requires n <= |fs|
    ensures UnwrapFieldsUpTo(fs, n).Ok? <==> forall i :: 0 <= i < n ==> !(fs[i].1.Null? || fs[i].1.Undefined?)
  {
    if n > 0 {
      UnwrapFieldsOk(fs, n - 1);
    }
  }

  /** The unwrapped object has the same keys, and each holds the first value
      of the object its key held. */
  lemma {:induction false} UnwrapFieldsGet(fs: seq<(string, Value)>, n: nat, k: string)
    requires n <= |fs| && UnwrapFieldsUpTo(fs, n).Ok?
    ensures Get(UnwrapFieldsUpTo(fs, n).value, k).Some? <==> Get(fs[..n], k).Some?
    ensures Get(fs[..n], k).Some? ==>
              FirstValue(Get(fs[..n], k).value) == Ok(Get(UnwrapFieldsUpTo(fs, n).value, k).value)
  {
    if n > 0 {
      var e := fs[n - 1];
      var prev := UnwrapFieldsUpTo(fs, n - 1);
      var first := FirstValue(e.1);
      assert prev.Ok? && first.Ok?;
      UnwrapFieldsStep(fs, n - 1, prev.value);
      PutGet(prev.value, e.0, first.value, k);
      assert fs[..n] == fs[..n - 1] + [e];
      GetAppend(fs[..n - 1], e.0, e.1, k);
      UnwrapFieldsGet(fs, n - 1, k);
    }
  }

  /** ExtractDataTypeFromArray keeps the length and unwraps each element,
      and throws exactly when one of the elements throws. */
  lemma {:induction false} UnwrapElements(data: Value, n: nat)
    requires Iterate(data).Ok? && n <= |Iterate(data).value|
    ensures UnwrapElementsUpTo(data, n).Ok? <==>
              forall i :: 0 <= i < n ==> Unwrap(Iterate(data).value[i]).Ok?
    ensures UnwrapElementsUpTo(data, n).Ok? ==>
              && |UnwrapElementsUpTo(data, n).value| == n
              && forall i :: 0 <= i < n ==>
                   UnwrapElementsUpTo(data, n).value[i] == Unwrap(Iterate(data).value[i]).value
  {
    if n > 0 {
      UnwrapElements(data, n - 1);
    }
  }

  /** ExtractDataType on anything but an array, an object or null gives an
      empty object; on an array it gives an array of the same length. */
  lemma UnwrapShape(data: Value)
    ensures !(data.Arr? || data.Obj? || data.Null?) ==> Unwrap(data) == Ok(Obj([]))
    ensures data.Null? ==> Unwrap(data) == Ok(Obj([]))
    ensures data.Arr? && Unwrap(data).Ok? ==>
              Unwrap(data).value.Arr? && |Unwrap(data).value.items| == |data.items|
  {
    if data.Arr? {
      UnwrapElements(data, |data.items|);
    }
  }

  /** The payload of an attribute value: what `Object.values(...)[0]` finds
      in the object the value is. */
  function Payload(a: AttributeValue): (r: Value)
    ensures FirstValue(ToJs(a)) == Ok(r)
  {
    match a
    case StrAttr(s) => Str(s)
    case NumAttr(d) => Str(d)
    case BinAttr(raw) => raw
    case BoolAttr(b) => Bool(b)
    case NullAttr => Bool(true)
    case MapAttr(_) => ToJs(a).fields[0].1
    case ListAttr(_) => ToJs(a).fields[0].1
  }

  /** Reading a key of the plain object an item is. */
  lemma {:induction false} ItemToJsGet(item: Item, k: string)
    ensures Get(ItemToJs(item).fields, k) == if Get(item, k).Some? then Some(ToJs(Get(item, k).value)) else None
  {
    if item != [] {
      var init := item[..|item| - 1];
      var fs := ItemToJs(item).fields;
      assert ItemToJs(init).fields == fs[..|fs| - 1];
      ItemToJsGet(init, k);
    }
  }

  /** ExtractDataType undoes the tagging of an item one level deep: the
      result has the item's keys, each holding its value's payload. */
  lemma ExtractItem(item: Item, k: string)
    ensures Unwrap(ItemToJs(item)).Ok? && Unwrap(ItemToJs(item)).value.Obj?
    ensures Get(Unwrap(ItemToJs(item)).value.fields, k) ==
              if Get(item, k).Some? then Some(Payload(Get(item, k).value)) else None
  {
    var fs := ItemToJs(item).fields;
    assert forall i :: 0 <= i < |fs| ==> fs[i].1.Obj?;
    UnwrapFieldsOk(fs, |fs|);
    assert fs[..|fs|] == fs;
    UnwrapFieldsGet(fs, |fs|, k);
    ItemToJsGet(item, k);
  }

  /** Marshalling a document and unwrapping the result gives back string
      and boolean fields unchanged, a binary field's value itself, and a
      number field as its decimal text, which reads back as the number. */
  lemma MarshalThenExtract(data: Value, schema: Schema, k: string, v: Value, t: string)
    requires EncodeDocument(data, schema).Ok? && DistinctKeys(Entries(data))
    requires k != "" && Get(Entries(data), k) == Some(v)
    requires Lookup(schema, k).Some? && Lookup(schema, k).value.attributeType == Some(t)
    ensures var out := Unwrap(ItemToJs(EncodeDocument(data, schema).value));
            && out.Ok? && out.value.Obj?
            && (t == "S" && v.Str? ==> Get(out.value.fields, k) == Some(v))
            && (t == "BOOL" && v.Bool? ==> Get(out.value.fields, k) == Some(v))
            && (t == "B" ==> Get(out.value.fields, k) == Some(v))
            && (t == "N" && v.Num? ==>
                  Get(out.value.fields, k) == Some(Str(IntToDecimal(v.n))) &&
                  StringToNumber(IntToDecimal(v.n)) == Some(v.n))
  {
    var items := EncodeDocument(data, schema).value;
    EncodedField(data, schema, k, v, t);
    ExtractItem(items, k);
    if v.Num? {
      DecimalRoundTrip(v.n);
    }
  }
}
