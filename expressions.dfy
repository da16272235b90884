/** helper/expressionHelper.js: the builders of update expressions and of
    condition expressions, with their placeholder maps for attribute names
    (`#...`) and attribute values (`:...`). */
module Expressions {
  import opened JsValues
  import opened SchemaTree
  import C = Constants

  // ===== generateUpdateExpression =====

  /** A value placeholder's entry: `{[AttributeType]: text}`. */
  datatype TaggedText = TaggedText(tag: string, text: string)

  /** What generateUpdateExpression returns. The expression starts as
      `updateTypes[k - 1]`, which is undefined (None) for k = 4. */
  datatype UpdateParts = UpdateParts(
    expression: Option<string>,            // UpdateExpression
    names: seq<(string, string)>,          // ExpressionAttributeNames
    values: seq<(string, TaggedText)>)     // ExpressionAttributeValues

  const InvalidUpdateType := Thrown("Invalid update types")
  const LengthMismatch := Thrown("something went wrong")

  /** `#<initialKey>k<key><index>`, or `#k<key><index>` when the initial key
      is falsy. */
  function NamePlaceholder(initialKey: Value, key: string, index: nat): string {
    if Truthy(initialKey) then "#" + ToJsString(initialKey) + "k" + key + NatToDecimal(index)
    else "#k" + key + NatToDecimal(index)
  }

  /** `:v<key><index>`. */
  function ValuePlaceholder(key: string, index: nat): string {
    ":v" + key + NatToDecimal(index)
  }

  /** `s += t`: a string, or "undefined" followed by `t` when `s` is undefined. */
  function Append(s: Option<string>, t: string): (r: Option<string>)
    ensures r.Some? && EndsWith(r.value, t)
    ensures s.Some? ==> s.value <= r.value
  {
    match s
    case Some(x) => Some(x + t)
    case None => Some("undefined" + t)
  }

  /** The key at `index` takes part: the schema has it and its value is truthy. */
  predicate Takes(values: seq<Value>, keys: seq<string>, schema: Schema, index: nat)
    requires index < |values| == |keys|
  {
    Lookup(schema, keys[index]).Some? && Truthy(values[index])
  }

  /** What a taking key appends for update kind `k` (1 SET, 2 ADD, 3 REMOVE);
      kind 4 passes the guard but appends nothing. */
  function Clause(k: int, initialKey: Value, key: string, v: Value, index: nat): string {
    if k == C.UpdateTypeNumber(C.SET) then
      " " + NamePlaceholder(initialKey, key, index) + " = " + ValuePlaceholder(key, index)
    else if k == C.UpdateTypeNumber(C.ADD) then
      " " + NamePlaceholder(initialKey, key, index) + " " + ValuePlaceholder(key, index)
    else if k == C.UpdateTypeNumber(C.REMOVE) then
      (if GreaterThanMinusOne(v) then key + "[" + ToJsString(v) + "]" else key)
    else ""
  }

  /** Whether a taking key records a value placeholder: all but a REMOVE of
      a value that is not greater than -1. */
  predicate NeedsValue(k: int, v: Value) {
    !(k == C.UpdateTypeNumber(C.REMOVE) && !GreaterThanMinusOne(v))
  }

  /** The parts before the loop. */
  function InitialParts(k: int): UpdateParts
    requires 1 <= k <= 4
  {
    UpdateParts(if k <= 3 then Some(C.UpdateTypeKeys[k - 1]) else None, [], [])
  }

  /** One call of the forEach callback. */
  function UpdateStep(acc: UpdateParts, values: seq<Value>, keys: seq<string>, schema: Schema,
                      k: int, initialKey: Value, index: nat): UpdateParts
    requires index < |values| == |keys|
  {
    if !Takes(values, keys, schema, index) then acc
    else
      var key := keys[index];
      var v := values[index];
      var e1 := if 1 <= k <= 3 then Append(acc.expression, Clause(k, initialKey, key, v, index)) else acc.expression;
      var e2 := if index + 1 < |values| && Truthy(values[index + 1]) then Append(e1, ", ") else e1;
      var vals := if NeedsValue(k, v)
        then Put(acc.values, ValuePlaceholder(key, index),
                 TaggedText(TagKey(Lookup(schema, key).value), ToJsString(v)))
        else acc.values;
      UpdateParts(e2, Put(acc.names, NamePlaceholder(initialKey, key, index), key), vals)
  }

  /** The parts after the callback has run for the first `n` keys. */
  function UpdateUpTo(values: seq<Value>, keys: seq<string>, schema: Schema,
                      k: int, initialKey: Value, n: nat): UpdateParts
    requires 1 <= k <= 4 && |values| == |keys| && n <= |keys|
  {
    if n == 0 then InitialParts(k)
    else UpdateStep(UpdateUpTo(values, keys, schema, k, initialKey, n - 1), values, keys, schema, k, initialKey, n - 1)
  }

  /** What generateUpdateExpression returns or throws. */
  function BuildUpdate(values: seq<Value>, keys: seq<string>, schema: Schema,
                       k: int, initialKey: Value): Result<UpdateParts>
  {
    if k - 1 < 0 || |C.UpdateTypeKeys| < k - 1 then Err(InvalidUpdateType)
    else if |values| != |keys| then Err(LengthMismatch)
    else Ok(UpdateUpTo(values, keys, schema, k, initialKey, |keys|))
  }

  /** The forEach callback of generateUpdateExpression for the key at
      `index`: it extends the expression and records the placeholders. */
  method UpdateCallback(updateExpression: Option<string>, key: seq<(string, string)>,
                        value: seq<(string, TaggedText)>, updateValue: seq<Value>, updateKey: seq<string>,
                        schema: Schema, updateExpressionKey: int, initialKey: Value, index: nat)
    returns (expression': Option<string>, key': seq<(string, string)>, value': seq<(string, TaggedText)>)
    requires index < |updateValue| == |updateKey|
    ensures UpdateParts(expression', key', value') ==
            UpdateStep(UpdateParts(updateExpression, key, value), updateValue, updateKey, schema,
                       updateExpressionKey, initialKey, index)
  {
    expression', key', value' := updateExpression, key, value;
    var upKey := updateKey[index];
    var field := Lookup(schema, upKey);
    if field.Some? && Truthy(updateValue[index]) {
      var isExprAttrValueRequired := true;
      var currKey := NamePlaceholder(initialKey, upKey, index);
      if updateExpressionKey == C.UpdateTypeNumber(C.SET) {
        expression' := Append(expression', " " + currKey + " = " + ValuePlaceholder(upKey, index));
      } else if updateExpressionKey == C.UpdateTypeNumber(C.ADD) {
        expression' := Append(expression', " " + currKey + " " + ValuePlaceholder(upKey, index));
      } else if updateExpressionKey == C.UpdateTypeNumber(C.REMOVE) {
        if GreaterThanMinusOne(updateValue[index]) {
          expression' := Append(expression', upKey + "[" + ToJsString(updateValue[index]) + "]");
        } else {
          expression' := Append(expression', upKey);
          isExprAttrValueRequired := false;
        }
      }
      if index + 1 < |updateValue| && Truthy(updateValue[index + 1]) {
        expression' := Append(expression', ", ");
      }
      if isExprAttrValueRequired {
        value' := Put(value', ValuePlaceholder(upKey, index),
                      TaggedText(TagKey(field.value), ToJsString(updateValue[index])));
      }
      key' := Put(key', currKey, upKey);
    }
  }

  /** helper/expressionHelper.js generateUpdateExpression; `initialKey`
      defaults to null in the source. */
  method GenerateUpdateExpression(updateValue: seq<Value>, updateKey: seq<string>, schema: Schema,
                                  updateExpressionKey: int, initialKey: Value) returns (r: Result<UpdateParts>)
    ensures r == BuildUpdate(updateValue, updateKey, schema, updateExpressionKey, initialKey)
  {
    var updateTypes := C.UpdateTypeKeys;
    if updateExpressionKey - 1 < 0 || |updateTypes| < updateExpressionKey - 1 {
      return Err(InvalidUpdateType);
    }
    var updateExpression: Option<string> :=
      if updateExpressionKey - 1 < |updateTypes| then Some(updateTypes[updateExpressionKey - 1]) else None;
    var value: seq<(string, TaggedText)> := [];
    var key: seq<(string, string)> := [];
    if |updateValue| != |updateKey| {
      return Err(LengthMismatch);
    }
    var index := 0;
    while index < |updateKey|
      invariant 0 <= index <= |updateKey|
      invariant UpdateParts(updateExpression, key, value) ==
                UpdateUpTo(updateValue, updateKey, schema, updateExpressionKey, initialKey, index)
    {
      updateExpression, key, value :=
        UpdateCallback(updateExpression, key, value, updateValue, updateKey, schema,
                       updateExpressionKey, initialKey, index);
      index := index + 1;
    }
    return Ok(UpdateParts(updateExpression, key, value));
  }

  // ----- What generateUpdateExpression promises -----

  /** It throws "Invalid update types" exactly for a kind outside 1..4, and
      otherwise "something went wrong" exactly when the two lists differ in
      length. */
  lemma UpdateErrors(values: seq<Value>, keys: seq<string>, schema: Schema, k: int, initialKey: Value)
    ensures BuildUpdate(values, keys, schema, k, initialKey) == Err(InvalidUpdateType) <==> k < 1 || k > 4
    ensures BuildUpdate(values, keys, schema, k, initialKey) == Err(LengthMismatch) <==>
              1 <= k <= 4 && |values| != |keys|
    ensures BuildUpdate(values, keys, schema, k, initialKey).Ok? <==> 1 <= k <= 4 && |values| == |keys|
  {
  }

  /** The expression starts with the kind's name for SET, ADD and REMOVE;
      for kind 4 it stays undefined or starts with "undefined". */
  lemma {:induction false} UpdatePrefix(values: seq<Value>, keys: seq<string>, schema: Schema,
                                        k: int, initialKey: Value, n: nat)
    requires 1 <= k <= 4 && |values| == |keys| && n <= |keys|
    ensures var e := UpdateUpTo(values, keys, schema, k, initialKey, n).expression;
            && (k <= 3 ==> e.Some? && C.UpdateTypeKeys[k - 1] <= e.value)
            && (k == 4 && e.Some? ==> "undefined" <= e.value)
  {
    if n > 0 {
      UpdatePrefix(values, keys, schema, k, initialKey, n - 1);
    }
  }

  /** The text index `i` adds to the expression: nothing unless the key
      takes part; otherwise its clause, followed by ", " exactly when the
      next value is truthy (whether or not the next key takes part). */
  function Piece(values: seq<Value>, keys: seq<string>, schema: Schema,
                 k: int, initialKey: Value, i: nat): string
    requires i < |values| == |keys|
  {
    if !Takes(values, keys, schema, i) then ""
    else Clause(k, initialKey, keys[i], values[i], i) +
         (if i + 1 < |values| && Truthy(values[i + 1]) then ", " else "")
  }

  /** The pieces of the first `n` indices, in order. */
  function Pieces(values: seq<Value>, keys: seq<string>, schema: Schema,
                  k: int, initialKey: Value, n: nat): (r: seq<string>)
    requires n <= |keys| == |values|
    ensures |r| == n
    ensures forall i :: 0 <= i < n ==> r[i] == Piece(values, keys, schema, k, initialKey, i)
  {
    seq(n, i requires 0 <= i < n => Piece(values, keys, schema, k, initialKey, i))
  }

  /** For SET, ADD and REMOVE the expression is the kind's name followed by
      the pieces of all indices in order: ` <name> = <value>` for SET,
      ` <name> <value>` for ADD, `key[v]` or `key` with no leading space for
      REMOVE, each followed by ", " when the next value is truthy, and
      nothing for an index whose key is not in the schema or whose value is
      falsy. */
  lemma {:induction false} UpdateText(values: seq<Value>, keys: seq<string>, schema: Schema,
                                      k: int, initialKey: Value, n: nat)
    requires 1 <= k <= 3 && |values| == |keys| && n <= |keys|
    ensures UpdateUpTo(values, keys, schema, k, initialKey, n).expression ==
              Some(C.UpdateTypeKeys[k - 1] + Concat(Pieces(values, keys, schema, k, initialKey, n)))
  {
    if n > 0 {
      UpdateText(values, keys, schema, k, initialKey, n - 1);
      UpdateExpressionStep(values, keys, schema, k, initialKey, n);
      ConcatPiecesStep(values, keys, schema, k, initialKey, n);
      var head := C.UpdateTypeKeys[k - 1];
      var before := Concat(Pieces(values, keys, schema, k, initialKey, n - 1));
      var piece := Piece(values, keys, schema, k, initialKey, n - 1);
      assert head + before + piece == head + (before + piece);
    } else {
      assert Concat(Pieces(values, keys, schema, k, initialKey, 0)) == "";
      assert C.UpdateTypeKeys[k - 1] + "" == C.UpdateTypeKeys[k - 1];
    }
  }

  /** Concatenating one more piece. */
  lemma ConcatPiecesStep(values: seq<Value>, keys: seq<string>, schema: Schema,
                         k: int, initialKey: Value, n: nat)
    requires 0 < n <= |keys| == |values|
    ensures Concat(Pieces(values, keys, schema, k, initialKey, n)) ==
              Concat(Pieces(values, keys, schema, k, initialKey, n - 1)) + Piece(values, keys, schema, k, initialKey, n - 1)
  {
    var ps := Pieces(values, keys, schema, k, initialKey, n);
    assert ps[..n - 1] == Pieces(values, keys, schema, k, initialKey, n - 1);
  }

  /** One more index adds its piece to the expression. */
  lemma UpdateExpressionStep(values: seq<Value>, keys: seq<string>, schema: Schema,
                             k: int, initialKey: Value, n: nat)
    requires 1 <= k <= 3 && |values| == |keys| && 0 < n <= |keys|
    requires UpdateUpTo(values, keys, schema, k, initialKey, n - 1).expression.Some?
    ensures UpdateUpTo(values, keys, schema, k, initialKey, n).expression ==
              Some(UpdateUpTo(values, keys, schema, k, initialKey, n - 1).expression.value +
                   Piece(values, keys, schema, k, initialKey, n - 1))
  {
    var acc := UpdateUpTo(values, keys, schema, k, initialKey, n - 1);
    var prev := acc.expression.value;
    var e := UpdateUpTo(values, keys, schema, k, initialKey, n).expression;
    assert e == UpdateStep(acc, values, keys, schema, k, initialKey, n - 1).expression;
    if Takes(values, keys, schema, n - 1) {
      var c := Clause(k, initialKey, keys[n - 1], values[n - 1], n - 1);
      var e1 := Append(acc.expression, c);
      assert e1 == Some(prev + c);
      if n < |values| && Truthy(values[n]) {
        assert e == Append(e1, ", ") == Some(prev + c + ", ");
        assert Piece(values, keys, schema, k, initialKey, n - 1) == c + ", ";
        assert prev + c + ", " == prev + (c + ", ");
      } else {
        assert Piece(values, keys, schema, k, initialKey, n - 1) == c + "";
        assert c + "" == c;
        assert e == e1;
      }
    } else {
      assert e == acc.expression;
      assert Piece(values, keys, schema, k, initialKey, n - 1) == "";
      assert prev + "" == prev;
    }
  }

  /** For kind 4 one more index appends ", " or nothing. */
  lemma KindFourStep(values: seq<Value>, keys: seq<string>, schema: Schema, initialKey: Value, n: nat)
    requires |values| == |keys| && 0 < n <= |keys|
    ensures var prev := UpdateUpTo(values, keys, schema, 4, initialKey, n - 1).expression;
            var e := UpdateUpTo(values, keys, schema, 4, initialKey, n).expression;
            e == prev || e == Append(prev, ", ")
  {
    var acc := UpdateUpTo(values, keys, schema, 4, initialKey, n - 1);
    assert UpdateUpTo(values, keys, schema, 4, initialKey, n).expression ==
           UpdateStep(acc, values, keys, schema, 4, initialKey, n - 1).expression;
  }

  /** For kind 4 the only text ever appended is ", ": the clauses of the
      other kinds never appear. */
  lemma {:induction false} UpdateKindFourText(values: seq<Value>, keys: seq<string>, schema: Schema,
                                              initialKey: Value, n: nat)
    requires |values| == |keys| && n <= |keys|
    ensures var e := UpdateUpTo(values, keys, schema, 4, initialKey, n).expression;
            e.Some? ==> exists m: nat :: e.value == "undefined" + Repeat(", ", m)
  {
    if n > 0 {
      UpdateKindFourText(values, keys, schema, initialKey, n - 1);
      var acc := UpdateUpTo(values, keys, schema, 4, initialKey, n - 1);
      var prev := acc.expression;
      KindFourStep(values, keys, schema, initialKey, n);
      if prev.Some? {
        var m: nat :| prev.value == "undefined" + Repeat(", ", m);
        RepeatOneMore(", ", m);
        assert "undefined" + Repeat(", ", m) + ", " == "undefined" + Repeat(", ", m + 1);
      } else {
        assert Repeat(", ", 1) == ", ";
      }
    }
  }

  /** `s` repeated `m` times. */
  function Repeat(s: string, m: nat): string {
    if m == 0 then "" else Repeat(s, m - 1) + s
  }

  lemma RepeatOneMore(s: string, m: nat)
    ensures Repeat(s, m) + s == Repeat(s, m + 1)
  {
  }

  /** The key recorded for a name placeholder by the first `n` keys: the key
      of the last taking index with that placeholder. */
  function LastName(values: seq<Value>, keys: seq<string>, schema: Schema,
                    initialKey: Value, n: nat, p: string): Option<string>
    requires |values| == |keys| && n <= |keys|
  {
    if n == 0 then None
    else if Takes(values, keys, schema, n - 1) && NamePlaceholder(initialKey, keys[n - 1], n - 1) == p
    then Some(keys[n - 1])
    else LastName(values, keys, schema, initialKey, n - 1, p)
  }

  /** The entry recorded for a value placeholder by the first `n` keys:
      that of the last taking index with that placeholder that needs one. */
  function LastValue(values: seq<Value>, keys: seq<string>, schema: Schema,
                     k: int, n: nat, p: string): Option<TaggedText>
    requires |values| == |keys| && n <= |keys|
  {
    if n == 0 then None
    else if Takes(values, keys, schema, n - 1) && NeedsValue(k, values[n - 1]) &&
            ValuePlaceholder(keys[n - 1], n - 1) == p
    then Some(TaggedText(TagKey(Lookup(schema, keys[n - 1]).value), ToJsString(values[n - 1])))
    else LastValue(values, keys, schema, k, n - 1, p)
  }

  /** ExpressionAttributeNames maps each placeholder to the key of the last
      taking index that produced it, and holds no other placeholder. */
  lemma {:induction false} UpdateNames(values: seq<Value>, keys: seq<string>, schema: Schema,
                                       k: int, initialKey: Value, n: nat, p: string)
    requires 1 <= k <= 4 && |values| == |keys| && n <= |keys|
    ensures Get(UpdateUpTo(values, keys, schema, k, initialKey, n).names, p) ==
              LastName(values, keys, schema, initialKey, n, p)
  {
    if n > 0 {
      UpdateNames(values, keys, schema, k, initialKey, n - 1, p);
      var prev := UpdateUpTo(values, keys, schema, k, initialKey, n - 1);
      PutGet(prev.names, NamePlaceholder(initialKey, keys[n - 1], n - 1), keys[n - 1], p);
    }
  }

  /** ExpressionAttributeValues maps each value placeholder to the tagged
      text of the last taking index that produced it, and holds no other. */
  lemma {:induction false} UpdateValues(values: seq<Value>, keys: seq<string>, schema: Schema,
                                        k: int, initialKey: Value, n: nat, p: string)
    requires 1 <= k <= 4 && |values| == |keys| && n <= |keys|
    ensures Get(UpdateUpTo(values, keys, schema, k, initialKey, n).values, p) ==
              LastValue(values, keys, schema, k, n, p)
  {
    if n > 0 {
      UpdateValues(values, keys, schema, k, initialKey, n - 1, p);
      var prev := UpdateUpTo(values, keys, schema, k, initialKey, n - 1);
      if Takes(values, keys, schema, n - 1) && NeedsValue(k, values[n - 1]) {
        var f := Lookup(schema, keys[n - 1]).value;
        PutGet(prev.values, ValuePlaceholder(keys[n - 1], n - 1),
               TaggedText(TagKey(f), ToJsString(values[n - 1])), p);
      }
    }
  }

  /** A name placeholder is recorded only for a taking index, and every
      taking index records one. */
  lemma {:induction false} LastNameFound(values: seq<Value>, keys: seq<string>, schema: Schema,
                                         initialKey: Value, n: nat, p: string)
    requires |values| == |keys| && n <= |keys|
    ensures LastName(values, keys, schema, initialKey, n, p).Some? <==>
              exists i :: 0 <= i < n && Takes(values, keys, schema, i) &&
                          NamePlaceholder(initialKey, keys[i], i) == p
    ensures LastName(values, keys, schema, initialKey, n, p).Some? ==>
              exists i :: 0 <= i < n && Takes(values, keys, schema, i) &&
                          NamePlaceholder(initialKey, keys[i], i) == p &&
                          LastName(values, keys, schema, initialKey, n, p) == Some(keys[i])
  {
    if n > 0 {
      LastNameFound(values, keys, schema, initialKey, n - 1, p);
      if Takes(values, keys, schema, n - 1) && NamePlaceholder(initialKey, keys[n - 1], n - 1) == p {
        assert LastName(values, keys, schema, initialKey, n, p) == Some(keys[n - 1]);
      } else {
        assert LastName(values, keys, schema, initialKey, n, p) == LastName(values, keys, schema, initialKey, n - 1, p);
      }
    }
  }

  /** When the taking indices produce distinct name placeholders, each
      placeholder names exactly its own key. */
  lemma {:induction false} NamesWithoutCollision(values: seq<Value>, keys: seq<string>, schema: Schema,
                                                 initialKey: Value, n: nat, i: nat)
    requires |values| == |keys| && i < n <= |keys|
    requires Takes(values, keys, schema, i)
    requires forall j :: i < j < n && Takes(values, keys, schema, j) ==>
               NamePlaceholder(initialKey, keys[j], j) != NamePlaceholder(initialKey, keys[i], i)
    ensures LastName(values, keys, schema, initialKey, n, NamePlaceholder(initialKey, keys[i], i)) == Some(keys[i])
  {
    if n - 1 != i {
      NamesWithoutCollision(values, keys, schema, initialKey, n - 1, i);
    }
  }

  /** Name placeholders are not unique: key "x1" at index 0 and key "x" at
      index 10 both become "#kx10", so the later one overwrites the earlier
      one in ExpressionAttributeNames. */
  lemma PlaceholderCollision()
    ensures NamePlaceholder(Null, "x1", 0) == NamePlaceholder(Null, "x", 10)
    ensures ValuePlaceholder("x1", 0) == ValuePlaceholder("x", 10)
  {
    assert NatToDecimal(10) == NatToDecimal(1) + [DigitChar(0)];
  }

  /** The first step of the SET example. */
  lemma SetExampleFirstKey(schema: Schema)
    requires Lookup(schema, "a") == Some(FieldSchema(Some("S"), None, None, None))
    ensures UpdateUpTo([Str("x"), Num(5)], ["a", "b"], schema, 1, Null, 1) ==
              UpdateParts(Some("SET #ka0 = :va0, "), [("#ka0", "a")], [(":va0", TaggedText("S", "x"))])
  {
    var vs, ks := [Str("x"), Num(5)], ["a", "b"];
    assert NatToDecimal(0) == "0";
    assert NamePlaceholder(Null, "a", 0) == "#ka0" && ValuePlaceholder("a", 0) == ":va0";
    assert Takes(vs, ks, schema, 0) && Truthy(vs[1]);
    assert UpdateUpTo(vs, ks, schema, 1, Null, 0) == UpdateParts(Some("SET"), [], []);
    assert Clause(1, Null, "a", Str("x"), 0) == " #ka0 = :va0";
    assert "SET" + " #ka0 = :va0" + ", " == "SET #ka0 = :va0, ";
    assert UpdateUpTo(vs, ks, schema, 1, Null, 1) ==
           UpdateStep(UpdateParts(Some("SET"), [], []), vs, ks, schema, 1, Null, 0);
  }

  /** SET over two schema keys with truthy values; the separator ", " and
      the next clause's leading space leave two spaces after the comma. */
  lemma SetExample(schema: Schema)
    requires Lookup(schema, "a") == Some(FieldSchema(Some("S"), None, None, None))
    requires Lookup(schema, "b") == Some(FieldSchema(Some("N"), None, None, None))
    ensures var r := BuildUpdate([Str("x"), Num(5)], ["a", "b"], schema, 1, Null);
            && r.Ok?
            && r.value.expression == Some("SET #ka0 = :va0,  #kb1 = :vb1")
            && r.value.names == [("#ka0", "a"), ("#kb1", "b")]
            && r.value.values == [(":va0", TaggedText("S", "x")), (":vb1", TaggedText("N", "5"))]
  {
    var vs, ks := [Str("x"), Num(5)], ["a", "b"];
    SetExampleFirstKey(schema);
    assert NatToDecimal(1) == "1" && IntToDecimal(5) == "5";
    assert NamePlaceholder(Null, "b", 1) == "#kb1" && ValuePlaceholder("b", 1) == ":vb1";
    assert Takes(vs, ks, schema, 1);
    assert Clause(1, Null, "b", Num(5), 1) == " #kb1 = :vb1";
    assert "SET #ka0 = :va0, " + " #kb1 = :vb1" == "SET #ka0 = :va0,  #kb1 = :vb1";
    PutNew([("#ka0", "a")], "#kb1", "b");
    PutNew([(":va0", TaggedText("S", "x"))], ":vb1", TaggedText("N", "5"));
  }

  /** REMOVE appends `key[value]` with no separating space and still
      records a value placeholder; a key that is not in the schema adds
      nothing but the separator of the key before it. */
  lemma RemoveExample(schema: Schema)
    requires Lookup(schema, "items") == Some(FieldSchema(Some("L"), None, None, None))
    requires Lookup(schema, "zz").None?
    ensures var r := BuildUpdate([Num(2), Num(7)], ["items", "zz"], schema, 3, Null);
            && r.Ok?
            && r.value.expression == Some("REMOVEitems[2], ")
            && r.value.names == [("#kitems0", "items")]
            && r.value.values == [(":vitems0", TaggedText("L", "2"))]
  {
    var vs, ks := [Num(2), Num(7)], ["items", "zz"];
    assert NatToDecimal(0) == "0";
    assert IntToDecimal(2) == "2";
    assert GreaterThanMinusOne(Num(2));
    assert NamePlaceholder(Null, "items", 0) == "#kitems0" && ValuePlaceholder("items", 0) == ":vitems0";
    assert Takes(vs, ks, schema, 0) && !Takes(vs, ks, schema, 1);
    assert UpdateUpTo(vs, ks, schema, 3, Null, 0) == UpdateParts(Some("REMOVE"), [], []);
    var p1 := UpdateUpTo(vs, ks, schema, 3, Null, 1);
    assert Clause(3, Null, "items", Num(2), 0) == "items[2]";
    assert Truthy(vs[1]);
    assert "REMOVE" + "items[2]" + ", " == "REMOVEitems[2], ";
    assert p1.expression == Some("REMOVEitems[2], ");
    assert p1.names == [("#kitems0", "items")];
    assert p1.values == [(":vitems0", TaggedText("L", "2"))];
  }

  // ===== generateWhereCondition =====

  /** What generateWhereCondition returns. */
  datatype Condition = Condition(
    expression: string,                  // ConditionExpression
    names: seq<(string, string)>,        // ExpressionAttributeNames
    values: seq<(string, Value)>)        // ExpressionAttributeValues

  /** Some key of `keys` is one the schema has. */
  predicate SomeKeyInSchema(schema: Schema, keys: seq<string>) {
    exists i :: 0 <= i < |keys| && Lookup(schema, keys[i]).Some?
  }

  /** generateWhereCondition as written. The first loop's `+=` reads the
      undeclared `ConditionalExpression`, and the second loop's template
      reads the undeclared `whereEqualClause`; either read throws a
      ReferenceError as soon as its loop meets a key the schema has. */
  function WhereAsWritten(schema: Schema, equalClause: Value, otherConditionalClause: Value): Result<Condition> {
    var equalKeys :- ObjectKeys(equalClause);
    var conditionalKeys :- ObjectKeys(otherConditionalClause);
    if SomeKeyInSchema(schema, equalKeys) then Err(ReferenceError("ConditionalExpression"))
    else if SomeKeyInSchema(schema, conditionalKeys) then Err(ReferenceError("whereEqualClause"))
    else Ok(Condition("", [], []))
  }

  /** One of the source's two loops: it stops at the first key the schema
      has, where the loop body throws. */
  method FindKeyInSchema(schema: Schema, keys: seq<string>) returns (found: bool)
    ensures found == SomeKeyInSchema(schema, keys)
  {
    var i := 0;
    while i < |keys|
      invariant 0 <= i <= |keys|
      invariant forall j :: 0 <= j < i ==> Lookup(schema, keys[j]).None?
    {
      if Lookup(schema, keys[i]).Some? {
        return true;
      }
      i := i + 1;
    }
    return false;
  }

  /** helper/expressionHelper.js generateWhereCondition, as written. */
  method GenerateWhereCondition(schema: Schema, equalClause: Value, otherConditionalClause: Value)
    returns (r: Result<Condition>)
    ensures r == WhereAsWritten(schema, equalClause, otherConditionalClause)
  {
    var equalKeys :- ObjectKeys(equalClause);
    var conditionalKeys :- ObjectKeys(otherConditionalClause);
    var found := FindKeyInSchema(schema, equalKeys);
    if found {
      return Err(ReferenceError("ConditionalExpression"));
    }
    found := FindKeyInSchema(schema, conditionalKeys);
    if found {
      return Err(ReferenceError("whereEqualClause"));
    }
    return Ok(Condition("", [], []));
  }

  /** As written, the builder succeeds exactly when both clauses are
      objects and neither has a key the schema has, and then its condition
      is empty. */
  lemma WhereAsWrittenOutcome(schema: Schema, equalClause: Value, otherConditionalClause: Value)
    ensures var r := WhereAsWritten(schema, equalClause, otherConditionalClause);
            && (r.Ok? <==> ObjectKeys(equalClause).Ok? && ObjectKeys(otherConditionalClause).Ok? &&
                           !SomeKeyInSchema(schema, ObjectKeys(equalClause).value) &&
                           !SomeKeyInSchema(schema, ObjectKeys(otherConditionalClause).value))
            && (r.Ok? ==> r.value == Condition("", [], []))
  {
  }

  /** A clause of the intended builder: its text, its name placeholder and
      key, and its value placeholder and value. */
  datatype WhereClause = WhereClause(text: string, name: string, key: string, valueName: string, value: Value)

  /** The clauses the first loop means to build: ` #uek<k> = :uev<k> ` for
      each key of the equality clause that the schema has. */
  function EqualClauses(schema: Schema, equalClause: Value, keys: seq<string>): (r: Result<seq<WhereClause>>)
    ensures r.Ok? ==> |r.value| <= |keys|
  {
    if keys == [] then Ok([])
    else
      var init :- EqualClauses(schema, equalClause, keys[..|keys| - 1]);
      var k := keys[|keys| - 1];
      if Lookup(schema, k).None? then Ok(init)
      else
        var v :- GetProperty(equalClause, k);
        Ok(init + [WhereClause(" #uek" + k + " = :uev" + k + " ", "#uek" + k, k, ":uev" + k, v)])
  }

  /** The clauses the second loop means to build: ` #uok<k> <condition>
      :uov<k> ` for each key of the other clause that the schema has, with
      that key's `condition` and `value`. */
  function OtherClauses(schema: Schema, otherClause: Value, keys: seq<string>): (r: Result<seq<WhereClause>>)
    ensures r.Ok? ==> |r.value| <= |keys|
  {
    if keys == [] then Ok([])
    else
      var init :- OtherClauses(schema, otherClause, keys[..|keys| - 1]);
      var k := keys[|keys| - 1];
      if Lookup(schema, k).None? then Ok(init)
      else
        var entry :- GetProperty(otherClause, k);
        var condition :- GetProperty(entry, "condition");
        var v :- GetProperty(entry, "value");
        Ok(init + [WhereClause(" #uok" + k + " " + ToJsString(condition) + " :uov" + k + " ",
                               "#uok" + k, k, ":uov" + k, v)])
  }

  /** The texts of some clauses. */
  function Texts(cs: seq<WhereClause>): (r: seq<string>)
    ensures |r| == |cs|
    ensures forall i :: 0 <= i < |cs| ==> r[i] == cs[i].text
  {
    if cs == [] then [] else Texts(cs[..|cs| - 1]) + [cs[|cs| - 1].text]
  }

  /** The placeholder map of some clauses, assigned in order. */
  function NameMap(cs: seq<WhereClause>): seq<(string, string)> {
    if cs == [] then [] else Put(NameMap(cs[..|cs| - 1]), cs[|cs| - 1].name, cs[|cs| - 1].key)
  }

  function ValueMap(cs: seq<WhereClause>): seq<(string, Value)> {
    if cs == [] then [] else Put(ValueMap(cs[..|cs| - 1]), cs[|cs| - 1].valueName, cs[|cs| - 1].value)
  }

  /** The clauses of the intended builder, equality clauses first. */
  function WhereClauses(schema: Schema, equalClause: Value, otherConditionalClause: Value): Result<seq<WhereClause>> {
    var equalKeys :- ObjectKeys(equalClause);
    var conditionalKeys :- ObjectKeys(otherConditionalClause);
    var eq :- EqualClauses(schema, equalClause, equalKeys);
    var other :- OtherClauses(schema, otherConditionalClause, conditionalKeys);
    Ok(eq + other)
  }

  /** generateWhereCondition as its authors evidently meant it: the
      declared names are used, the other clause supplies its own
      `condition` and `value`, and the clauses are joined by " AND "
      instead of each being followed by one. */
  function WhereIntended(schema: Schema, equalClause: Value, otherConditionalClause: Value): Result<Condition> {
    var cs :- WhereClauses(schema, equalClause, otherConditionalClause);
    Ok(Condition(Join(Texts(cs), " AND "), NameMap(cs), ValueMap(cs)))
  }

  /** Every clause the first loop builds is for a key of the equality
      clause that the schema has, under the placeholders "#uek" + key and
      ":uev" + key. */
  lemma {:induction false} EqualClausesSound(schema: Schema, equalClause: Value, keys: seq<string>)
    requires EqualClauses(schema, equalClause, keys).Ok?
    ensures forall c :: c in EqualClauses(schema, equalClause, keys).value ==>
              c.key in keys && Lookup(schema, c.key).Some? && c.name == "#uek" + c.key &&
              c.valueName == ":uev" + c.key && GetProperty(equalClause, c.key) == Ok(c.value)
  {
    if keys != [] {
      EqualClausesSound(schema, equalClause, keys[..|keys| - 1]);
    }
  }

  /** The `value` of the other clause's entry for `k`. */
  function OtherValue(otherClause: Value, k: string): Result<Value> {
    var entry :- GetProperty(otherClause, k);
    GetProperty(entry, "value")
  }

  /** Every key of the equality clause that the schema has gets a clause. */
  lemma {:induction false} EqualClausesComplete(schema: Schema, equalClause: Value, keys: seq<string>, k: string)
    requires EqualClauses(schema, equalClause, keys).Ok?
    requires k in keys && Lookup(schema, k).Some?
    ensures exists c :: c in EqualClauses(schema, equalClause, keys).value && c.key == k
  {
    var init := keys[..|keys| - 1];
    if keys[|keys| - 1] != k {
      assert k in init;
      EqualClausesComplete(schema, equalClause, init, k);
    } else {
      var cs := EqualClauses(schema, equalClause, keys).value;
      assert cs[|cs| - 1].key == k;
    }
  }

  /** Every clause the second loop builds is for a key of the other clause
      that the schema has, under the placeholders "#uok" + key and
      ":uov" + key. */
  lemma {:induction false} OtherClausesSound(schema: Schema, otherClause: Value, keys: seq<string>)
    requires OtherClauses(schema, otherClause, keys).Ok?
    ensures forall c :: c in OtherClauses(schema, otherClause, keys).value ==>
              c.key in keys && Lookup(schema, c.key).Some? && c.name == "#uok" + c.key &&
              c.valueName == ":uov" + c.key && OtherValue(otherClause, c.key) == Ok(c.value)
  {
    if keys != [] {
      OtherClausesSound(schema, otherClause, keys[..|keys| - 1]);
    }
  }

  /** Every key of the other clause that the schema has gets a clause. */
  lemma {:induction false} OtherClausesComplete(schema: Schema, otherClause: Value, keys: seq<string>, k: string)
    requires OtherClauses(schema, otherClause, keys).Ok?
    requires k in keys && Lookup(schema, k).Some?
    ensures exists c :: c in OtherClauses(schema, otherClause, keys).value && c.key == k
  {
    var init := keys[..|keys| - 1];
    if keys[|keys| - 1] != k {
      assert k in init;
      OtherClausesComplete(schema, otherClause, init, k);
    } else {
      var cs := OtherClauses(schema, otherClause, keys).value;
      assert cs[|cs| - 1].key == k;
    }
  }

  /** A name the placeholder map holds is one of its clauses' names, with
      that clause's key. */
  lemma {:induction false} NameMapSound(cs: seq<WhereClause>, p: string)
    requires Get(NameMap(cs), p).Some?
    ensures exists c :: c in cs && c.name == p && Get(NameMap(cs), p) == Some(c.key)
  {
    var last := cs[|cs| - 1];
    PutGet(NameMap(cs[..|cs| - 1]), last.name, last.key, p);
    if last.name != p {
      NameMapSound(cs[..|cs| - 1], p);
    }
  }

  /** Every clause's name is in the placeholder map. */
  lemma {:induction false} NameMapComplete(cs: seq<WhereClause>, c: WhereClause)
    requires c in cs
    ensures Get(NameMap(cs), c.name).Some?
  {
    var last := cs[|cs| - 1];
    PutGet(NameMap(cs[..|cs| - 1]), last.name, last.key, c.name);
    if last.name != c.name {
      assert c in cs[..|cs| - 1];
      NameMapComplete(cs[..|cs| - 1], c);
    }
  }

  /** A value placeholder the value map holds is one of its clauses'
      placeholders, with that clause's value. */
  lemma {:induction false} ValueMapSound(cs: seq<WhereClause>, p: string)
    requires Get(ValueMap(cs), p).Some?
    ensures exists c :: c in cs && c.valueName == p && Get(ValueMap(cs), p) == Some(c.value)
  {
    var last := cs[|cs| - 1];
    PutGet(ValueMap(cs[..|cs| - 1]), last.valueName, last.value, p);
    if last.valueName != p {
      ValueMapSound(cs[..|cs| - 1], p);
    }
  }

  /** Every clause's value placeholder is in the value map. */
  lemma {:induction false} ValueMapComplete(cs: seq<WhereClause>, c: WhereClause)
    requires c in cs
    ensures Get(ValueMap(cs), c.valueName).Some?
  {
    var last := cs[|cs| - 1];
    PutGet(ValueMap(cs[..|cs| - 1]), last.valueName, last.value, c.valueName);
    if last.valueName != c.valueName {
      assert c in cs[..|cs| - 1];
      ValueMapComplete(cs[..|cs| - 1], c);
    }
  }

  /** In the intended builder every name placeholder stands for a key the
      schema has, and is "#uek" or "#uok" followed by that key. */
  lemma WhereIntendedNamesSound(schema: Schema, equalClause: Value, otherConditionalClause: Value, p: string)
    requires WhereIntended(schema, equalClause, otherConditionalClause).Ok?
    requires Get(WhereIntended(schema, equalClause, otherConditionalClause).value.names, p).Some?
    ensures var key := Get(WhereIntended(schema, equalClause, otherConditionalClause).value.names, p).value;
            Lookup(schema, key).Some? && (p == "#uek" + key || p == "#uok" + key)
  {
    var equalKeys := ObjectKeys(equalClause).value;
    var conditionalKeys := ObjectKeys(otherConditionalClause).value;
    var eq := EqualClauses(schema, equalClause, equalKeys).value;
    var other := OtherClauses(schema, otherConditionalClause, conditionalKeys).value;
    EqualClausesSound(schema, equalClause, equalKeys);
    OtherClausesSound(schema, otherConditionalClause, conditionalKeys);
    NameMapSound(eq + other, p);
  }

  /** In the intended builder every value placeholder is ":uev" + key for a
      key the schema has, standing for the equality clause's value there,
      or ":uov" + key, standing for the `value` of that key's entry. */
  lemma WhereIntendedValuesSound(schema: Schema, equalClause: Value, otherConditionalClause: Value, p: string)
    requires WhereIntended(schema, equalClause, otherConditionalClause).Ok?
    requires Get(WhereIntended(schema, equalClause, otherConditionalClause).value.values, p).Some?
    ensures var v := Get(WhereIntended(schema, equalClause, otherConditionalClause).value.values, p).value;
            exists key :: Lookup(schema, key).Some? &&
              ((p == ":uev" + key && GetProperty(equalClause, key) == Ok(v)) ||
               (p == ":uov" + key && OtherValue(otherConditionalClause, key) == Ok(v)))
  {
    var equalKeys := ObjectKeys(equalClause).value;
    var conditionalKeys := ObjectKeys(otherConditionalClause).value;
    var eq := EqualClauses(schema, equalClause, equalKeys).value;
    var other := OtherClauses(schema, otherConditionalClause, conditionalKeys).value;
    EqualClausesSound(schema, equalClause, equalKeys);
    OtherClausesSound(schema, otherConditionalClause, conditionalKeys);
    ValueMapSound(eq + other, p);
    var c: WhereClause :| c in eq + other && c.valueName == p && Get(ValueMap(eq + other), p) == Some(c.value);
    assert Lookup(schema, c.key).Some?;
  }

  /** A name placeholder held by the map names `key` when every clause
      under that placeholder is for `key`. */
  lemma NameMapOfPlaceholder(cs: seq<WhereClause>, p: string, key: string)
    requires Get(NameMap(cs), p).Some?
    requires forall c :: c in cs && c.name == p ==> c.key == key
    ensures Get(NameMap(cs), p) == Some(key)
  {
    NameMapSound(cs, p);
  }

  /** A value placeholder held by the map stands for `v` when every clause
      under that placeholder has value `v`. */
  lemma ValueMapOfPlaceholder(cs: seq<WhereClause>, p: string, v: Value)
    requires Get(ValueMap(cs), p).Some?
    requires forall c :: c in cs && c.valueName == p ==> c.value == v
    ensures Get(ValueMap(cs), p) == Some(v)
  {
    ValueMapSound(cs, p);
  }

  /** Among clauses named "#uek" or "#uok" followed by their key, the
      placeholder "#uek" + k or "#uok" + k is only ever that of `k`. */
  lemma PlaceholderNamesKey(cs: seq<WhereClause>, p: string, k: string)
    requires forall c :: c in cs ==> c.name == "#uek" + c.key || c.name == "#uok" + c.key
    requires p == "#uek" + k || p == "#uok" + k
    ensures forall d :: d in cs && d.name == p ==> d.key == k
  {
    forall d | d in cs && d.name == p
      ensures d.key == k
    {
      assert d.name[4..] == k;
      assert ("#uek" + d.key)[4..] == d.key;
      assert ("#uok" + d.key)[4..] == d.key;
    }
  }

  /** Among equality clauses under ":uev" + key and other clauses under
      ":uov" + key, ":uev" + k is only ever the placeholder of `k`'s
      equality value. */
  lemma EqualValuePlaceholder(eq: seq<WhereClause>, other: seq<WhereClause>, equalClause: Value, k: string)
    requires forall c :: c in eq ==> c.valueName == ":uev" + c.key && GetProperty(equalClause, c.key) == Ok(c.value)
    requires forall c :: c in other ==> c.valueName == ":uov" + c.key
    ensures forall d :: d in eq + other && d.valueName == ":uev" + k ==> GetProperty(equalClause, k) == Ok(d.value)
  {
    forall d | d in eq + other && d.valueName == ":uev" + k
      ensures GetProperty(equalClause, k) == Ok(d.value)
    {
      assert d.valueName[2] == 'e';
      assert (":uov" + d.key)[2] == 'o';
      assert d.valueName[4..] == k;
      assert (":uev" + d.key)[4..] == d.key;
    }
  }

  /** And ":uov" + k only ever that of the `value` of `k`'s entry. */
  lemma OtherValuePlaceholder(eq: seq<WhereClause>, other: seq<WhereClause>, otherClause: Value, k: string)
    requires forall c :: c in eq ==> c.valueName == ":uev" + c.key
    requires forall c :: c in other ==> c.valueName == ":uov" + c.key && OtherValue(otherClause, c.key) == Ok(c.value)
    ensures forall d :: d in eq + other && d.valueName == ":uov" + k ==> OtherValue(otherClause, k) == Ok(d.value)
  {
    forall d | d in eq + other && d.valueName == ":uov" + k
      ensures OtherValue(otherClause, k) == Ok(d.value)
    {
      assert d.valueName[2] == 'o';
      assert (":uev" + d.key)[2] == 'e';
      assert d.valueName[4..] == k;
      assert (":uov" + d.key)[4..] == d.key;
    }
  }

  /** The "#uek" and "#uok" placeholders never meet: each key of the
      equality clause that the schema has is named by "#uek" + key. */
  lemma WhereIntendedNamesComplete(schema: Schema, equalClause: Value, otherConditionalClause: Value, k: string)
    requires WhereIntended(schema, equalClause, otherConditionalClause).Ok?
    requires k in ObjectKeys(equalClause).value && Lookup(schema, k).Some?
    ensures Get(WhereIntended(schema, equalClause, otherConditionalClause).value.names, "#uek" + k) == Some(k)
  {
    var equalKeys := ObjectKeys(equalClause).value;
    var conditionalKeys := ObjectKeys(otherConditionalClause).value;
    var eq := EqualClauses(schema, equalClause, equalKeys).value;
    var other := OtherClauses(schema, otherConditionalClause, conditionalKeys).value;
    EqualClausesSound(schema, equalClause, equalKeys);
    OtherClausesSound(schema, otherConditionalClause, conditionalKeys);
    EqualClausesComplete(schema, equalClause, equalKeys, k);
    var c :| c in eq && c.key == k;
    NameMapComplete(eq + other, c);
    assert forall d :: d in eq + other ==> d.name == "#uek" + d.key || d.name == "#uok" + d.key;
    PlaceholderNamesKey(eq + other, "#uek" + k, k);
    NameMapOfPlaceholder(eq + other, "#uek" + k, k);
  }

  /** Likewise each key of the other clause that the schema has is named
      by "#uok" + key. */
  lemma WhereIntendedOtherNamesComplete(schema: Schema, equalClause: Value, otherConditionalClause: Value, k: string)
    requires WhereIntended(schema, equalClause, otherConditionalClause).Ok?
    requires k in ObjectKeys(otherConditionalClause).value && Lookup(schema, k).Some?
    ensures Get(WhereIntended(schema, equalClause, otherConditionalClause).value.names, "#uok" + k) == Some(k)
  {
    var equalKeys := ObjectKeys(equalClause).value;
    var conditionalKeys := ObjectKeys(otherConditionalClause).value;
    var eq := EqualClauses(schema, equalClause, equalKeys).value;
    var other := OtherClauses(schema, otherConditionalClause, conditionalKeys).value;
    EqualClausesSound(schema, equalClause, equalKeys);
    OtherClausesSound(schema, otherConditionalClause, conditionalKeys);
    OtherClausesComplete(schema, otherConditionalClause, conditionalKeys, k);
    var c :| c in other && c.key == k;
    NameMapComplete(eq + other, c);
    assert forall d :: d in eq + other ==> d.name == "#uek" + d.key || d.name == "#uok" + d.key;
    PlaceholderNamesKey(eq + other, "#uok" + k, k);
    NameMapOfPlaceholder(eq + other, "#uok" + k, k);
  }

  /** Each key of the equality clause that the schema has gets the value
      placeholder ":uev" + key, standing for the equality clause's value
      at that key. */
  lemma WhereIntendedValuesComplete(schema: Schema, equalClause: Value, otherConditionalClause: Value, k: string)
    requires WhereIntended(schema, equalClause, otherConditionalClause).Ok?
    requires k in ObjectKeys(equalClause).value && Lookup(schema, k).Some?
    ensures GetProperty(equalClause, k).Ok?
    ensures Get(WhereIntended(schema, equalClause, otherConditionalClause).value.values, ":uev" + k) ==
              Some(GetProperty(equalClause, k).value)
  {
    var equalKeys := ObjectKeys(equalClause).value;
    var conditionalKeys := ObjectKeys(otherConditionalClause).value;
    var eq := EqualClauses(schema, equalClause, equalKeys).value;
    var other := OtherClauses(schema, otherConditionalClause, conditionalKeys).value;
    EqualClausesSound(schema, equalClause, equalKeys);
    OtherClausesSound(schema, otherConditionalClause, conditionalKeys);
    EqualClausesComplete(schema, equalClause, equalKeys, k);
    var c :| c in eq && c.key == k;
    ValueMapComplete(eq + other, c);
    EqualValuePlaceholder(eq, other, equalClause, k);
    ValueMapOfPlaceholder(eq + other, ":uev" + k, c.value);
  }

  /** Each key of the other clause that the schema has gets the value
      placeholder ":uov" + key, standing for the `value` of that key's
      entry. */
  lemma WhereIntendedOtherValuesComplete(schema: Schema, equalClause: Value, otherConditionalClause: Value, k: string)
    requires WhereIntended(schema, equalClause, otherConditionalClause).Ok?
    requires k in ObjectKeys(otherConditionalClause).value && Lookup(schema, k).Some?
    ensures OtherValue(otherConditionalClause, k).Ok?
    ensures Get(WhereIntended(schema, equalClause, otherConditionalClause).value.values, ":uov" + k) ==
              Some(OtherValue(otherConditionalClause, k).value)
  {
    var equalKeys := ObjectKeys(equalClause).value;
    var conditionalKeys := ObjectKeys(otherConditionalClause).value;
    var eq := EqualClauses(schema, equalClause, equalKeys).value;
    var other := OtherClauses(schema, otherConditionalClause, conditionalKeys).value;
    EqualClausesSound(schema, equalClause, equalKeys);
    OtherClausesSound(schema, otherConditionalClause, conditionalKeys);
    OtherClausesComplete(schema, otherConditionalClause, conditionalKeys, k);
    var c :| c in other && c.key == k;
    ValueMapComplete(eq + other, c);
    OtherValuePlaceholder(eq, other, otherConditionalClause, k);
    ValueMapOfPlaceholder(eq + other, ":uov" + k, c.value);
  }

  /** The intended condition is the clauses' texts with " AND " between
      them: empty without clauses, otherwise starting with the first
      clause and ending with the last, so no " AND " dangles at its end. */
  lemma WhereIntendedJoin(schema: Schema, equalClause: Value, otherConditionalClause: Value)
    requires WhereClauses(schema, equalClause, otherConditionalClause).Ok?
    ensures var cs := WhereClauses(schema, equalClause, otherConditionalClause).value;
            var e := WhereIntended(schema, equalClause, otherConditionalClause).value.expression;
            && (cs == [] ==> e == "")
            && (cs != [] ==> cs[0].text <= e && EndsWith(e, cs[|cs| - 1].text))
  {
    var cs := WhereClauses(schema, equalClause, otherConditionalClause).value;
    if cs != [] {
      JoinEnds(Texts(cs), " AND ");
    }
  }

  /** Whenever the intended builder has a clause to build, the builder as
      written throws instead. */
  lemma WhereAsWrittenThrowsOnClauses(schema: Schema, equalClause: Value, otherConditionalClause: Value)
    requires WhereClauses(schema, equalClause, otherConditionalClause).Ok?
    requires WhereClauses(schema, equalClause, otherConditionalClause).value != []
    ensures WhereAsWritten(schema, equalClause, otherConditionalClause).Err?
  {
    var equalKeys := ObjectKeys(equalClause).value;
    var conditionalKeys := ObjectKeys(otherConditionalClause).value;
    var eq := EqualClauses(schema, equalClause, equalKeys).value;
    var other := OtherClauses(schema, otherConditionalClause, conditionalKeys).value;
    EqualClausesSound(schema, equalClause, equalKeys);
    OtherClausesSound(schema, otherConditionalClause, conditionalKeys);
    var c := (eq + other)[0];
    if c in eq {
      var i :| 0 <= i < |equalKeys| && equalKeys[i] == c.key;
      assert SomeKeyInSchema(schema, equalKeys);
    } else {
      var i :| 0 <= i < |conditionalKeys| && conditionalKeys[i] == c.key;
      assert SomeKeyInSchema(schema, conditionalKeys);
    }
  }
}
