/** Plain JavaScript values as the helpers of the library see them, and the
    few language operations those helpers depend on: truthiness, conversion
    to a string or a number, enumeration with `for...in` and `for...of`,
    property reads and keyed assignment on objects, and JSON text. */
module JsValues {

  datatype Option<+T> = None | Some(value: T)

  /** An exception thrown while running the helpers. */
  datatype JsError =
    | Thrown(message: string)        // `throw new Error(message)` in the library
    | TypeError(reason: string)      // raised by the language itself
    | ReferenceError(name: string)   // a read of an identifier that is not declared

  /** What a call that may throw produces; usable with `:-`. */
  datatype Result<+T> = Ok(value: T) | Err(error: JsError) {
    predicate IsFailure() { Err? }
    function PropagateFailure<U>(): Result<U> requires Err? { Err(error) }
    function Extract(): T requires Ok? { value }
  }

  /** A JavaScript value. Numbers are integers; an object lists its own
      properties in the order `for...in` visits them. */
  datatype Value =
    | Str(s: string)
    | Num(n: int)
    | Bool(b: bool)
    | Null
    | Undefined
    | Arr(items: seq<Value>)
    | Obj(fields: seq<(string, Value)>)

  /** `!!v`: the falsy values are "", 0, false, null and undefined. */
  predicate Truthy(v: Value) {
    match v
    case Str(s) => s != ""
    case Num(n) => n != 0
    case Bool(b) => b
    case Null => false
    case Undefined => false
    case Arr(_) => true
    case Obj(_) => true
  }

  // ----- Objects: property reads and keyed assignment -----

  /** `m[k]` on an object given by its properties: the binding that was
      assigned last, as in an object literal that repeats a key. */
  function Get<V>(m: seq<(string, V)>, k: string): Option<V> {
    if m == [] then None
    else if m[|m| - 1].0 == k then Some(m[|m| - 1].1)
    else Get(m[..|m| - 1], k)
  }

  /** Reading a key after appending a binding. */
  lemma GetAppend<V>(m: seq<(string, V)>, a: string, x: V, k: string)
    ensures Get(m + [(a, x)], k) == if a == k then Some(x) else Get(m, k)
  {
    assert (m + [(a, x)])[..|m|] == m;
  }

  /** A read misses exactly when no property has the key. */
  lemma {:induction false} GetMissing<V>(m: seq<(string, V)>, k: string)
    ensures Get(m, k).None? <==> forall i :: 0 <= i < |m| ==> m[i].0 != k
  {
    if m != [] {
      var init := m[..|m| - 1];
      GetMissing(init, k);
      assert forall i :: 0 <= i < |init| ==> init[i] == m[i];
    }
  }

  /** A read that hits returns the value of a property with that key. */
  lemma {:induction false} GetFound<V>(m: seq<(string, V)>, k: string)
    requires Get(m, k).Some?
    ensures exists i :: 0 <= i < |m| && m[i] == (k, Get(m, k).value)
  {
    if m[|m| - 1].0 != k {
      var init := m[..|m| - 1];
      GetFound(init, k);
      var i :| 0 <= i < |init| && init[i] == (k, Get(init, k).value);
      assert m[i] == init[i];
    }
  }

  /** A JavaScript object never holds two properties with the same name. */
  predicate DistinctKeys<V>(m: seq<(string, V)>) {
    forall i, j :: 0 <= i < j < |m| ==> m[i].0 != m[j].0
  }

  /** `m[k] = v`: an existing property keeps its place, a new one goes last. */
  function Put<V>(m: seq<(string, V)>, k: string, v: V): seq<(string, V)> {
    if m == [] then [(k, v)]
    else if m[|m| - 1].0 == k then m[..|m| - 1] + [(k, v)]
    else if Get(m[..|m| - 1], k).None? then m + [(k, v)]
    else Put(m[..|m| - 1], k, v) + [m[|m| - 1]]
  }

  /** Assigning a key the object does not have appends it. */
  lemma PutNew<V>(m: seq<(string, V)>, k: string, v: V)
    requires Get(m, k).None?
    ensures Put(m, k, v) == m + [(k, v)]
  {
    if m != [] {
      assert m[|m| - 1].0 != k;
    }
  }

  /** After `m[k] = v`, reading `k` gives `v` and every other key reads as
      before. */
  lemma {:induction false} PutGet<V>(m: seq<(string, V)>, k: string, v: V, k': string)
    ensures Get(Put(m, k, v), k') == if k' == k then Some(v) else Get(m, k')
  {
    if m != [] {
      var init := m[..|m| - 1];
      var last := m[|m| - 1];
      assert m == init + [last];
      GetAppend(init, last.0, last.1, k');
      if last.0 == k {
        GetAppend(init, k, v, k');
      } else if Get(init, k).None? {
        GetAppend(m, k, v, k');
      } else {
        PutGet(init, k, v, k');
        GetAppend(Put(init, k, v), last.0, last.1, k');
      }
    }
  }

  /** How deeply arrays and objects nest inside a value. */
  function Depth(v: Value): nat {
    match v
    case Arr(xs) => 1 + MaxOf(seq(|xs|, i requires 0 <= i < |xs| => Depth(xs[i])))
    case Obj(fs) => 1 + MaxOf(seq(|fs|, i requires 0 <= i < |fs| => Depth(fs[i].1)))
    case _ => 0
  }

  function MaxOf(s: seq<nat>): (r: nat)
    ensures forall i :: 0 <= i < |s| ==> s[i] <= r
  {
    if s == [] then 0 else var m := MaxOf(s[1..]); if s[0] > m then s[0] else m
  }

  /** An element `for...of` yields is shallower than an array it comes
      from, or is a one-character string. */
  lemma DepthOfIterated(v: Value, i: nat)
    requires Iterate(v).Ok? && i < |Iterate(v).value|
    ensures Depth(Iterate(v).value[i]) < Depth(v) || Iterate(v).value[i].Str?
  {
    if v.Arr? {
      var ds := seq(|v.items|, j requires 0 <= j < |v.items| => Depth(v.items[j]));
      assert ds[i] == Depth(v.items[i]);
    }
  }

  // ----- Numbers and their decimal text -----

  predicate IsDigit(c: char) { '0' <= c <= '9' }

  predicate AllDigits(s: string) { forall i :: 0 <= i < |s| ==> IsDigit(s[i]) }

  function DigitChar(d: nat): (c: char)
    requires d < 10
    ensures IsDigit(c) && (c as int) - ('0' as int) == d
  {
    (('0' as int) + d) as char
  }

  /** The decimal text of a natural number, without leading zeros. */
  function NatToDecimal(n: nat): (r: string)
    ensures r != [] && AllDigits(r)
    ensures r[0] == '0' ==> n == 0 && r == "0"
  {
    if n < 10 then [DigitChar(n)] else NatToDecimal(n / 10) + [DigitChar(n % 10)]
  }

  /** `'' + n` for an integer number. */
  function IntToDecimal(n: int): string {
    if n < 0 then "-" + NatToDecimal(-n) else NatToDecimal(n)
  }

  /** The number a string of decimal digits stands for. */
  function DigitsValue(s: string): nat
    requires AllDigits(s)
  {
    if s == [] then 0 else DigitsValue(s[..|s| - 1]) * 10 + ((s[|s| - 1] as int) - ('0' as int))
  }

  /** `Number(s)` for the strings read as integers: optional sign, then
      decimal digits; the empty string is 0. Every other string is NaN (None). */
  function StringToNumber(s: string): Option<int> {
    if s == "" then Some(0)
    else if (s[0] == '-' || s[0] == '+') && |s| > 1 && AllDigits(s[1..]) then
      var magnitude: int := DigitsValue(s[1..]);
      Some(if s[0] == '-' then -magnitude else magnitude)
    else if AllDigits(s) then Some(DigitsValue(s))
    else None
  }

  lemma {:induction false} DigitsValueOfDecimal(n: nat)
    ensures DigitsValue(NatToDecimal(n)) == n
  {
    if n >= 10 {
      var init := NatToDecimal(n / 10);
      var s := init + [DigitChar(n % 10)];
      assert s[..|s| - 1] == init;
      DigitsValueOfDecimal(n / 10);
    }
  }

  /** Decimal text read back as a number gives the number again. */
  lemma DecimalRoundTrip(n: int)
    ensures StringToNumber(IntToDecimal(n)) == Some(n)
  {
    if n < 0 {
      var s := IntToDecimal(n);
      assert s[1..] == NatToDecimal(-n);
      DigitsValueOfDecimal(-n);
    } else {
      DigitsValueOfDecimal(n);
    }
  }

  /** A property key that denotes an array or string index: digits with no
      leading zero. */
  function CanonicalIndex(key: string): (r: Option<nat>)
    ensures r.Some? ==> NatToDecimal(r.value) == key
  {
    if key != "" && AllDigits(key) && (key[0] != '0' || key == "0") then
      CanonicalDecimal(key);
      Some(DigitsValue(key))
    else None
  }

  lemma {:induction false} CanonicalDecimal(key: string)
    requires key != "" && AllDigits(key) && (key[0] != '0' || key == "0")
    ensures NatToDecimal(DigitsValue(key)) == key
  {
    if |key| > 1 {
      var init := key[..|key| - 1];
      assert init[0] == key[0];
      CanonicalDecimal(init);
      var d := (key[|key| - 1] as int) - ('0' as int);
      assert DigitsValue(key) / 10 == DigitsValue(init) && DigitsValue(key) % 10 == d;
      assert key == init + [key[|key| - 1]];
    } else if key != "0" {
      assert key == [key[0]];
    }
  }

  // ----- Conversions -----

  /** Joins strings with a separator, as `Array.prototype.join` does. */
  function Join(parts: seq<string>, sep: string): string {
    if parts == [] then ""
    else if |parts| == 1 then parts[0]
    else parts[0] + sep + Join(parts[1..], sep)
  }

  /** `s.endsWith(t)`. */
  predicate EndsWith(s: string, t: string) {
    |t| <= |s| && s[|s| - |t|..] == t
  }

  /** A join of some parts starts with the first part and ends with the last. */
  lemma {:induction false} JoinEnds(parts: seq<string>, sep: string)
    requires parts != []
    ensures parts[0] <= Join(parts, sep)
    ensures EndsWith(Join(parts, sep), parts[|parts| - 1])
  {
    if |parts| > 1 {
      JoinEnds(parts[1..], sep);
      var rest := Join(parts[1..], sep);
      var last := parts[|parts| - 1];
      assert parts[1..][|parts[1..]| - 1] == last;
      var j := parts[0] + sep + rest;
      assert j[|j| - |last|..] == rest[|rest| - |last|..];
    }
  }

  /** `String(v)`, which is also what `'' + v` and a template literal give. */
  function ToJsString(v: Value): string {
    match v
    case Str(s) => s
    case Num(n) => IntToDecimal(n)
    case Bool(b) => if b then "true" else "false"
    case Null => "null"
    case Undefined => "undefined"
    case Arr(xs) =>
      // an array joins its elements with commas; null and undefined print as ""
      Join(seq(|xs|, i requires 0 <= i < |xs| =>
        if xs[i].Null? || xs[i].Undefined? then "" else ToJsString(xs[i])), ",")
    case Obj(_) => "[object Object]"
  }

  /** `Number(v)`, with None for NaN. */
  function ToNumber(v: Value): Option<int> {
    match v
    case Num(n) => Some(n)
    case Bool(b) => Some(if b then 1 else 0)
    case Null => Some(0)
    case Undefined => None
    case _ => StringToNumber(ToJsString(v))
  }

  /** `v > -1` for any value. */
  predicate GreaterThanMinusOne(v: Value) {
    var n := ToNumber(v);
    n.Some? && n.value > -1
  }

  // ----- Enumeration -----

  /** The key and value pairs a `for...in` loop visits, with the value that
      reading each key gives: an object's own properties, the indices of an
      array or a string, and nothing for any other value. */
  function Entries(v: Value): (r: seq<(string, Value)>)
    ensures forall i :: 0 <= i < |r| ==> r[i].1 < v || r[i].1.Str?
  {
    match v
    case Obj(fs) => fs
    case Arr(xs) => seq(|xs|, i requires 0 <= i < |xs| => (NatToDecimal(i), xs[i]))
    case Str(s) => seq(|s|, i requires 0 <= i < |s| => (NatToDecimal(i), Str([s[i]])))
    case _ => []
  }

  /** The values a `for...of` loop visits; anything but an array or a string
      is not iterable. */
  function Iterate(v: Value): (r: Result<seq<Value>>)
    ensures r.Ok? <==> v.Arr? || v.Str?
  {
    match v
    case Arr(xs) => Ok(xs)
    case Str(s) => Ok(seq(|s|, i requires 0 <= i < |s| => Str([s[i]])))
    case _ => Err(TypeError("is not iterable"))
  }

  /** `Object.keys(v)`. */
  function ObjectKeys(v: Value): (r: Result<seq<string>>)
    ensures r.Ok? <==> !(v.Null? || v.Undefined?)
  {
    if v.Null? || v.Undefined? then Err(TypeError("Cannot convert undefined or null to object"))
    else var es := Entries(v); Ok(seq(|es|, i requires 0 <= i < |es| => es[i].0))
  }

  /** `Object.values(v)`. */
  function ObjectValues(v: Value): (r: Result<seq<Value>>)
    ensures r.Ok? <==> !(v.Null? || v.Undefined?)
  {
    if v.Null? || v.Undefined? then Err(TypeError("Cannot convert undefined or null to object"))
    else var es := Entries(v); Ok(seq(|es|, i requires 0 <= i < |es| => es[i].1))
  }

  /** `v[name]`: reading a property of null or undefined throws. */
  function GetProperty(v: Value, name: string): Result<Value> {
    match v
    case Null => Err(TypeError("Cannot read properties of null"))
    case Undefined => Err(TypeError("Cannot read properties of undefined"))
    case Obj(fs) => Ok(match Get(fs, name) case Some(x) => x case None => Undefined)
    case Arr(xs) => Ok(if name == "length" then Num(|xs|) else
        match CanonicalIndex(name) case Some(i) => if i < |xs| then xs[i] else Undefined
                                   case None => Undefined)
    case Str(s) => Ok(StringProperty(s, name))
    case _ => Ok(Undefined)
  }

  /** `name in v`: the `in` operator, which throws unless `v` is an object. */
  function HasProperty(v: Value, name: string): (r: Result<bool>)
    ensures r.Ok? <==> v.Obj? || v.Arr?
    ensures v.Obj? ==> (r == Ok(true) <==> Get(v.fields, name).Some?)
  {
    match v
    case Obj(fs) => Ok(Get(fs, name).Some?)
    case Arr(xs) =>
      Ok(name == "length" || (CanonicalIndex(name).Some? && CanonicalIndex(name).value < |xs|))
    case _ => Err(TypeError("Cannot use 'in' operator to search for '" + name + "' in " + ToJsString(v)))
  }

  /** `s[name]` on a string: one character at an index, the length, and
      undefined for any other name. */
  function StringProperty(s: string, name: string): (r: Value)
    ensures r.Str? ==> |r.s| == 1
  {
    if name == "length" then Num(|s|)
    else match CanonicalIndex(name)
      case Some(i) => if i < |s| then Str([s[i]]) else Undefined
      case None => Undefined
  }

  // ----- JSON text -----

  function HexDigit(d: nat): char
    requires d < 16
  {
    "0123456789abcdef"[d]
  }

  /** The JSON escape of one character of a string. */
  function EscapeChar(c: char): string {
    if c == '"' then "\\\""
    else if c == '\\' then "\\\\"
    else if c == '\n' then "\\n"
    else if c == '\r' then "\\r"
    else if c == '\t' then "\\t"
    else if c == 8 as char then "\\b"
    else if c == 12 as char then "\\f"
    else if (c as int) < 0x20 then
      "\\u00" + [HexDigit((c as int) / 16), HexDigit((c as int) % 16)]
    else [c]
  }

  function Quote(s: string): (r: string)
    ensures |r| >= 2
  {
    "\"" + Concat(seq(|s|, i requires 0 <= i < |s| => EscapeChar(s[i]))) + "\""
  }

  function Concat(parts: seq<string>): string {
    if parts == [] then "" else Concat(parts[..|parts| - 1]) + parts[|parts| - 1]
  }

  /** `JSON.stringify(v)` for a value that is not undefined itself; inside
      an array undefined prints as null, inside an object it is left out. */
  function JsonText(v: Value): string {
    match v
    case Str(s) => Quote(s)
    case Num(n) => IntToDecimal(n)
    case Bool(b) => if b then "true" else "false"
    case Null => "null"
    case Undefined => "null"
    case Arr(xs) =>
      "[" + Join(seq(|xs|, i requires 0 <= i < |xs| => JsonText(xs[i])), ",") + "]"
    case Obj(fs) =>
      var members := seq(|fs|, i requires 0 <= i < |fs| =>
        if fs[i].1.Undefined? then "" else Quote(fs[i].0) + ":" + JsonText(fs[i].1));
      "{" + Join(NonEmpty(members), ",") + "}"
  }

  function NonEmpty(parts: seq<string>): seq<string> {
    if parts == [] then []
    else (if parts[0] == "" then [] else [parts[0]]) + NonEmpty(parts[1..])
  }
}
