/** The enumerations of constants/constant.js: billing modes, key roles,
    attribute type tags, the default-value table and the update kinds. */
module Constants {
  import opened JsValues

  /** `BILLING_MODE`: the two ways a table is billed. */
  datatype BillingMode = PAY_REQUEST | PROVISIONED

  function BillingModeName(m: BillingMode): string {
    match m
    case PAY_REQUEST => "PAY_PER_REQUEST"
    case PROVISIONED => "PROVISIONED"
  }

  /** `Object.values(BILLING_MODE)`, in declaration order. */
  const BillingModeNames: seq<string> := ["PAY_PER_REQUEST", "PROVISIONED"]

  /** The billing mode a name stands for, if any. */
  function ParseBillingMode(s: string): (r: Option<BillingMode>)
    ensures r.Some? ==> BillingModeName(r.value) == s
    ensures r.None? <==> s !in BillingModeNames
  {
    if s == "PAY_PER_REQUEST" then Some(PAY_REQUEST)
    else if s == "PROVISIONED" then Some(PROVISIONED)
    else None
  }

  /** `KEY_TYPE`: the role of a key attribute. */
  datatype KeyType = PRIMARY_KEY | RANGE

  function KeyTypeName(k: KeyType): string {
    match k
    case PRIMARY_KEY => "HASH"
    case RANGE => "RANGE"
  }

  /** `ATTRIBUTE_TYPE`: the ten attribute type tags of the wire format. */
  datatype AttributeType =
    | STRING | NUMBER | BINARY | BOOL | NULL | MAP | LIST
    | STRING_SET | NUMBER_SET | BINARY_SET

  function Tag(t: AttributeType): string {
    match t
    case STRING => "S"
    case NUMBER => "N"
    case BINARY => "B"
    case BOOL => "BOOL"
    case NULL => "NULL"
    case MAP => "M"
    case LIST => "L"
    case STRING_SET => "SS"
    case NUMBER_SET => "NS"
    case BINARY_SET => "BS"
  }

  /** The attribute type a tag names, if any. */
  function ParseTag(s: string): (r: Option<AttributeType>)
    ensures r.Some? ==> Tag(r.value) == s
  {
    if s == "S" then Some(STRING)
    else if s == "N" then Some(NUMBER)
    else if s == "B" then Some(BINARY)
    else if s == "BOOL" then Some(BOOL)
    else if s == "NULL" then Some(NULL)
    else if s == "M" then Some(MAP)
    else if s == "L" then Some(LIST)
    else if s == "SS" then Some(STRING_SET)
    else if s == "NS" then Some(NUMBER_SET)
    else if s == "BS" then Some(BINARY_SET)
    else None
  }

  /** Every tag is read back as its own type, so the ten tags are distinct. */
  lemma TagsDistinct(t: AttributeType, u: AttributeType)
    ensures ParseTag(Tag(t)) == Some(t)
    ensures Tag(t) == Tag(u) ==> t == u
  {
  }

  /** `DEFAULT_VALUES`, keyed as the source keys it. */
  const DefaultValues: seq<(string, Value)> := [
    ("S", Str("")),
    ("N", Num(0)),
    ("B", Null),
    ("BOOL", Bool(false)),
    ("NULL", Null),
    ("MAP", Obj([])),
    ("LIST", Arr([])),
    ("SS", Arr([])),
    ("NS", Arr([])),
    ("BS", Arr([]))
  ]

  /** A lookup of the default value by tag finds one for eight types, but
      misses for MAP and LIST, whose entries are keyed "MAP" and "LIST"
      instead of "M" and "L". */
  lemma DefaultValueByTag(t: AttributeType)
    ensures Get(DefaultValues, Tag(t)).None? <==> t == MAP || t == LIST
  {
    GetMissing(DefaultValues, Tag(t));
    var keys := seq(|DefaultValues|, i requires 0 <= i < |DefaultValues| => DefaultValues[i].0);
    assert keys == ["S", "N", "B", "BOOL", "NULL", "MAP", "LIST", "SS", "NS", "BS"];
    if t != MAP && t != LIST {
      var i := match t
        case STRING => 0 case NUMBER => 1 case BINARY => 2 case BOOL => 3 case NULL => 4
        case STRING_SET => 7 case NUMBER_SET => 8 case _ => 9;
      assert DefaultValues[i].0 == Tag(t);
    } else {
      assert forall i :: 0 <= i < |keys| ==> keys[i] != Tag(t);
    }
  }

  /** `UPDATE_TYPE`: the three kinds of update expression. */
  datatype UpdateType = SET | ADD | REMOVE

  function UpdateTypeNumber(u: UpdateType): int {
    match u
    case SET => 1
    case ADD => 2
    case REMOVE => 3
  }

  function UpdateTypeName(u: UpdateType): string {
    match u
    case SET => "SET"
    case ADD => "ADD"
    case REMOVE => "REMOVE"
  }

  /** `Object.keys(UPDATE_TYPE)`, in declaration order. */
  const UpdateTypeKeys: seq<string> := ["SET", "ADD", "REMOVE"]

  /** The key at position number - 1 is the name of the kind with that number,
      which is what the update-expression builder relies on. */
  lemma UpdateTypeKeyOrder(u: UpdateType)
    ensures 1 <= UpdateTypeNumber(u) <= |UpdateTypeKeys|
    ensures UpdateTypeKeys[UpdateTypeNumber(u) - 1] == UpdateTypeName(u)
  {
  }
}
