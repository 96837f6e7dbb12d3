/**
 * JSON-like values as Python's json module hands them to the bot, and the
 * Python operations on them that the bot relies on: subscripting
 * (operator.getitem), dict.get with a default, and truthiness.
 * Wherever Python would raise, these functions return None.
 */
module Json {
  import opened Wrappers

  /** A decoded JSON document. Numbers are integers in this model. */
  datatype Json =
    | JNull
    | JBool(b: bool)
    | JNum(n: int)
    | JStr(s: string)
    | JArr(items: seq<Json>)
    | JObj(fields: map<string, Json>)

  /** A subscript: a string key for a dict, an integer index for a list or a string. */
  datatype Key = Field(name: string) | Index(i: int)

  /** The empty dict `{}` that several operations fall back to. */
  const EmptyObject: Json := JObj(map[])

  /** Python's index rule for lists and strings: -(len as int) <= i < len, negative indices count from the end. */
  function Position(i: int, len: nat): (r: Option<nat>)
    ensures r.Some? <==> -(len as int) <= i < len
    ensures r.Some? ==> r.value < len && (r.value == i || r.value == len + i)
  {
    if 0 <= i < len then Some(i)
    else if -(len as int) <= i < 0 then Some(len + i)
    else None
  }

  /**
   * operator.getitem(v, k). None stands for the KeyError, IndexError or
   * TypeError Python raises: a missing key, an index out of range, or a
   * value that cannot be subscripted by that kind of key.
   */
  function GetItem(v: Json, k: Key): (r: Option<Json>)
    ensures r.Some? ==> v.JObj? || v.JArr? || v.JStr?
    ensures v.JObj? && k.Field? ==> (r.Some? <==> k.name in v.fields)
    ensures v.JObj? && k.Field? && k.name in v.fields ==> r == Some(v.fields[k.name])
    ensures v.JArr? && k.Index? ==>
      match Position(k.i, |v.items|)
      case None => r.None?
      case Some(p) => r == Some(v.items[p])
    ensures v.JStr? && k.Index? ==>
      match Position(k.i, |v.s|)
      case None => r.None?
      case Some(p) => r == Some(JStr([v.s[p]]))
  {
    match (v, k)
    case (JObj(m), Field(name)) =>
      if name in m then Some(m[name]) else None
    case (JArr(xs), Index(i)) =>
      (match Position(i, |xs|)
       case Some(p) => Some(xs[p])
       case None => None)
    case (JStr(s), Index(i)) =>
      (match Position(i, |s|)
       case Some(p) => Some(JStr([s[p]]))
       case None => None)
    case _ => None
  }

  /** v.get(key, default); None when v is not a dict (it has no `get`, so Python raises). */
  function DictGet(v: Json, key: string, default: Json): (r: Option<Json>)
    ensures r.Some? <==> v.JObj?
    ensures v.JObj? && key !in v.fields ==> r == Some(default)
    ensures v.JObj? && key in v.fields ==> r == Some(v.fields[key])
  {
    match v
    case JObj(m) => Some(if key in m then m[key] else default)
    case _ => None
  }

  /** Python truthiness: null, false, 0 and empty strings, lists and dicts are falsy. */
  predicate Truthy(v: Json)
    ensures !Truthy(v) <==> v in {JNull, JBool(false), JNum(0), JStr([]), JArr([]), EmptyObject}
  {
    match v
    case JNull => false
    case JBool(b) => b
    case JNum(n) => n != 0
    case JStr(s) => s != []
    case JArr(xs) => xs != []
    case JObj(m) => m != map[]
  }
}
