/** The JavaScript values the routes and modals receive and build: parsed
    JSON bodies, with `undefined` as the absent `Option`. Numbers are
    integers here; see the README for what that leaves out. */
module Json {
  import opened Util

  datatype Json =
    | JNull
    | JBool(b: bool)
    | JNum(n: int)
    | JStr(s: string)
    | JArr(items: seq<Json>)
    | JObj(fields: map<string, Json>)

  /** JavaScript truthiness of a possibly undefined value: `undefined`,
      `null`, `false`, `0` and `""` are falsy, everything else is truthy. */
  predicate Truthy(v: Option<Json>)
  {
    match v
    case None => false
    case Some(j) =>
      match j
      case JNull => false
      case JBool(b) => b
      case JNum(n) => n != 0
      case JStr(s) => s != ""
      case JArr(_) => true
      case JObj(_) => true
  }

  /** `undefined` or `null`: the values on which `.key` throws and `?.key`
      short-circuits. */
  predicate Nullish(v: Option<Json>)
  {
    v.None? || v.value.JNull?
  }

  /** `v?.key`, and `v.key` where `v` is not nullish (the callers check
      that case separately, since there `v.key` throws): the member of an
      object, and `undefined` for any other kind of value. */
  function Prop(v: Option<Json>, key: string): (r: Option<Json>)
    ensures r.Some? ==> v.Some? && v.value.JObj? && key in v.value.fields
    ensures v.Some? && v.value.JObj? && key in v.value.fields ==> r == Some(v.value.fields[key])
  {
    match v
    case Some(JObj(fields)) => if key in fields then Some(fields[key]) else None
    case _ => None
  }

  /** `String(v)`, the conversion a template literal applies: array items
      are joined by commas with `null` and `undefined` items empty, and any
      object prints as `[object Object]`. */
  function ToStr(v: Option<Json>): string
  {
    match v
    case None => "undefined"
    case Some(j) => JsonToStr(j)
  }

  function JsonToStr(j: Json): string
    decreases j, 1
  {
    match j
    case JNull => "null"
    case JBool(b) => if b then "true" else "false"
    case JNum(n) => IntToString(n)
    case JStr(s) => s
    case JArr(items) => Join(ItemStrs(items, j), ',')
    case JObj(_) => "[object Object]"
  }

  function ItemStrs(items: seq<Json>, ghost parent: Json): (r: seq<string>)
    requires forall x :: x in items ==> x < parent
    ensures |r| == |items|
    decreases parent, 0, |items|
  {
    if items == [] then []
    else
      assert items[0] in items;
      var first := if items[0].JNull? then "" else JsonToStr(items[0]);
      assert forall x :: x in items[1..] ==> x in items;
      [first] + ItemStrs(items[1..], parent)
  }
}
