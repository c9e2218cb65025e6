/** JavaScript values as they travel through JSON: the records the services
    build, parse and spread. A property that is absent from an object is
    `undefined`; `Get` returns `None` for it. Numbers are integers here. */
module Json {
  import opened Wrappers
  import opened Strings

  datatype Json =
    | JNull
    | JBool(b: bool)
    | JNum(n: int)
    | JStr(s: string)
    | JArr(items: seq<Json>)
    | JObj(fields: map<string, Json>)

  /** A plain object: its own enumerable properties. */
  type Object = map<string, Json>

  /** `v[key]`: `None` stands for `undefined`; only objects have properties here. */
  function Get(v: Json, key: string): (r: Option<Json>)
    ensures r.Some? <==> v.JObj? && key in v.fields
  {
    if v.JObj? && key in v.fields then Some(v.fields[key]) else None
  }

  function Field(o: Object, key: string): (r: Option<Json>)
    ensures r.Some? <==> key in o
  {
    if key in o then Some(o[key]) else None
  }

  /** JavaScript truthiness; `None` is `undefined`. */
  predicate Truthy(v: Option<Json>) {
    match v
    case None => false
    case Some(JNull) => false
    case Some(JBool(b)) => b
    case Some(JNum(n)) => n != 0
    case Some(JStr(s)) => s != ""
    case Some(JArr(_)) => true
    case Some(JObj(_)) => true
  }

  /** `v ? new Date(v) : null`, a nullable date column: `None` is `null`,
      and `Some(v)` is the date built from `v`. */
  function DateOrNull(v: Option<Json>): (r: Option<Json>)
    ensures r.None? <==> !Truthy(v)
    ensures r.Some? ==> r == v
  {
    if Truthy(v) then v else None
  }

  /** `a ?? b`: `b` only when `a` is `null` or `undefined`. */
  function Coalesce(a: Option<Json>, b: Json): (r: Json)
    ensures (a.None? || a == Some(JNull)) ==> r == b
    ensures a.Some? && a != Some(JNull) ==> r == a.value
  {
    if a.None? || a == Some(JNull) then b else a.value
  }

  /** `{...base, ...overlay}`: the overlay's properties win. */
  function Spread(base: Object, overlay: Object): (r: Object)
    ensures r.Keys == base.Keys + overlay.Keys
    ensures forall k :: k in overlay ==> r[k] == overlay[k]
    ensures forall k :: k in base && k !in overlay ==> r[k] == base[k]
  {
    base + overlay
  }

  /** `String(v)`, which is also what `v.toString()` gives for every value
      other than `null` and `undefined`. */
  function ToString(v: Json): string
    decreases v
  {
    match v
    case JNull => "null"
    case JBool(b) => if b then "true" else "false"
    case JNum(n) => IntToString(n)
    case JStr(s) => s
    case JArr(items) => JoinItems(v, items, 0)
    case JObj(_) => "[object Object]"
  }

  /** `items.join(',')` from index `i` on, with `null` elements as empty text. */
  function JoinItems(whole: Json, items: seq<Json>, i: nat): string
    requires whole.JArr? && whole.items == items && i <= |items|
    decreases whole, |items| - i
  {
    if i == |items| then ""
    else
      var item := if items[i].JNull? then "" else ToString(items[i]);
      item + (if i + 1 < |items| then "," else "") + JoinItems(whole, items, i + 1)
  }

  /** `${v}` in a template literal, where `undefined` prints as such. */
  function TemplateText(v: Option<Json>): string {
    match v
    case None => "undefined"
    case Some(x) => ToString(x)
  }

  /** `v.toString()`: it throws on `null` and `undefined`. */
  function CallToString(v: Option<Json>): (r: Option<string>)
    ensures r.None? <==> v.None? || v == Some(JNull)
  {
    if v.None? || v == Some(JNull) then None else Some(ToString(v.value))
  }

  /** Decimal integers print as `String(n)` prints them and read back. */
  lemma ToStringOfNumber(n: int)
    ensures ParseInt(ToString(JNum(n))) == Some(n)
  {
    IntToStringRoundTrip(n);
  }
}
