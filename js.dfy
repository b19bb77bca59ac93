/** The JavaScript values the application handles once `JSON.parse` has run, and
    the operators its code applies to them: truthiness, `||`, optional chaining
    (`v?.k`, `v?.[i]`), `Array.isArray` and `String(v)`. An absent property
    (JavaScript's `undefined`) is `None`. */
module Js {
  import opened Text

  /** A value JSON can describe. Numbers are integers here. */
  datatype Json =
    | JNull
    | JBool(b: bool)
    | JNum(n: int)
    | JStr(s: string)
    | JArr(items: seq<Json>)
    | JObj(fields: map<string, Json>)

  /** An exception's message, or a value. */
  datatype Result<+T> = Ok(value: T) | Err(message: string)

  /** `!!v`: everything is truthy except `undefined`, `null`, `false`, `0` and `""`. */
  predicate Truthy(v: Option<Json>) {
    match v
    case None => false
    case Some(JNull) => false
    case Some(JBool(b)) => b
    case Some(JNum(n)) => n != 0
    case Some(JStr(s)) => s != ""
    case Some(_) => true
  }

  /** `a || b` */
  function Or(a: Option<Json>, b: Json): (r: Json)
    ensures Truthy(a) ==> Some(r) == a
    ensures !Truthy(a) ==> r == b
  {
    if Truthy(a) then a.value else b
  }

  /** `v?.k`: a property of an object; nothing for `undefined`, `null` or a value
      without that property. */
  function Get(v: Option<Json>, k: string): (r: Option<Json>)
    ensures r.Some? ==> v.Some? && v.value.JObj? && k in v.value.fields
  {
    if v.Some? && v.value.JObj? && k in v.value.fields then Some(v.value.fields[k]) else None
  }

  /** `v?.[i]`: an array element, or the property named by the digits of `i`. */
  function At(v: Option<Json>, i: nat): (r: Option<Json>)
    ensures v.Some? && v.value.JArr? ==> (r.Some? <==> i < |v.value.items|)
  {
    match v
    case Some(JArr(xs)) => if i < |xs| then Some(xs[i]) else None
    case Some(JObj(m)) => if NatToString(i) in m then Some(m[NatToString(i)]) else None
    case _ => None
  }

  predicate IsArray(v: Option<Json>) {
    v.Some? && v.value.JArr?
  }

  /** The elements of an array; nothing for any other value. */
  function ItemsOf(v: Option<Json>): (r: seq<Json>)
    ensures !IsArray(v) ==> r == []
  {
    if IsArray(v) then v.value.items else []
  }

  /** `String(v)`: an array joins its elements with "," (a `null` element shows as
      the empty string), an object shows as "[object Object]". */
  function ToStr(v: Json): (r: string)
    ensures v.JStr? ==> r == v.s
    ensures v.JNull? ==> r == "null"
  {
    match v
    case JNull => "null"
    case JBool(b) => if b then "true" else "false"
    case JNum(n) => IntToString(n)
    case JStr(s) => s
    case JArr(items) =>
      Join(seq(|items|, i requires 0 <= i < |items| => if items[i].JNull? then "" else ToStr(items[i])), ",")
    case JObj(_) => "[object Object]"
  }

  /** The strings of `String(x)` for each element: the `.map((x) => String(x))`
      and `${x}` renderings of a list. */
  function ToStrs(xs: seq<Json>): (r: seq<string>)
    ensures |r| == |xs|
    ensures forall i :: 0 <= i < |xs| ==> r[i] == ToStr(xs[i])
  {
    if xs == [] then [] else [ToStr(xs[0])] + ToStrs(xs[1..])
  }

  /** `String(v || "")`: the text of a truthy value, otherwise "". */
  function TextOr(v: Option<Json>): (r: string)
    ensures !Truthy(v) ==> r == ""
    ensures v.Some? && v.value.JStr? ==> r == v.value.s
  {
    if Truthy(v) then ToStr(v.value) else ""
  }

  /** `String(n)` of a non-zero integer is truthy and parses back to `n`. */
  lemma NumberText(n: int)
    ensures ParseInt(ToStr(JNum(n))) == Some(n)
    ensures Truthy(Some(JNum(n))) <==> n != 0
  {
    ParseIntOfIntToString(n);
  }
}
