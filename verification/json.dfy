/**
 * JavaScript values as the request handlers read them out of a parsed JSON
 * body: `undefined` for an absent key, `null`, booleans, integers and strings.
 */
module JsonValue {
  import opened Outcomes
  import opened Text

  /** A JSON scalar; arrays, objects and fractional numbers are not modelled. */
  datatype Json = Null | Bool(b: bool) | Num(n: int) | Str(s: string)

  /** A parsed JSON object body. */
  type Body = map<string, Json>

  /** `body.key`: `None` stands for `undefined`. */
  function Get(body: Body, key: string): (v: Option<Json>)
    ensures v.Some? <==> key in body
  {
    if key in body then Some(body[key]) else None
  }

  /** JavaScript truthiness, as `!v` and `v || d` test it. */
  predicate Truthy(v: Option<Json>) {
    match v
    case None => false
    case Some(Null) => false
    case Some(Bool(b)) => b
    case Some(Num(n)) => n != 0
    case Some(Str(s)) => s != ""
  }

  /** `String(v)`, and the text that `${v}` puts into a template string. */
  function ToJsString(v: Option<Json>): string {
    match v
    case None => "undefined"
    case Some(Null) => "null"
    case Some(Bool(b)) => if b then "true" else "false"
    case Some(Num(n)) => IntToString(n)
    case Some(Str(s)) => s
  }

  /** A truthy value never renders as the empty string. */
  lemma TruthyText(v: Option<Json>)
    requires Truthy(v)
    ensures ToJsString(v) != ""
  {
  }

  /** `{ ...base, ...over }`: the keys of both objects, each valued from `over` when it has the key. */
  function Spread(base: Body, over: Body): (m: Body)
    ensures m.Keys == base.Keys + over.Keys
    ensures forall k :: k in over ==> m[k] == over[k]
    ensures forall k :: k in base && k !in over ==> m[k] == base[k]
  {
    base + over
  }

  /** Spreading the same object a second time changes nothing, and spreading an empty one changes nothing. */
  lemma SpreadAgain(base: Body, over: Body)
    ensures Spread(Spread(base, over), over) == Spread(base, over)
    ensures Spread(base, map[]) == base
  {
  }
}
