/** The JavaScript values a parsed websocket message can hold, with the parts of the
    language the gateway applies to them: truthiness, `Object.keys`, property access and
    string conversion. */
module Json {
  import opened Wrappers
  import opened Strings

  /** A value `JSON.parse` returns. Numbers are integers in this model. */
  datatype Value =
    | Null
    | Bool(b: bool)
    | Num(n: int)
    | Str(s: string)
    | Arr(items: seq<Value>)
    | Obj(fields: map<string, Value>)

  /** JavaScript truthiness; `None` is `undefined`. */
  predicate Truthy(v: Option<Value>) {
    match v
    case None => false
    case Some(Null) => false
    case Some(Bool(b)) => b
    case Some(Num(n)) => n != 0
    case Some(Str(s)) => s != ""
    case Some(_) => true
  }

  /** The indices `0 .. n - 1` as property names. */
  function IndexKeys(n: nat): (r: set<string>)
    ensures forall i :: 0 <= i < n ==> NatToString(i) in r
  {
    set i | 0 <= i < n :: NatToString(i)
  }

  /** `Object.keys(v)`: the own enumerable property names; `None` is the TypeError it
      throws for `null`. Strings and arrays have their indices as keys. */
  function OwnKeys(v: Value): (r: Option<set<string>>)
    ensures r.None? <==> v.Null?
    ensures v.Obj? ==> r == Some(v.fields.Keys)
  {
    match v
    case Null => None
    case Bool(_) => Some({})
    case Num(_) => Some({})
    case Str(s) => Some(IndexKeys(|s|))
    case Arr(items) => Some(IndexKeys(|items|))
    case Obj(fields) => Some(fields.Keys)
  }

  /** `v[key]` for a key that is not a built-in property of strings or arrays (the
      gateway only asks for "subscribe", "unsubscribe" and "channels"). */
  function Get(v: Value, key: string): (r: Option<Value>)
    ensures r.Some? <==> v.Obj? && key in v.fields
  {
    if v.Obj? && key in v.fields then Some(v.fields[key]) else None
  }

  /** `String(v)`, as `+` on a string and property lookup apply it: arrays join their
      items with "," (with `null` as ""), objects give "[object Object]". */
  function ToStr(v: Value): string
    decreases v
  {
    match v
    case Null => "null"
    case Bool(b) => if b then "true" else "false"
    case Num(n) => IntToString(n)
    case Str(s) => s
    case Arr(items) =>
      Join(seq(|items|, i requires 0 <= i < |items| => if items[i].Null? then "" else ToStr(items[i])), ",")
    case Obj(_) => "[object Object]"
  }
}
