/** The slice of JavaScript value semantics the access guard relies on:
    the values a parsed JSON record can hold, truthiness (`!!v`), strict
    equality with a string literal, `Array.prototype.includes` on an array
    of strings, object spread, and the string a template literal makes of
    a value that is a string or `null`. */
module JsValues {
  import opened Wrappers

  /** A property value of a record parsed from JSON. Numbers are integers
      here; `Compound` stands for any nested object or array. */
  datatype Value = Str(s: string) | Num(n: int) | Bool(b: bool) | Null | Compound

  /** A plain object: its own enumerable properties. Reading a missing
      property (`Lookup` giving `None`) is `undefined`. */
  type Object = map<string, Value>

  /** The property `name` of `o` when it holds a string; `None` when it
      is missing or holds anything else. */
  function StringProp(o: Object, name: string): (r: Option<string>)
    ensures r.Some? <==> name in o && o[name].Str?
    ensures r.Some? ==> o[name] == Str(r.value)
  {
    if name in o && o[name].Str? then Some(o[name].s) else None
  }

  /** A value that is a string or `null`, as `localStorage.getItem` returns. */
  function Nullable(t: Option<string>): (r: Option<Value>)
    ensures r.Some?
    ensures t.Some? <==> r.value.Str?
    ensures t.Some? ==> r.value.s == t.value
  {
    match t
    case Some(s) => Some(Str(s))
    case None => Some(Null)
  }

  /** `!!v` (and so `!v` and the left operand of `||`): false for
      `undefined`, `null`, `false`, `0` and the empty string; true for
      everything else, nested objects and arrays included. */
  function Truthy(v: Option<Value>): (r: bool)
    ensures !r <==> v in {None, Some(Null), Some(Bool(false)), Some(Num(0)), Some(Str(""))}
  {
    match v
    case None => false
    case Some(Str(s)) => s != ""
    case Some(Num(n)) => n != 0
    case Some(Bool(b)) => b
    case Some(Null) => false
    case Some(Compound) => true
  }

  /** `v === lit` for a string literal `lit`. */
  function IsString(v: Option<Value>, lit: string): (r: bool)
    ensures r <==> v == Some(Str(lit))
  {
    match v
    case Some(Str(x)) => x == lit
    case _ => false
  }

  /** `xs.includes(v)` for an array of strings `xs`: the elements are
      compared with `v` one by one, from the front. */
  function Includes(xs: seq<string>, v: Option<Value>): (r: bool)
    ensures r <==> v.Some? && v.value.Str? && v.value.s in xs
    decreases |xs|
  {
    if |xs| == 0 then false
    else if IsString(v, xs[0]) then true
    else
      var rest := Includes(xs[1..], v);
      assert xs == [xs[0]] + xs[1..];
      rest
  }

  /** `{ ...a, ...b }`: every property of `b`, and the properties of `a`
      that `b` does not override. */
  function Spread(a: Object, b: Object): (r: Object)
    ensures r.Keys == a.Keys + b.Keys
    ensures forall k :: k in b ==> r[k] == b[k]
    ensures forall k :: k in a && k !in b ==> r[k] == a[k]
  {
    a + b
  }

  /** `${t}` for `t` a string or `null`. */
  function TemplateString(t: Option<string>): (r: string)
    ensures t.Some? ==> r == t.value
    ensures t.None? ==> r == "null"
  {
    match Nullable(t)
    case Some(Str(s)) => s
    case _ => "null"
  }
}
