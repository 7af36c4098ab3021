/** The JavaScript values that node configurations hold, and the three
    language operations the core applies to them: object spread
    (`{...v}`), truthiness and `String(v)`. */
module JsValues {
  import opened JsStrings

  /** A JSON-like JavaScript value. Numbers are integers: every number a
      configuration holds in the core is one. */
  datatype Value =
    | Undef
    | Null
    | Bool(b: bool)
    | Num(n: int)
    | Str(s: string)
    | Arr(items: seq<Value>)
    | Obj(fields: map<string, Value>)

  /** A node configuration: an object, as a map from property name to value. */
  type Config = map<string, Value>

  /** The object whose properties are the elements of `items`, keyed by
      their decimal index, as spreading an array or a string produces. */
  function IndexKeyed(items: seq<Value>): (m: Config)
    ensures forall i :: 0 <= i < |items| ==> NatToString(i) in m && m[NatToString(i)] == items[i]
    ensures forall k :: k in m ==> exists i :: 0 <= i < |items| && k == NatToString(i)
  {
    assert forall a: nat, b: nat :: NatToString(a) == NatToString(b) ==> a == b by {
      forall a: nat, b: nat | NatToString(a) == NatToString(b) ensures a == b {
        NatToStringInjective(a, b);
      }
    }
    map i | 0 <= i < |items| :: NatToString(i) := items[i]
  }

  /** The properties `{...v}` copies: an object's own properties, an
      array's or a string's elements under their indices, and nothing for
      `null`, `undefined`, booleans and numbers. */
  function Spread(v: Value): (m: Config)
    ensures v.Obj? ==> m == v.fields
    ensures v.Arr? ==> m == IndexKeyed(v.items)
    ensures v.Str? ==> forall i :: 0 <= i < |v.s| ==> NatToString(i) in m && m[NatToString(i)] == Str([v.s[i]])
    ensures (v.Undef? || v.Null? || v.Bool? || v.Num?) ==> m == map[]
  {
    match v
    case Obj(fields) => fields
    case Arr(items) => IndexKeyed(items)
    case Str(s) =>
      IndexKeyed(seq(|s|, i requires 0 <= i < |s| => Str([s[i]])))
    case _ => map[]
  }

  /** `typeof v === 'object' && v !== null ? v : {}`, spread: arrays and
      objects contribute their properties, everything else nothing. */
  function ObjectOrEmpty(v: Value): (m: Config)
    ensures (v.Obj? || v.Arr?) ==> m == Spread(v)
    ensures !(v.Obj? || v.Arr?) ==> m == map[]
  {
    if v.Obj? || v.Arr? then Spread(v) else map[]
  }

  /** `v[k]` for a value that is neither `null` nor `undefined`: an
      object's own property, a string's or an array's element at a decimal
      index, a string's or an array's `length`, and `undefined` otherwise
      (inherited properties such as methods are not modelled). */
  function Get(v: Value, k: string): (r: Value)
    ensures v.Obj? ==> r == if k in v.fields then v.fields[k] else Undef
    ensures v.Arr? && k == "length" ==> r == Num(|v.items|)
    ensures v.Str? && k == "length" ==> r == Num(|v.s|)
    ensures v.Arr? ==> forall i :: 0 <= i < |v.items| && k == NatToString(i) ==> r == v.items[i]
  {
    match v
    case Obj(fields) => if k in fields then fields[k] else Undef
    case Arr(items) =>
      if k == "length" then
        assert forall i: nat :: NatToString(i)[0] != 'l';
        Num(|items|)
      else if k in Spread(v) then Spread(v)[k] else Undef
    case Str(s) => if k == "length" then Num(|s|) else if k in Spread(v) then Spread(v)[k] else Undef
    case _ => Undef
  }

  /** The decimal renderings of 0 and 1, the indices read most often. */
  lemma SmallIndices()
    ensures NatToString(0) == "0" && NatToString(1) == "1"
  {
    assert Digit(0) == '0' && Digit(1) == '1';
  }

  /** Reading a two-element array's length and its elements. */
  lemma PairReads(b0: Value, b1: Value)
    ensures Get(Arr([b0, b1]), "length") == Num(2)
    ensures Get(Arr([b0, b1]), "0") == b0 && Get(Arr([b0, b1]), "1") == b1
  {
    SmallIndices();
  }

  /** JavaScript truthiness. */
  predicate Truthy(v: Value)
  {
    match v
    case Undef => false
    case Null => false
    case Bool(b) => b
    case Num(n) => n != 0
    case Str(s) => s != ""
    case Arr(_) => true
    case Obj(_) => true
  }

  /** `parts.join(sep)`. */
  function Join(parts: seq<string>, sep: string): string
  {
    if parts == [] then "" else if |parts| == 1 then parts[0] else parts[0] + sep + Join(parts[1..], sep)
  }

  /** `String(v)`: arrays render as their comma-joined elements, with
      `null` and `undefined` elements rendered empty; plain objects render
      as `[object Object]`. */
  function JsString(v: Value): string
  {
    match v
    case Undef => "undefined"
    case Null => "null"
    case Bool(b) => if b then "true" else "false"
    case Num(n) => IntToString(n)
    case Str(s) => s
    case Arr(items) =>
      Join(seq(|items|, i requires 0 <= i < |items| =>
        if items[i].Undef? || items[i].Null? then "" else JsString(items[i])), ",")
    case Obj(_) => "[object Object]"
  }
}
