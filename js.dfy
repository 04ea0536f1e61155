/**
 * JavaScript values as the commands handle them: parsed JSON bodies, object
 * literals, and the three operations the source applies to them — property
 * access, truthiness tests and template-literal conversion.
 */
module Js {
  import opened Wrappers

  /**
   * A JavaScript value. Numbers are integers in this model; an object is the
   * map from its keys to their values (a repeated key in a literal or in
   * parsed JSON keeps its last value, as a map display does).
   */
  datatype Value =
    | Undefined
    | Null
    | Bool(b: bool)
    | Num(n: int)
    | Str(s: string)
    | Arr(elems: seq<Value>)
    | Obj(fields: map<string, Value>)

  predicate Nullish(v: Value) {
    v.Undefined? || v.Null?
  }

  /** The test `if (v)`, `!v` and `v || w` apply. */
  predicate Truthy(v: Value)
    ensures Truthy(v) ==> !Nullish(v)
    ensures v.Arr? || v.Obj? ==> Truthy(v)
  {
    match v
    case Undefined => false
    case Null => false
    case Bool(b) => b
    case Num(n) => n != 0
    case Str(s) => s != ""
    case Arr(_) => true
    case Obj(_) => true
  }

  /**
   * Property access `v.key`. None stands for the TypeError raised on undefined
   * and null; any other non-object yields undefined (built-in properties such as
   * `length` are not modelled).
   */
  function Get(v: Value, key: string): (r: Option<Value>)
    ensures r.None? <==> Nullish(v)
    ensures v.Obj? ==> r == Some(if key in v.fields then v.fields[key] else Undefined)
    ensures !v.Obj? && !Nullish(v) ==> r == Some(Undefined)
  {
    match v
    case Undefined => None
    case Null => None
    case Obj(fields) => Some(if key in fields then fields[key] else Undefined)
    case _ => Some(Undefined)
  }

  /** A chain of property accesses `v.k1.k2…`; None as soon as one of them throws. */
  function GetPath(v: Value, keys: seq<string>): (r: Option<Value>)
    ensures keys == [] ==> r == Some(v)
    ensures keys != [] && Nullish(v) ==> r.None?
    decreases |keys|
  {
    if keys == [] then Some(v)
    else match Get(v, keys[0])
      case None => None
      case Some(w) => GetPath(w, keys[1..])
  }

  function DigitChar(d: nat): (c: char)
    requires d < 10
    ensures '0' <= c <= '9' && c as int - '0' as int == d
  {
    "0123456789"[d]
  }

  /** The number a string of decimal digits denotes. */
  function DecimalValue(s: string): nat
    requires forall i :: 0 <= i < |s| ==> '0' <= s[i] <= '9'
  {
    if s == [] then 0 else 10 * DecimalValue(s[..|s| - 1]) + (s[|s| - 1] as int - '0' as int)
  }

  /** Decimal notation of a natural number, without leading zeros. */
  function NatToDecimal(n: nat): (s: string)
    ensures 1 <= |s|
    ensures forall i :: 0 <= i < |s| ==> '0' <= s[i] <= '9'
    ensures |s| > 1 ==> s[0] != '0'
    ensures DecimalValue(s) == n
  {
    if n < 10 then [DigitChar(n)] else NatToDecimal(n / 10) + [DigitChar(n % 10)]
  }

  function IntToDecimal(i: int): (s: string)
    ensures 1 <= |s|
    ensures (s[0] == '-') <==> i < 0
  {
    if i < 0 then "-" + NatToDecimal(-i) else NatToDecimal(i)
  }

  function Join(parts: seq<string>, sep: string): string {
    if parts == [] then "" else if |parts| == 1 then parts[0] else parts[0] + sep + Join(parts[1..], sep)
  }

  /** The string a template literal `${v}` produces. */
  function Display(v: Value): (s: string)
    ensures v.Str? ==> s == v.s
    ensures v.Undefined? ==> s == "undefined"
    ensures v.Num? ==> |s| >= 1 && (s[0] == '-' <==> v.n < 0)
    ensures v.Obj? ==> s == "[object Object]"
  {
    match v
    case Undefined => "undefined"
    case Null => "null"
    case Bool(b) => if b then "true" else "false"
    case Num(n) => IntToDecimal(n)
    case Str(s) => s
    // an array prints its elements separated by commas, undefined and null as nothing
    case Arr(elems) =>
      Join(seq(|elems|, i requires 0 <= i < |elems| => if Nullish(elems[i]) then "" else Display(elems[i])), ",")
    case Obj(_) => "[object Object]"
  }

  /** The number of leading entries that are neither undefined nor null. */
  function NonNullishPrefix(vs: seq<Value>): (n: nat)
    ensures n <= |vs|
    ensures forall i :: 0 <= i < n ==> !Nullish(vs[i])
    ensures n < |vs| ==> Nullish(vs[n])
  {
    if vs == [] || Nullish(vs[0]) then 0 else 1 + NonNullishPrefix(vs[1..])
  }

  /** `v.key` on a value that is neither undefined nor null. */
  function Prop(v: Value, key: string): Value
    requires !Nullish(v)
  {
    Get(v, key).value
  }
}
