/**
 * JavaScript values as they appear in Firestore documents, callable-function
 * payloads and webhook bodies, with the three pieces of JavaScript semantics
 * the application leans on: truthiness, property reads and `String(v)`.
 */
module JsValues {
  import opened Results
  import opened JsStrings

  /**
   * A JavaScript value. `Time` is a Firestore `Timestamp`, kept to millisecond
   * precision; `Obj` is a plain object (property order is not modelled).
   */
  datatype Value =
    | Undef
    | Null
    | Bool(b: bool)
    | Num(n: int)
    | Str(s: string)
    | Time(millis: int)
    | Arr(items: seq<Value>)
    | Obj(fields: map<string, Value>)

  /** `!!v` (NaN is not modelled: numbers are integers). */
  predicate Truthy(v: Value) {
    match v
    case Undef => false
    case Null => false
    case Bool(b) => b
    case Num(n) => n != 0
    case Str(s) => s != ""
    case _ => true
  }

  /** `v === null || v === undefined`: reading a property of such a value throws a TypeError. */
  predicate IsNullish(v: Value) {
    v.Undef? || v.Null?
  }

  /** `typeof v === "object" && v !== null`. */
  predicate IsObject(v: Value) {
    v.Time? || v.Arr? || v.Obj?
  }

  /** `m[k]` on a plain object: `undefined` when the key is absent. */
  function Get(m: map<string, Value>, k: string): (r: Value)
    ensures k !in m ==> r == Undef
    ensures k in m ==> r == m[k]
  {
    if k in m then m[k] else Undef
  }

  /** The array index a property key denotes, if it is a canonical numeral. */
  function ParseIndex(key: string): Option<nat> {
    if Canonical(key) then Some(ParseDigits(key)) else None
  }

  /**
   * `v[key]` for a value that is not null or undefined. Own properties only:
   * inherited members (methods such as `toDate`) read as `undefined`.
   */
  function Prop(v: Value, key: string): Value {
    match v
    case Obj(fields) => Get(fields, key)
    case Arr(items) =>
      if key == "length" then Num(|items|)
      else (match ParseIndex(key)
            case Some(i) => if i < |items| then items[i] else Undef
            case None => Undef)
    case Str(s) =>
      if key == "length" then Num(|s|)
      else (match ParseIndex(key)
            case Some(i) => if i < |s| then Str([s[i]]) else Undef
            case None => Undef)
    case Time(ms) =>
      if key == "seconds" then Num(ms / 1000)
      else if key == "nanoseconds" then Num((ms % 1000) * 1000000)
      else Undef
    case _ => Undef
  }

  /** Reading `a[String(i)]` of an array yields its `i`-th element. */
  lemma ArrayIndexRead(items: seq<Value>, i: nat)
    requires i < |items|
    ensures Prop(Arr(items), NatToString(i)) == items[i]
  {
    var k := NatToString(i);
    assert k[0] != 'l';
    assert ParseIndex(k) == Some(i);
  }

  /** `String(v)`, which is also what a template literal `${v}` produces. */
  function ToJsString(v: Value): string
    decreases v
  {
    match v
    case Undef => "undefined"
    case Null => "null"
    case Bool(b) => if b then "true" else "false"
    case Num(n) => IntToString(n)
    case Str(s) => s
    case Time(ms) =>
      "Timestamp(seconds=" + IntToString(ms / 1000) + ", nanoseconds="
      + IntToString((ms % 1000) * 1000000) + ")"
    case Arr(items) =>
      Join(seq(|items|, i requires 0 <= i < |items| =>
                 if IsNullish(items[i]) then "" else ToJsString(items[i])), ",")
    case Obj(_) => "[object Object]"
  }
}
