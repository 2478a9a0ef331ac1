/** Values produced by JSON.parse, and the JavaScript operations the server
    applies to them: truthiness, property reads, `||`, String(), parseInt and
    object spread. */
module JsonValues {
  import opened JsBuiltins

  /** A parsed JSON value. Numbers are integral. */
  datatype Json =
    | JNull
    | JBool(b: bool)
    | JNum(n: int)
    | JStr(s: string)
    | JArr(elems: seq<Json>)
    | JObj(fields: map<string, Json>)

  /** A JavaScript value read out of JSON: `undefined` (None) or a JSON value. */
  type Value = Option<Json>

  /** JavaScript truthiness: undefined, null, false, 0 and "" are falsy. */
  predicate Truthy(v: Value) {
    match v
    case None => false
    case Some(JNull) => false
    case Some(JBool(b)) => b
    case Some(JNum(n)) => n != 0
    case Some(JStr(s)) => s != ""
    case Some(_) => true
  }

  /** `a || b`. */
  function Or(a: Value, b: Value): Value {
    if Truthy(a) then a else b
  }

  /** `v.key` on a value that is neither null nor undefined; only objects
      carry the keys the server reads. */
  function Get(v: Json, key: string): Value {
    if v.JObj? && key in v.fields then Some(v.fields[key]) else None
  }

  /** `v.key` on any value: reading a property of null or undefined throws. */
  function Prop(v: Value, key: string): Result<Value> {
    match v
    case None => Err("Cannot read properties of undefined (reading '" + key + "')")
    case Some(JNull) => Err("Cannot read properties of null (reading '" + key + "')")
    case Some(j) => Ok(Get(j, key))
  }

  /** String(v) for a JSON value; arrays join their elements with commas,
      null elements becoming empty. */
  function ToStr(v: Json): string {
    match v
    case JNull => "null"
    case JBool(b) => if b then "true" else "false"
    case JNum(n) => IntToString(n)
    case JStr(s) => s
    case JArr(a) => JoinElems(a)
    case JObj(_) => "[object Object]"
  }

  function JoinElems(a: seq<Json>): string {
    if a == [] then ""
    else
      var first := if a[0] == JNull then "" else ToStr(a[0]);
      if |a| == 1 then first else first + "," + JoinElems(a[1..])
  }

  /** String(v), also for undefined. */
  function JsString(v: Value): string {
    match v
    case None => "undefined"
    case Some(j) => ToStr(j)
  }

  /** parseInt(v, 10): the argument is first converted with String(). */
  function ParseInt(v: Value): Option<int> {
    ParseIntText(JsString(v))
  }

  /** parseInt of a JSON number gives the number back. */
  lemma ParseIntOfNumber(n: int)
    ensures ParseInt(Some(JNum(n))) == Some(n)
  {
    ParseIntOfIntToString(n);
  }

  /** parseInt of null, undefined, a boolean or an object is NaN. */
  lemma ParseIntOfNonNumeric(v: Value)
    requires v.None? || v == Some(JNull) || (v.Some? && (v.value.JBool? || v.value.JObj?))
    ensures ParseInt(v) == None
  {
    var t := JsString(v);
    assert t == "undefined" || t == "null" || t == "true" || t == "false" || t == "[object Object]";
    NoLeadingNumber(t);
  }

  lemma NoLeadingNumber(t: string)
    requires t != [] && !IsJsSpace(t[0]) && !IsDigit(t[0]) && t[0] != '-' && t[0] != '+'
    ensures ParseIntText(t) == None
  {
    assert TrimStart(t) == t;
  }

  /** The properties an object literal gets from spreading `v` into it:
      an object's own fields, the characters of a string or the elements of
      an array under their decimal indices, and nothing for anything else. */
  function Spread(v: Value): map<string, Json> {
    match v
    case Some(JObj(m)) => m
    case Some(JStr(s)) => Indexed(seq(|s|, k requires 0 <= k < |s| => JStr([s[k]])), |s|)
    case Some(JArr(a)) => Indexed(a, |a|)
    case _ => map[]
  }

  /** The first `n` elements of `a` keyed by their decimal indices. */
  function Indexed(a: seq<Json>, n: nat): (m: map<string, Json>)
    requires n <= |a|
    ensures forall i :: 0 <= i < n ==> NatToString(i) in m && m[NatToString(i)] == a[i]
    ensures forall key :: key in m ==> exists i :: 0 <= i < n && key == NatToString(i)
  {
    if n == 0 then map[]
    else
      var m := Indexed(a, n - 1)[NatToString(n - 1) := a[n - 1]];
      assert forall i :: 0 <= i < n - 1 ==> NatToString(i) != NatToString(n - 1) by {
        forall i | 0 <= i < n - 1 ensures NatToString(i) != NatToString(n - 1) {
          if NatToString(i) == NatToString(n - 1) {
            NatToStringInjective(i, n - 1);
          }
        }
      }
      m
  }

  /** An object literal written as `{k1: v1, k2: v2, ...}` after JSON.stringify:
      later keys win and properties whose value is undefined are dropped. */
  function ObjOf(pairs: seq<(string, Value)>): (m: map<string, Json>)
    ensures forall key :: key in m ==> exists i :: 0 <= i < |pairs| && pairs[i].0 == key
  {
    if pairs == [] then map[]
    else
      var rest := ObjOf(pairs[..|pairs| - 1]);
      var last := pairs[|pairs| - 1];
      if last.1.Some? then rest[last.0 := last.1.value] else rest - {last.0}
  }

  /** A two-property literal: each key holds its value, and is absent when
      that value is undefined. */
  lemma ObjOfTwo(k1: string, v1: Value, k2: string, v2: Value)
    requires k1 != k2
    ensures Get(JObj(ObjOf([(k1, v1), (k2, v2)])), k1) == v1
    ensures Get(JObj(ObjOf([(k1, v1), (k2, v2)])), k2) == v2
  {
    var pairs := [(k1, v1), (k2, v2)];
    assert pairs[..1] == [(k1, v1)];
    assert [(k1, v1)][..0] == [];
  }
}
