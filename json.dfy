/**
 * JSON values as `JSON.parse` yields them, and the few JavaScript
 * operations the route handlers apply to them: destructuring a property,
 * truthiness, and conversion to text inside a template literal.
 */
module Json {
  import opened Wrappers

  /** A parsed JSON value; numbers are limited to integers. */
  datatype Json =
    | JNull
    | JBool(b: bool)
    | JNumber(n: int)
    | JString(s: string)
    | JArray(elems: seq<Json>)
    | JObject(members: seq<(string, Json)>)

  /** What reading a property gives: a JSON value or `undefined`. */
  datatype Field = Undefined | Value(v: Json)

  /** The property `key` of an object literal; a later duplicate key wins, as in `JSON.parse`. */
  function Get(members: seq<(string, Json)>, key: string): (f: Field)
    ensures f == Undefined <==> forall i :: 0 <= i < |members| ==> members[i].0 != key
    ensures f.Value? ==> exists i :: 0 <= i < |members| && members[i] == (key, f.v)
                                     && forall j :: i < j < |members| ==> members[j].0 != key
  {
    if members == [] then Undefined
    else if members[|members| - 1].0 == key then Value(members[|members| - 1].1)
    else Get(members[..|members| - 1], key)
  }

  /**
   * `const { key } = body`: `None` when destructuring throws, which for a
   * parsed JSON body happens only on `null`; every other non-object has no
   * such property.
   */
  function Destructure(body: Json, key: string): (r: Option<Field>)
    ensures r == None <==> body == JNull
    ensures (r.Some? && r.value.Value?) <==>
      body.JObject? && exists i :: 0 <= i < |body.members| && body.members[i].0 == key
    ensures body.JObject? ==> r == Some(Get(body.members, key))
  {
    match body
    case JNull => None
    case JObject(members) => Some(Get(members, key))
    case _ => Some(Undefined)
  }

  /** Reading from an object with one more member at the end. */
  lemma GetSnoc(members: seq<(string, Json)>, m: (string, Json), key: string)
    ensures Get(members + [m], key) == if m.0 == key then Value(m.1) else Get(members, key)
  {
    assert (members + [m])[..|members|] == members;
  }

  /**
   * Inserting a member with another key anywhere in an object leaves the
   * value read for `key` unchanged.
   */
  lemma {:induction false} GetIgnoresOther(front: seq<(string, Json)>, back: seq<(string, Json)>,
                                            other: string, v: Json, key: string)
    requires other != key
    ensures Get(front + [(other, v)] + back, key) == Get(front + back, key)
  {
    if back == [] {
      assert front + [(other, v)] + back == front + [(other, v)];
      assert front + back == front;
      GetSnoc(front, (other, v), key);
    } else {
      var init, last := back[..|back| - 1], back[|back| - 1];
      assert back == init + [last];
      assert front + [(other, v)] + back == (front + [(other, v)] + init) + [last];
      assert front + back == (front + init) + [last];
      GetSnoc(front + [(other, v)] + init, last, key);
      GetSnoc(front + init, last, key);
      GetIgnoresOther(front, init, other, v, key);
    }
  }

  /** JavaScript truthiness. */
  function Truthy(f: Field): (t: bool)
    ensures !t <==> f in {Undefined, Value(JNull), Value(JBool(false)), Value(JNumber(0)), Value(JString(""))}
  {
    match f
    case Undefined => false
    case Value(v) =>
      match v
      case JNull => false
      case JBool(b) => b
      case JNumber(n) => n != 0
      case JString(s) => s != ""
      case JArray(_) => true
      case JObject(_) => true
  }

  /** The number the decimal digits `s` spell (a non-digit counts as zero). */
  function DigitsValue(s: string): nat
  {
    if s == [] then 0
    else
      var c := s[|s| - 1];
      10 * DigitsValue(s[..|s| - 1]) + (if '0' <= c <= '9' then c as int - '0' as int else 0)
  }

  /** The decimal digits of a natural number, without leading zeros. */
  function NatText(n: nat): (r: string)
    ensures |r| >= 1
    ensures forall i :: 0 <= i < |r| ==> '0' <= r[i] <= '9'
    ensures n < 10 <==> |r| == 1
    ensures |r| > 1 ==> r[0] != '0'
    ensures DigitsValue(r) == n
  {
    if n < 10 then ['0' + n as char]
    else
      var init, last := NatText(n / 10), ['0' + (n % 10) as char];
      assert (init + last)[..|init + last| - 1] == init;
      init + last
  }

  /**
   * `${v}` throws a TypeError: an object whose own `toString` member (never
   * callable in parsed JSON) hides `Object.prototype.toString`, so that
   * `valueOf` is tried and gives back the object itself; an array throws
   * when `join` meets such a value among its elements, at any depth.
   */
  predicate TextThrows(v: Json)
  {
    match v
    case JObject(members) => Get(members, "toString") != Undefined
    case JArray(elems) => exists i :: 0 <= i < |elems| && TextThrows(elems[i])
    case _ => false
  }

  /** The text `${v}` produces inside a template literal, or `None` when it throws. */
  function ToText(v: Json): (r: Option<string>)
    ensures r == None <==> TextThrows(v)
    ensures v.JString? ==> r == Some(v.s)
    ensures v.JObject? && r.Some? ==> r.value == "[object Object]"
    ensures v.JNumber? && v.n >= 0 ==> r == Some(NatText(v.n))
    decreases v, 1
  {
    match v
    case JNull => Some("null")
    case JBool(b) => Some(if b then "true" else "false")
    case JNumber(n) => Some(if n < 0 then "-" + NatText(-n) else NatText(n))
    case JString(s) => Some(s)
    case JArray(elems) => JoinText(elems)
    case JObject(members) => if Get(members, "toString") != Undefined then None else Some("[object Object]")
  }

  /**
   * `Array.prototype.join(",")`, which writes `null` elements as nothing and
   * throws when converting an element throws.
   */
  function JoinText(elems: seq<Json>): (r: Option<string>)
    ensures r == None <==> exists i :: 0 <= i < |elems| && TextThrows(elems[i])
    ensures |elems| == 1 && elems[0] != JNull ==> r == ToText(elems[0])
    decreases elems, 0
  {
    if elems == [] then Some("")
    else
      var init, final := elems[..|elems| - 1], elems[|elems| - 1];
      assert forall i :: 0 <= i < |init| ==> init[i] == elems[i];
      var last := if final == JNull then Some("") else ToText(final);
      if |elems| == 1 then last
      else
        match JoinText(init)
        case None => None
        case Some(front) =>
          match last
          case None => None
          case Some(text) => Some(front + "," + text)
  }

  /** The `{ error: msg }` body every handler uses to report a failure. */
  function ErrorBody(msg: string): (j: Json)
    ensures j.JObject? && Get(j.members, "error") == Value(JString(msg))
  {
    JObject([("error", JString(msg))])
  }
}
