/**
 * JavaScript runtime values as the client sees them: the parsed JSON body of an
 * HTTP response, property reads (which throw on null and undefined), truthiness,
 * and the string operations the client calls (toLowerCase, includes, startsWith,
 * number-to-string in template literals). A promise that settles is `Settled`.
 */
module Js {

  datatype Option<+T> = None | Some(value: T)

  /** A parsed JSON value. JavaScript numbers are modelled as integers. */
  datatype Json =
    | JUndefined
    | JNull
    | JBool(b: bool)
    | JNumber(n: int)
    | JString(s: string)
    | JArray(items: seq<Json>)
    | JObject(fields: map<string, Json>)

  /** The outcome of a property read: a value, or the TypeError it throws. */
  datatype Read = Got(value: Json) | Threw(error: string)

  /** How an async call ends: it resolves to a value or rejects with a thrown error. */
  datatype Settled<+T> = Fulfilled(value: T) | Rejected(reason: string)

  /** The text of the TypeError thrown by reading `key` of null or undefined. */
  function ReadError(base: string, key: string): string
  {
    "TypeError: Cannot read properties of " + base + " (reading '" + key + "')"
  }

  /** `j[0]` */
  function Index0(j: Json): (r: Read)
    ensures r.Threw? <==> j.JUndefined? || j.JNull?
    ensures j.JArray? && |j.items| > 0 ==> r == Got(j.items[0])
    ensures j.JArray? && |j.items| == 0 ==> r == Got(JUndefined)
  {
    match j
    case JUndefined => Threw(ReadError("undefined", "0"))
    case JNull => Threw(ReadError("null", "0"))
    case JArray(items) => Got(if |items| > 0 then items[0] else JUndefined)
    case JString(s) => Got(if |s| > 0 then JString([s[0]]) else JUndefined)
    case JObject(fields) => Got(if "0" in fields then fields["0"] else JUndefined)
    case _ => Got(JUndefined)
  }

  /** `j.key` for a key that is not an array index and not `length`. */
  function Field(j: Json, key: string): Read
  {
    match j
    case JUndefined => Threw(ReadError("undefined", key))
    case JNull => Threw(ReadError("null", key))
    case JObject(fields) => Got(if key in fields then fields[key] else JUndefined)
    case _ => Got(JUndefined)
  }

  /** `j.length` when it is a number: arrays, strings, and objects whose `length` field is a number. */
  function Length(j: Json): Option<int>
  {
    match j
    case JArray(items) => Some(|items|)
    case JString(s) => Some(|s|)
    case JObject(fields) =>
      if "length" in fields && fields["length"].JNumber? then Some(fields["length"].n) else None
    case _ => None
  }

  /** JavaScript truthiness. */
  predicate Truthy(j: Json)
  {
    match j
    case JUndefined => false
    case JNull => false
    case JBool(b) => b
    case JNumber(n) => n != 0
    case JString(s) => s != ""
    case _ => true
  }

  function LowerChar(c: char): char
  {
    if 'A' <= c <= 'Z' then (c as int + 32) as char else c
  }

  /** `s.toLowerCase()` on the ASCII letters. */
  function ToLower(s: string): (r: string)
    ensures |r| == |s|
    ensures forall i :: 0 <= i < |s| ==> r[i] == LowerChar(s[i])
  {
    seq(|s|, i requires 0 <= i < |s| => LowerChar(s[i]))
  }

  lemma ToLowerIdempotent(s: string)
    ensures ToLower(ToLower(s)) == ToLower(s)
  {
  }

  /** `sub` occurs in `s` at position i. */
  predicate OccursAt(s: string, sub: string, i: int)
  {
    0 <= i && i + |sub| <= |s| && s[i..i + |sub|] == sub
  }

  /** `s.includes(sub)` */
  function Contains(s: string, sub: string): (r: bool)
    ensures r <==> exists i :: OccursAt(s, sub, i)
    decreases |s|
  {
    if |sub| > |s| then false
    else if s[..|sub|] == sub then
      assert OccursAt(s, sub, 0);
      true
    else
      OccursShift(s, sub);
      Contains(s[1..], sub)
  }

  lemma OccursShift(s: string, sub: string)
    requires |sub| <= |s| && s[..|sub|] != sub
    ensures (exists i :: OccursAt(s, sub, i)) <==> (exists i :: OccursAt(s[1..], sub, i))
  {
    if exists i :: OccursAt(s, sub, i) {
      var i :| OccursAt(s, sub, i);
      assert i != 0;
      assert s[1..][i - 1..i - 1 + |sub|] == s[i..i + |sub|];
      assert OccursAt(s[1..], sub, i - 1);
    }
    if exists i :: OccursAt(s[1..], sub, i) {
      var i :| OccursAt(s[1..], sub, i);
      assert s[1..][i..i + |sub|] == s[i + 1..i + 1 + |sub|];
      assert OccursAt(s, sub, i + 1);
    }
  }

  /** `s.startsWith(prefix)` */
  predicate StartsWith(s: string, prefix: string)
  {
    |prefix| <= |s| && s[..|prefix|] == prefix
  }

  function DigitChar(d: int): char
    requires 0 <= d < 10
  {
    ('0' as int + d) as char
  }

  function NatToString(n: nat): string
  {
    if n < 10 then [DigitChar(n)] else NatToString(n / 10) + [DigitChar(n % 10)]
  }

  /** The decimal text that a template literal gives an integer. */
  function IntToString(n: int): string
  {
    if n < 0 then "-" + NatToString(-n) else NatToString(n)
  }
}
