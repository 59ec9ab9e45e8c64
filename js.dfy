/**
 * JavaScript values as they travel between the services: JSON documents,
 * ordered objects, truthiness, and the foreign functions of the runtime
 * (hashing, HMAC, serialisation, dates) that the model leaves uninterpreted.
 */
module Js {
  import opened Wrappers

  /** A JSON value. Numbers are finite reals (JSON has no NaN or infinity). */
  datatype Json =
    | JNull
    | JBool(b: bool)
    | JNum(n: real)
    | JStr(s: string)
    | JArr(items: seq<Json>)
    | JObj(fields: seq<(string, Json)>)

  /** A JavaScript object: its own enumerable properties in insertion order. */
  type JsObject = seq<(string, Json)>

  /**
   * The foreign functions the services call. They are parameters of the model:
   * nothing is assumed about them beyond what a lemma takes as a hypothesis.
   *   sha256Hex(s)       = crypto.createHash('sha256').update(s).digest('hex')
   *   hmacSha256Hex(k,m) = crypto.createHmac('sha256', k).update(m).digest('hex')
   *   stringify(v)       = JSON.stringify(v)
   *   isoString(ms)      = new Date(ms).toISOString()
   *   instantOf(t)       = the instant Postgres reads from a datetime text
   *   toText(v)          = String(v), for a value that is not a string
   */
  datatype Natives = Natives(
    sha256Hex: string -> string,
    hmacSha256Hex: (string, string) -> string,
    stringify: Json -> string,
    isoString: int -> string,
    instantOf: string -> int,
    toText: Json -> string)

  /** The abstract string-format checks of the schema library. */
  datatype Formats = Formats(
    isUuid: string -> bool,
    isEmail: string -> bool,
    isDatetime: string -> bool)

  /** JavaScript truthiness of a JSON value. */
  predicate Truthy(v: Json) {
    match v
    case JNull => false
    case JBool(b) => b
    case JNum(n) => n != 0.0
    case JStr(s) => s != ""
    case JArr(_) => true
    case JObj(_) => true
  }

  /** String(v): a string is itself, anything else goes through the runtime. */
  function JsString(n: Natives, v: Json): string {
    if v.JStr? then v.s else n.toText(v)
  }

  /** `s || ''` for a string that may be undefined. */
  function OrEmpty(s: Option<string>): (r: string)
    ensures s.None? ==> r == ""
    ensures s.Some? ==> r == s.value
  {
    match s
    case None => ""
    case Some(v) => v
  }

  /** `if (s)` for a string that may be undefined: present and non-empty. */
  predicate Present(s: Option<string>) {
    s.Some? && s.value != ""
  }

  /**
   * Property read `obj[key]`: the value of the last pair with that key, as
   * after JSON.parse, which keeps the last of duplicated keys.
   */
  function Lookup(obj: JsObject, key: string): (r: Option<Json>)
    ensures r.None? <==> forall i :: 0 <= i < |obj| ==> obj[i].0 != key
    ensures r.Some? ==> exists i :: 0 <= i < |obj| && obj[i] == (key, r.value)
  {
    if |obj| == 0 then None
    else if obj[|obj| - 1].0 == key then Some(obj[|obj| - 1].1)
    else Lookup(obj[..|obj| - 1], key)
  }

  /**
   * Property write `obj[key] = v` (also `{...obj, key: v}`): an existing key
   * keeps its position and takes the new value; a new key goes last.
   */
  function SetKey(obj: JsObject, key: string, v: Json): (r: JsObject)
    ensures Lookup(r, key) == Some(v)
    ensures forall k :: k != key ==> Lookup(r, k) == Lookup(obj, k)
    ensures (forall i :: 0 <= i < |obj| ==> obj[i].0 != key) ==> r == obj + [(key, v)]
  {
    if forall i :: 0 <= i < |obj| ==> obj[i].0 != key then
      LookupAppend(obj, key, v);
      obj + [(key, v)]
    else
      var r := seq(|obj|, i requires 0 <= i < |obj| => if obj[i].0 == key then (key, v) else obj[i]);
      assert Replaced(obj, key, v, r);
      LookupReplace(obj, key, v, r);
      r
  }

  lemma LookupAppend(obj: JsObject, key: string, v: Json)
    ensures Lookup(obj + [(key, v)], key) == Some(v)
    ensures forall k :: k != key ==> Lookup(obj + [(key, v)], k) == Lookup(obj, k)
  {
    assert (obj + [(key, v)])[..|obj|] == obj;
  }

  /** The pairs of `r` are those of `obj`, with the value of every `key` pair replaced by `v`. */
  predicate Replaced(obj: JsObject, key: string, v: Json, r: JsObject) {
    |r| == |obj| && forall i :: 0 <= i < |obj| ==> r[i] == if obj[i].0 == key then (key, v) else obj[i]
  }

  lemma {:induction false} LookupReplace(obj: JsObject, key: string, v: Json, r: JsObject)
    requires exists i :: 0 <= i < |obj| && obj[i].0 == key
    requires Replaced(obj, key, v, r)
    ensures Lookup(r, key) == Some(v)
    ensures forall k :: k != key ==> Lookup(r, k) == Lookup(obj, k)
  {
    LookupReplaceKey(obj, key, v, r);
    forall k | k != key ensures Lookup(r, k) == Lookup(obj, k) {
      LookupSameKeys(obj, r, k);
    }
  }

  lemma {:induction false} LookupReplaceKey(obj: JsObject, key: string, v: Json, r: JsObject)
    requires exists i :: 0 <= i < |obj| && obj[i].0 == key
    requires Replaced(obj, key, v, r)
    ensures Lookup(r, key) == Some(v)
    decreases |obj|
  {
    var n := |obj|;
    if obj[n - 1].0 != key {
      var i :| 0 <= i < n && obj[i].0 == key;
      assert obj[..n - 1][i].0 == key;
      var obj', r' := obj[..n - 1], r[..n - 1];
      assert Replaced(obj', key, v, r') by {
        forall i | 0 <= i < n - 1 ensures r'[i] == if obj'[i].0 == key then (key, v) else obj'[i] {
          assert r[i] == if obj[i].0 == key then (key, v) else obj[i];
        }
      }
      LookupReplaceKey(obj', key, v, r');
    }
  }

  /** Two objects that agree on every pair whose key is `k` agree on `obj[k]`. */
  lemma {:induction false} LookupSameKeys(a: JsObject, b: JsObject, k: string)
    requires |a| == |b|
    requires forall i :: 0 <= i < |a| ==> (a[i].0 == k || b[i].0 == k) ==> a[i] == b[i]
    ensures Lookup(a, k) == Lookup(b, k)
    decreases |a|
  {
    if |a| > 0 {
      LookupSameKeys(a[..|a| - 1], b[..|b| - 1], k);
    }
  }

  /** Lookup in a concatenation: a key the suffix holds is found there, any other in the prefix. */
  lemma {:induction false} LookupConcat(a: JsObject, b: JsObject, key: string)
    ensures Lookup(a + b, key) == if Lookup(b, key).Some? then Lookup(b, key) else Lookup(a, key)
    decreases |b|
  {
    if |b| > 0 {
      var ab := a + b;
      assert ab[..|ab| - 1] == a + b[..|b| - 1];
      assert ab[|ab| - 1] == b[|b| - 1];
      LookupConcat(a, b[..|b| - 1], key);
    } else {
      assert a + b == a;
    }
  }

  /**
   * A string's `length` in JavaScript: UTF-16 code units, so a character
   * outside the Basic Multilingual Plane (a surrogate pair) counts twice.
   */
  function Utf16Length(s: string): (l: nat)
    ensures |s| <= l <= 2 * |s|
  {
    if |s| == 0 then 0
    else (if s[0] as int > 0xFFFF then 2 else 1) + Utf16Length(s[1..])
  }
}
