/** Parsed configuration documents as Python sees them after `json.load`, and the
    few Python operations the core applies to them: truthiness, `dict.get`,
    `dict.keys()` and the `in` operator. Python's `None` is `JNull`. An operation
    that Python would answer with an exception (`.get` on a list, `in` on an int)
    yields `Raise`, so callers see the error path instead of a precondition. */
module JsonValue {

  datatype Option<+T> = None | Some(value: T)

  /** The exceptions an expression of the core can raise on an ill-shaped document. */
  datatype PyExc = AttributeError | TypeError

  /** The outcome of evaluating a Python expression: a value, or a raised exception.
      Failure-compatible, so `:-` propagates the exception as Python does. */
  datatype Py<+T> = Ok(value: T) | Raise(exc: PyExc) {
    predicate IsFailure() { Raise? }

    function PropagateFailure<U>(): Py<U>
      requires Raise?
    {
      Raise(exc)
    }

    function Extract(): T
      requires Ok?
    {
      value
    }
  }

  /** A JSON document; objects keep their keys in document order, as Python dicts do. */
  datatype Json =
    | JNull
    | JBool(b: bool)
    | JInt(i: int)
    | JFloat(r: real)
    | JStr(s: string)
    | JArray(items: seq<Json>)
    | JObject(fields: seq<(string, Json)>)

  /** The literal `{}`. */
  const EmptyObject: Json := JObject([])
  /** The literal `[]`. */
  const EmptyArray: Json := JArray([])

  /** Python's `bool(v)`: None, False, zero and empty containers are false. */
  predicate Truthy(v: Json) {
    match v
    case JNull => false
    case JBool(b) => b
    case JInt(i) => i != 0
    case JFloat(r) => r != 0.0
    case JStr(s) => s != ""
    case JArray(items) => items != []
    case JObject(fields) => fields != []
  }

  /** A Python value that may be None, seen as an Option. */
  function FromPy(v: Json): (r: Option<Json>)
    ensures r.None? <==> v == JNull
    ensures r.Some? ==> r.value == v
  {
    if v == JNull then None else Some(v)
  }

  /** An Option seen as a Python value, None becoming `None`. */
  function ToPy(o: Option<Json>): (v: Json)
    ensures FromPy(v) == o || (o == Some(JNull) && v == JNull)
  {
    match o
    case None => JNull
    case Some(x) => x
  }

  /** `list(d.keys())`: the keys of an object in document order. */
  function KeysOf(fields: seq<(string, Json)>): (ks: seq<string>)
    ensures |ks| == |fields|
    ensures forall i :: 0 <= i < |fields| ==> ks[i] == fields[i].0
  {
    if fields == [] then [] else [fields[0].0] + KeysOf(fields[1..])
  }

  /** The value stored under `key`: the first field with that key. */
  function Lookup(fields: seq<(string, Json)>, key: string): (r: Option<Json>)
    ensures r.None? <==> key !in KeysOf(fields)
    ensures r.Some? ==> exists i :: 0 <= i < |fields| && fields[i] == (key, r.value)
  {
    if fields == [] then None
    else if fields[0].0 == key then Some(fields[0].1)
    else
      var r := Lookup(fields[1..], key);
      assert KeysOf(fields) == [fields[0].0] + KeysOf(fields[1..]);
      assert r.Some? ==> exists i :: 0 <= i < |fields[1..]| && fields[1..][i] == (key, r.value);
      r
  }

  /** `v.get(key, default)`: defined on dicts only; any other value has no `get`. */
  function Get(v: Json, key: string, default: Json): (r: Py<Json>)
    ensures r.Raise? <==> !v.JObject?
    ensures r.Raise? ==> r.exc == AttributeError
    ensures v.JObject? && key !in KeysOf(v.fields) ==> r == Ok(default)
    ensures v.JObject? && key in KeysOf(v.fields) ==>
      r.Ok? && exists i :: 0 <= i < |v.fields| && v.fields[i] == (key, r.value)
  {
    match v
    case JObject(fields) =>
      (match Lookup(fields, key)
       case Some(x) => Ok(x)
       case None => Ok(default))
    case _ => Raise(AttributeError)
  }

  /** `list(v.keys())`: defined on dicts only. */
  function Keys(v: Json): (r: Py<seq<string>>)
    ensures r.Raise? <==> !v.JObject?
    ensures v.JObject? ==> r == Ok(KeysOf(v.fields))
  {
    match v
    case JObject(fields) => Ok(KeysOf(fields))
    case _ => Raise(AttributeError)
  }

  /** `p` is a prefix of `s`. */
  predicate IsPrefix(p: string, s: string) {
    |p| <= |s| && s[..|p|] == p
  }

  /** `p in s` on two Python strings: `p` occurs somewhere inside `s`. */
  predicate IsSubstring(p: string, s: string)
    decreases |s|
  {
    IsPrefix(p, s) || (|s| > 0 && IsSubstring(p, s[1..]))
  }

  /** `p` occurs in `s` starting at index `k`. */
  predicate OccursAt(p: string, s: string, k: int) {
    0 <= k && k + |p| <= |s| && s[k..k + |p|] == p
  }

  /** An occurrence at some index makes `p` a substring of `s`. */
  lemma {:induction false} OccurrenceIsSubstring(p: string, s: string, k: int)
    requires OccursAt(p, s, k)
    ensures IsSubstring(p, s)
    decreases k
  {
    if k > 0 {
      assert s[1..][k - 1..k - 1 + |p|] == s[k..k + |p|];
      OccurrenceIsSubstring(p, s[1..], k - 1);
    }
  }

  /** A substring occurs at some index. */
  lemma {:induction false} SubstringHasOccurrence(p: string, s: string)
    requires IsSubstring(p, s)
    ensures exists k :: OccursAt(p, s, k)
    decreases |s|
  {
    if IsPrefix(p, s) {
      assert OccursAt(p, s, 0);
    } else {
      SubstringHasOccurrence(p, s[1..]);
      var k :| OccursAt(p, s[1..], k);
      assert s[k + 1..k + 1 + |p|] == s[1..][k..k + |p|];
      assert OccursAt(p, s, k + 1);
    }
  }

  /** IsSubstring agrees with the positional definition of an occurrence. */
  lemma SubstringAt(p: string, s: string)
    ensures IsSubstring(p, s) <==> exists k :: OccursAt(p, s, k)
  {
    if exists k :: OccursAt(p, s, k) {
      var k :| OccursAt(p, s, k);
      OccurrenceIsSubstring(p, s, k);
    }
    if IsSubstring(p, s) {
      SubstringHasOccurrence(p, s);
    }
  }

  /** `needle in hay` for a string needle: element of a list, substring of a string,
      key of a dict; Python refuses the other types with a TypeError. */
  function Contains(hay: Json, needle: string): (r: Py<bool>)
    ensures r.Raise? <==> !(hay.JArray? || hay.JStr? || hay.JObject?)
    ensures r.Raise? ==> r.exc == TypeError
    ensures hay.JArray? ==> r == Ok(JStr(needle) in hay.items)
    ensures hay.JObject? ==> r == Ok(needle in KeysOf(hay.fields))
    ensures hay.JStr? ==>
      r == Ok(exists k :: OccursAt(needle, hay.s, k))
  {
    match hay
    case JArray(items) => Ok(JStr(needle) in items)
    case JStr(s) => SubstringAt(needle, s); Ok(IsSubstring(needle, s))
    case JObject(fields) => Ok(needle in KeysOf(fields))
    case _ => Raise(TypeError)
  }
}
