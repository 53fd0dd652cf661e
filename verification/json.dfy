/** Parsed JSON values and the property access the relay performs on them. */
module Json {
  import opened Wrappers

  /** A JSON value. An object keeps its members in textual order, duplicate
      keys included; `JSON.parse`'s merging of duplicates is applied by
      `Lookup`, the only way the model reads a member. Numbers are exact
      rationals (JSON numbers are decimal literals; the relay never reads them). */
  datatype Json =
    | JNull
    | JBool(b: bool)
    | JNum(n: real)
    | JStr(s: string)
    | JArr(items: seq<Json>)
    | JObj(fields: seq<(string, Json)>)

  /** The value `JSON.parse` gives to member `key`: when a key is repeated, the
      last occurrence wins. */
  function Lookup(fields: seq<(string, Json)>, key: string): (r: Option<Json>)
    ensures r.Some? ==> exists i :: 0 <= i < |fields| && fields[i] == (key, r.value)
    ensures r.None? ==> forall i :: 0 <= i < |fields| ==> fields[i].0 != key
  {
    if |fields| == 0 then None
    else if fields[|fields| - 1].0 == key then Some(fields[|fields| - 1].1)
    else Lookup(fields[..|fields| - 1], key)
  }

  /** `fields[i]` is the occurrence of `key` that no later member overrides. */
  ghost predicate LastOccurrence(fields: seq<(string, Json)>, key: string, i: int)
  {
    && 0 <= i < |fields|
    && fields[i].0 == key
    && forall j :: i < j < |fields| ==> fields[j].0 != key
  }

  /** Lookup finds exactly the value of the last occurrence of the key. */
  lemma LookupIsLastOccurrence(fields: seq<(string, Json)>, key: string, v: Json)
    ensures Lookup(fields, key) == Some(v) <==>
            exists i :: LastOccurrence(fields, key, i) && fields[i].1 == v
  {
    if Lookup(fields, key) == Some(v) {
      var i := LookupFindsLast(fields, key);
    }
    if exists i :: LastOccurrence(fields, key, i) && fields[i].1 == v {
      var i :| LastOccurrence(fields, key, i) && fields[i].1 == v;
      LastIsFound(fields, key, i);
    }
  }

  /** A value found by Lookup sits at the last occurrence of its key. */
  lemma {:induction false} LookupFindsLast(fields: seq<(string, Json)>, key: string) returns (i: int)
    requires Lookup(fields, key).Some?
    ensures LastOccurrence(fields, key, i) && fields[i].1 == Lookup(fields, key).value
    decreases |fields|
  {
    var n := |fields| - 1;
    if fields[n].0 == key {
      i := n;
    } else {
      var init := fields[..n];
      i := LookupFindsLast(init, key);
      assert fields[i] == init[i];
    }
  }

  /** The last occurrence of a key is what Lookup finds. */
  lemma {:induction false} LastIsFound(fields: seq<(string, Json)>, key: string, i: int)
    requires LastOccurrence(fields, key, i)
    ensures Lookup(fields, key) == Some(fields[i].1)
    decreases |fields|
  {
    var n := |fields| - 1;
    if i < n {
      var init := fields[..n];
      assert fields[n].0 != key;
      assert LastOccurrence(init, key, i);
      LastIsFound(init, key, i);
    }
  }

  /** Property access `value.key`: an object yields its member (or `undefined`);
      every other parsed value has no such own property. */
  function Member(value: Json, key: string): (r: Option<Json>)
    ensures r.Some? ==> value.JObj? && exists i :: 0 <= i < |value.fields| && value.fields[i] == (key, r.value)
    ensures r.None? && value.JObj? ==> forall i :: 0 <= i < |value.fields| ==> value.fields[i].0 != key
  {
    match value
    case JObj(fields) => Lookup(fields, key)
    case _ => None
  }

  /** JavaScript truthiness of a parsed value. */
  predicate Truthy(value: Json)
  {
    match value
    case JNull => false
    case JBool(b) => b
    case JNum(n) => n != 0.0
    case JStr(s) => s != ""
    case JArr(_) => true
    case JObj(_) => true
  }
}
