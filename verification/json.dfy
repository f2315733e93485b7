/**
 * JSON values as Flask's `request.json` hands them to the dashboard handlers, and
 * the few dictionary operations those handlers use.
 *
 * An object is its member list in document order. Lookup follows Python's `dict`
 * built by `json.loads`: when a key repeats, the last occurrence wins.
 */
module Json {
  import opened Wrappers

  datatype Value =
    | JNull
    | JBool(b: bool)
    | JNumber(n: real)
    | JString(s: string)
    | JArray(items: seq<Value>)
    | JObject(fields: seq<(string, Value)>)

  predicate HasKey(fields: seq<(string, Value)>, key: string) {
    exists i :: 0 <= i < |fields| && fields[i].0 == key
  }

  /** A Python `dict` has each key once. */
  predicate IsDict(fields: seq<(string, Value)>) {
    forall i, j :: 0 <= i < j < |fields| ==> fields[i].0 != fields[j].0
  }

  /** `d.get(key)`: the value of the last member named `key`. */
  function Get(fields: seq<(string, Value)>, key: string): (r: Option<Value>)
    ensures r.None? <==> !HasKey(fields, key)
    decreases |fields|
  {
    if |fields| == 0 then None
    else if fields[|fields| - 1].0 == key then Some(fields[|fields| - 1].1)
    else
      var r := Get(fields[..|fields| - 1], key);
      assert HasKey(fields, key) ==> HasKey(fields[..|fields| - 1], key);
      r
  }

  /** `d.get(key, default)`. */
  function GetOr(fields: seq<(string, Value)>, key: string, default: Value): Value {
    Get(fields, key).GetOr(default)
  }

  /** `d[key] = v`: overwrite the member in place, or append a new one. */
  function Set(fields: seq<(string, Value)>, key: string, v: Value): (r: seq<(string, Value)>)
    ensures HasKey(r, key)
  {
    if HasKey(fields, key) then
      var r := seq(|fields|, i requires 0 <= i < |fields| => if fields[i].0 == key then (key, v) else fields[i]);
      var i :| 0 <= i < |fields| && fields[i].0 == key;
      assert r[i].0 == key;
      r
    else
      var r := fields + [(key, v)];
      assert r[|fields|].0 == key;
      r
  }

  /**
   * Python's `float(v)` on a decoded JSON value: numbers as they are, `True`/`False`
   * as 1.0/0.0, strings through `parse`, anything else a `TypeError`.
   */
  function ToFloat(v: Value, parse: string -> Option<real>): (r: Option<real>)
    ensures v.JNumber? ==> r == Some(v.n)
    ensures (v.JNull? || v.JArray? || v.JObject?) ==> r.None?
  {
    match v
      case JNumber(n) => Some(n)
      case JBool(b) => Some(if b then 1.0 else 0.0)
      case JString(s) => parse(s)
      case _ => None
  }

  /** The value stored last under a key is the one `Get` finds. */
  lemma {:induction false} GetFindsLast(fields: seq<(string, Value)>, key: string, i: nat)
    requires i < |fields| && fields[i].0 == key
    requires forall j :: i < j < |fields| ==> fields[j].0 != key
    ensures Get(fields, key) == Some(fields[i].1)
    decreases |fields|
  {
    if i < |fields| - 1 {
      GetFindsLast(fields[..|fields| - 1], key, i);
    }
  }

  /** After `d[key] = v`, `d[key]` is `v` and every other key reads as before. */
  lemma SetGet(fields: seq<(string, Value)>, key: string, v: Value, other: string)
    requires other != key
    ensures Get(Set(fields, key, v), key) == Some(v)
    ensures Get(Set(fields, key, v), other) == Get(fields, other)
  {
    var r := Set(fields, key, v);
    var i :| 0 <= i < |r| && r[i].0 == key;
    var last := LastIndex(r, key, i);
    GetFindsLast(r, key, last);
    if HasKey(fields, key) {
      SetKeepsOthers(fields, key, v, other);
    } else {
      assert r[..|r| - 1] == fields;
    }
  }

  lemma LastIndex(fields: seq<(string, Value)>, key: string, i: nat) returns (last: nat)
    requires i < |fields| && fields[i].0 == key
    ensures i <= last < |fields| && fields[last].0 == key
    ensures forall j :: last < j < |fields| ==> fields[j].0 != key
    decreases |fields| - i
  {
    if exists j :: i < j < |fields| && fields[j].0 == key {
      var j :| i < j < |fields| && fields[j].0 == key;
      last := LastIndex(fields, key, j);
    } else {
      last := i;
    }
  }

  lemma {:induction false} SetKeepsOthers(fields: seq<(string, Value)>, key: string, v: Value, other: string)
    requires other != key && HasKey(fields, key)
    ensures Get(Set(fields, key, v), other) == Get(fields, other)
    decreases |fields|
  {
    var r := Set(fields, key, v);
    var n := |fields|;
    if fields[n - 1].0 != other {
      var front := fields[..n - 1];
      if HasKey(front, key) {
        SetKeepsOthers(front, key, v, other);
        assert r[..n - 1] == Set(front, key, v);
      } else {
        assert r[..n - 1] == front;
      }
    }
  }
}
