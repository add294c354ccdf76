/**
 * The values the data loaders receive from `json.load` or as Python dictionaries and lists,
 * with the four operations the loaders apply to them: `key in v`, `v[key]`, iteration and
 * truthiness. Where Python raises, the operation returns the exception.
 */
module Json {
  import opened Wrappers

  /**
   * A JSON value; an object keeps its entries in insertion order, as a Python dict does. A dict
   * never repeats a key (`DistinctKeys`); on such objects the first-entry `Lookup` is the only
   * entry with that key, so which duplicate wins never arises.
   */
  datatype Value =
    | Null
    | Bool(b: bool)
    | Num(n: real)
    | Str(s: string)
    | Arr(items: seq<Value>)
    | Obj(entries: seq<(string, Value)>)

  datatype Exception = TypeError | KeyError | ValueError(message: string)

  function Keys(entries: seq<(string, Value)>): (ks: seq<string>)
    ensures |ks| == |entries| && forall i :: 0 <= i < |entries| ==> ks[i] == entries[i].0
  {
    seq(|entries|, i requires 0 <= i < |entries| => entries[i].0)
  }

  /** The value stored under `key`: the first entry with that key. */
  function Lookup(entries: seq<(string, Value)>, key: string): (r: Option<Value>)
    ensures r.None? <==> key !in Keys(entries)
    ensures r.Some? ==> exists i :: 0 <= i < |entries| && entries[i] == (key, r.value)
  {
    if entries == [] then None
    else if entries[0].0 == key then Some(entries[0].1)
    else
      var rest := Lookup(entries[1..], key);
      assert Keys(entries) == [entries[0].0] + Keys(entries[1..]);
      assert rest.Some? ==> exists i :: 0 <= i < |entries| - 1 && entries[1..][i] == (key, rest.value);
      rest
  }

  /** No key occurs twice, as in every Python dict. */
  predicate DistinctKeys(entries: seq<(string, Value)>)
  {
    forall i, j :: 0 <= i < j < |entries| ==> entries[i].0 != entries[j].0
  }

  /** With distinct keys, a key's value is the value of its one entry, wherever that entry stands. */
  lemma {:induction false} LookupDistinct(entries: seq<(string, Value)>, k: nat)
    requires DistinctKeys(entries) && k < |entries|
    ensures Lookup(entries, entries[k].0) == Some(entries[k].1)
  {
    if k > 0 {
      assert entries[1..][k - 1] == entries[k];
      LookupDistinct(entries[1..], k - 1);
    }
  }

  /** `needle` occurs in `hay` as a contiguous piece: it is a prefix of `hay` or of one of its suffixes. */
  predicate IsSubstring(needle: string, hay: string)
  {
    needle <= hay || (hay != [] && IsSubstring(needle, hay[1..]))
  }

  /** Python's `key in v` for a string key: a key of a dict, an element of a list, a substring of a string; other values raise. */
  function Contains(v: Value, key: string): (r: Result<bool, Exception>)
    ensures r.Err? <==> v.Null? || v.Bool? || v.Num?
    ensures v.Obj? ==> (r == Ok(true) <==> Lookup(v.entries, key).Some?)
    ensures v.Arr? ==> (r == Ok(true) <==> exists i :: 0 <= i < |v.items| && v.items[i] == Str(key))
  {
    match v
    case Obj(entries) => Ok(key in Keys(entries))
    case Arr(items) => Ok(Str(key) in items)
    case Str(s) => Ok(IsSubstring(key, s))
    case _ => Err(TypeError)
  }

  /** Python's `v[key]` for a string key: only a dict can be indexed by a string, and only by one of its keys. */
  function Index(v: Value, key: string): (r: Result<Value, Exception>)
    ensures r.Ok? <==> v.Obj? && Lookup(v.entries, key).Some?
    ensures r.Ok? ==> r.value == Lookup(v.entries, key).value
    ensures v.Obj? && r.Err? ==> r.error == KeyError
  {
    match v
    case Obj(entries) =>
      var found := Lookup(entries, key);
      if found.Some? then Ok(found.value) else Err(KeyError)
    case _ => Err(TypeError)
  }

  /** What a `for` loop visits: a list's elements, a dict's keys, a string's characters; other values raise. */
  function Elements(v: Value): (r: Result<seq<Value>, Exception>)
    ensures r.Err? <==> v.Null? || v.Bool? || v.Num?
    ensures v.Arr? ==> r == Ok(v.items)
    ensures r.Ok? && !v.Arr? ==> forall i :: 0 <= i < |r.value| ==> r.value[i].Str?
  {
    match v
    case Arr(items) => Ok(items)
    case Obj(entries) => Ok(seq(|entries|, i requires 0 <= i < |entries| => Str(entries[i].0)))
    case Str(s) => Ok(seq(|s|, i requires 0 <= i < |s| => Str([s[i]])))
    case _ => Err(TypeError)
  }

  /** Python truthiness: `None`, `False`, zero and empty containers are false. */
  predicate Truthy(v: Value)
  {
    match v
    case Null => false
    case Bool(b) => b
    case Num(n) => n != 0.0
    case Str(s) => s != ""
    case Arr(items) => items != []
    case Obj(entries) => entries != []
  }

  /** The number a value stands for in arithmetic and comparison: numbers, and booleans as 1 and 0. */
  function AsNumber(v: Value): (r: Option<real>)
    ensures r.Some? <==> v.Num? || v.Bool?
  {
    match v
    case Num(n) => Some(n)
    case Bool(b) => Some(if b then 1.0 else 0.0)
    case _ => None
  }

  /** A list read as numbers; the first entry that is not a number raises, as comparing or subtracting it would. */
  function Numbers(items: seq<Value>): (r: Result<seq<real>, Exception>)
    ensures r.Ok? <==> forall i :: 0 <= i < |items| ==> AsNumber(items[i]).Some?
    ensures r.Ok? ==> |r.value| == |items| && forall i :: 0 <= i < |items| ==> r.value[i] == AsNumber(items[i]).value
  {
    if items == [] then Ok([])
    else
      var front := Numbers(items[..|items| - 1]);
      var last := AsNumber(items[|items| - 1]);
      if front.Err? || last.None? then Err(TypeError) else Ok(front.value + [last.value])
  }

  /** A membership test that succeeds on a dict is followed by a lookup that succeeds with the stored value. */
  lemma ContainsThenIndex(entries: seq<(string, Value)>, key: string)
    requires Contains(Obj(entries), key) == Ok(true)
    ensures Index(Obj(entries), key).Ok?
    ensures exists i :: 0 <= i < |entries| && entries[i] == (key, Index(Obj(entries), key).value)
  {
  }

  /** Every key of a dict is found by `in`, and no other string is. */
  lemma ContainsKeys(entries: seq<(string, Value)>, key: string)
    ensures Contains(Obj(entries), key) == Ok(exists i :: 0 <= i < |entries| && entries[i].0 == key)
  {
    if exists i :: 0 <= i < |entries| && entries[i].0 == key {
      var i :| 0 <= i < |entries| && entries[i].0 == key;
      assert Keys(entries)[i] == key;
    }
  }
}
