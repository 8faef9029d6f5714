/** The parsed JSON body of a response, and the two Python operations the client applies
    to it: subscripting with a string key (`body["status"]`) and iteration (`for x in ...`). */
module Json {
  import opened Errors

  /** A value as `json.loads` returns it. An object keeps its members in document order,
      duplicates included; the dictionary Python builds from it is described by Find and Keys. */
  datatype Value =
    | Null
    | Bool(b: bool)
    | Num(n: real)
    | Str(s: string)
    | Arr(items: seq<Value>)
    | Obj(members: seq<(string, Value)>)

  datatype Option<+T> = None | Some(value: T)

  /** The value the dictionary holds for `key`: `json.loads` keeps the last of several
      members with the same key. */
  function Find(members: seq<(string, Value)>, key: string): (r: Option<Value>)
    ensures r.Some? <==> exists i :: 0 <= i < |members| && members[i].0 == key
    ensures r.Some? ==> exists i :: 0 <= i < |members| && members[i] == (key, r.value) &&
                          forall j :: i < j < |members| ==> members[j].0 != key
    decreases |members|
  {
    if |members| == 0 then None
    else if members[|members| - 1].0 == key then Some(members[|members| - 1].1)
    else Find(members[..|members| - 1], key)
  }

  /** The keys of the dictionary, in the order iteration yields them: the first occurrence
      of each key decides its place. */
  function Keys(members: seq<(string, Value)>): (ks: seq<string>)
    ensures forall k :: k in ks <==> Find(members, k).Some?
    ensures forall i, j :: 0 <= i < j < |ks| ==> ks[i] != ks[j]
    decreases |members|
  {
    if |members| == 0 then []
    else
      var earlier := Keys(members[..|members| - 1]);
      var k := members[|members| - 1].0;
      if k in earlier then earlier else earlier + [k]
  }

  /** `v[key]`: a dictionary answers with its value or raises KeyError; every other JSON
      value raises TypeError (lists and strings need integer indices, the rest are not
      subscriptable). */
  function Lookup(v: Value, key: string): Result<Value>
  {
    if !v.Obj? then Err(TypeError)
    else
      match Find(v.members, key)
      case Some(x) => Ok(x)
      case None => Err(KeyError(key))
  }

  /** The elements `for x in v` visits: a list's items, a string's one-character strings,
      a dictionary's keys; numbers, booleans and None raise TypeError. */
  function Iterate(v: Value): Result<seq<Value>>
  {
    match v
    case Arr(items) => Ok(items)
    case Str(s) => Ok(seq(|s|, i requires 0 <= i < |s| => Str([s[i]])))
    case Obj(members) =>
      var ks := Keys(members);
      Ok(seq(|ks|, i requires 0 <= i < |ks| => Str(ks[i])))
    case _ => Err(TypeError)
  }
}
