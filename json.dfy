/**
 * Decoded JSON documents as the bot's Python code sees them after `json.loads`.
 *
 * A JSON object is kept as its list of members in document order, because a Python
 * dict built from it looks a key up by its last binding and iterates its keys in the
 * order of their first appearance. Every JSON number is a `real`: Python compares
 * `0 == 0.0 == False`, which is all the code asks of numbers.
 */
module Json {
  import opened Wrappers

  datatype Json =
    | JNull
    | JBool(b: bool)
    | JNum(n: real)
    | JStr(s: string)
    | JArr(items: seq<Json>)
    | JObj(members: seq<(string, Json)>)

  /** `d[key]` / `d.get(key)` on the dict built from `members`: the value of the last binding. */
  function Lookup(members: seq<(string, Json)>, key: string): (r: Option<Json>)
    ensures r.Some? <==> exists i :: 0 <= i < |members| && members[i].0 == key
    ensures r.Some? ==> exists i :: (0 <= i < |members| && members[i] == (key, r.value)
      && forall j :: i < j < |members| ==> members[j].0 != key)
  {
    if members == [] then None
    else if members[|members| - 1].0 == key then Some(members[|members| - 1].1)
    else Lookup(members[..|members| - 1], key)
  }

  /** The keys of the dict built from `members`, in Python's iteration order. */
  function Keys(members: seq<(string, Json)>): (ks: seq<string>)
    ensures forall k :: k in ks <==> exists i :: 0 <= i < |members| && members[i].0 == k
    ensures forall i, j :: 0 <= i < j < |ks| ==> ks[i] != ks[j]
  {
    if members == [] then []
    else
      var ks := Keys(members[..|members| - 1]);
      var k := members[|members| - 1].0;
      if k in ks then ks else ks + [k]
  }

  /** The key test `key in d`. */
  predicate HasKey(members: seq<(string, Json)>, key: string) {
    Lookup(members, key).Some?
  }

  /** Python's `v == 0` (so `v != 0` is its negation): true of the numbers zero and of `False`. */
  predicate IsPyZero(v: Json) {
    v == JNum(0.0) || v == JBool(false)
  }

  /** The elements a Python `for a in v` loop visits, or None when the value is not iterable. */
  function IterItems(v: Json): (r: Option<seq<Json>>)
    ensures r.Some? <==> v.JArr? || v.JStr? || v.JObj?
    ensures v.JArr? ==> r == Some(v.items)
    ensures v.JStr? ==> |r.value| == |v.s| && forall i :: 0 <= i < |v.s| ==> r.value[i] == JStr([v.s[i]])
    ensures v.JObj? ==> var ks := Keys(v.members);
      |r.value| == |ks| && forall i :: 0 <= i < |ks| ==> r.value[i] == JStr(ks[i])
  {
    match v
    case JArr(items) => Some(items)
    case JStr(s) => Some(seq(|s|, i requires 0 <= i < |s| => JStr([s[i]])))
    case JObj(members) =>
      var ks := Keys(members);
      Some(seq(|ks|, i requires 0 <= i < |ks| => JStr(ks[i])))
    case _ => None
  }
}
