/** JSON-like dynamic values, and Python dictionaries as ordered association lists.

    A Python `dict` keeps insertion order, which the redaction report and the payload
    layouts depend on, so a dictionary is a sequence of (key, value) entries. A real
    dictionary has distinct keys (`DistinctKeys`); `Get` looks up the first entry with
    the key, which for such a dictionary is the only one. */
module Json {
  import opened Wrappers

  datatype Json =
    | JNull
    | JBool(b: bool)
    | JNum(n: int)
    | JStr(s: string)
    | JArr(items: seq<Json>)
    | JObj(fields: seq<(string, Json)>)

  type Dict = seq<(string, Json)>

  /** The keys of `d`, in iteration order. */
  function Keys(d: Dict): (ks: seq<string>)
    ensures |ks| == |d|
    ensures forall i :: 0 <= i < |d| ==> ks[i] == d[i].0
  {
    if d == [] then [] else [d[0].0] + Keys(d[1..])
  }

  ghost predicate DistinctKeys(d: Dict) {
    forall i, j :: 0 <= i < j < |d| ==> d[i].0 != d[j].0
  }

  /** `d.get(k)`: the value of the first entry for `k`, if any. */
  function Get(d: Dict, k: string): Option<Json> {
    GetFrom(d, k, 0)
  }

  /** The first entry for `k` at or after position `i`. */
  function GetFrom(d: Dict, k: string, i: nat): Option<Json>
    requires i <= |d|
    decreases |d| - i
  {
    if i == |d| then None
    else if d[i].0 == k then Some(d[i].1)
    else GetFrom(d, k, i + 1)
  }

  /** `d.get(k)` finds a value exactly when `k` is a key of `d`, and the value it finds is
      stored under `k`. */
  lemma GetMeaning(d: Dict, k: string)
    ensures Get(d, k).Some? <==> k in Keys(d)
    ensures Get(d, k).Some? ==> (k, Get(d, k).value) in d
  {
    GetFromMeaning(d, k, 0);
    if k in Keys(d) {
      var j :| 0 <= j < |d| && Keys(d)[j] == k;
      assert d[j].0 == k;
    }
  }

  lemma {:induction false} GetFromMeaning(d: Dict, k: string, i: nat)
    requires i <= |d|
    ensures GetFrom(d, k, i).Some? <==> exists j :: i <= j < |d| && d[j].0 == k
    ensures GetFrom(d, k, i).Some? ==> exists j :: i <= j < |d| && d[j] == (k, GetFrom(d, k, i).value)
    decreases |d| - i
  {
    if i < |d| && d[i].0 != k {
      GetFromMeaning(d, k, i + 1);
      if exists j :: i <= j < |d| && d[j].0 == k {
        var j :| i <= j < |d| && d[j].0 == k;
        assert j != i;
      }
    }
  }

  /** `d.get(k)` is the value of the i-th entry when no entry before it has the same key
      (in particular, in a dictionary with distinct keys). */
  lemma GetFirst(d: Dict, i: nat)
    requires i < |d|
    requires forall j :: 0 <= j < i ==> d[j].0 != d[i].0
    ensures Get(d, d[i].0) == Some(d[i].1)
  {
    GetFirstFrom(d, i, 0);
  }

  lemma {:induction false} GetFirstFrom(d: Dict, i: nat, from: nat)
    requires from <= i < |d|
    requires forall j :: from <= j < i ==> d[j].0 != d[i].0
    ensures GetFrom(d, d[i].0, from) == Some(d[i].1)
    decreases i - from
  {
    if from < i {
      GetFirstFrom(d, i, from + 1);
    }
  }

  /** The dictionary whose i-th entry is `(ks[i], vs[i])`. */
  function Zip(ks: seq<string>, vs: seq<Json>): (d: Dict)
    requires |ks| == |vs|
    ensures |d| == |ks| && Keys(d) == ks
    ensures forall i :: 0 <= i < |d| ==> d[i] == (ks[i], vs[i])
  {
    seq(|ks|, i requires 0 <= i < |ks| => (ks[i], vs[i]))
  }

  /** `Zip` reads back the i-th value under the i-th key when no earlier key equals it. */
  lemma GetZip(ks: seq<string>, vs: seq<Json>, i: nat)
    requires |ks| == |vs| && i < |ks|
    requires forall j :: 0 <= j < i ==> ks[j] != ks[i]
    ensures Get(Zip(ks, vs), ks[i]) == Some(vs[i])
  {
    GetFirst(Zip(ks, vs), i);
  }

  /** `d.get(k, default)`: a key that is present wins even when its value is null. */
  function GetOr(d: Dict, k: string, default: Json): Json {
    match Get(d, k)
    case Some(v) => v
    case None => default
  }

  /** `d` without the entries for `k`, the others in their order. */
  function Without(d: Dict, k: string): (r: Dict)
    ensures k !in Keys(r)
    ensures forall e :: e in r <==> e in d && e.0 != k
  {
    if d == [] then []
    else if d[0].0 == k then Without(d[1..], k)
    else [d[0]] + Without(d[1..], k)
  }

  /** `d.pop(k, default)`: the value under `k` (or `default`) and what is left of `d`. */
  function Pop(d: Dict, k: string, default: Json): (r: (Json, Dict))
    ensures Get(d, k).Some? ==> r.0 == Get(d, k).value
    ensures Get(d, k).None? ==> r.0 == default
    ensures k !in Keys(r.1)
    ensures forall e :: e in r.1 <==> e in d && e.0 != k
    ensures r.1 == Without(d, k)
  {
    (GetOr(d, k, default), Without(d, k))
  }

  /** Python truthiness of a JSON value (`bool(x)`). */
  predicate Truthy(j: Json) {
    match j
    case JNull => false
    case JBool(b) => b
    case JNum(n) => n != 0
    case JStr(s) => s != ""
    case JArr(xs) => xs != []
    case JObj(fs) => fs != []
  }

  /** A Python `Optional[str]` as JSON: `None` becomes null. */
  function OptStr(o: Option<string>): Json {
    match o
    case Some(s) => JStr(s)
    case None => JNull
  }

  /** A list of strings as a JSON array. */
  function StrList(xs: seq<string>): (j: Json)
    ensures j.JArr? && |j.items| == |xs|
    ensures forall i :: 0 <= i < |xs| ==> j.items[i] == JStr(xs[i])
  {
    JArr(seq(|xs|, i requires 0 <= i < |xs| => JStr(xs[i])))
  }
}
