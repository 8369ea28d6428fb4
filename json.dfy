/**
 * Python values as the core builds them before handing them to `json.dumps`
 * or to the NBT library: None, bool, int, float, str, list and dict. A dict
 * is an ordered list of key/value pairs (Python keeps insertion order).
 * Floats are exact `real` numbers here; rounding is not modelled.
 */
module Json {
  import opened Wrappers

  datatype Json =
    | JNull
    | JBool(b: bool)
    | JInt(i: int)
    | JReal(r: real)
    | JStr(s: string)
    | JArr(items: seq<Json>)
    | JObj(fields: Fields)

  type Fields = seq<(string, Json)>

  /** Python truthiness: None, False, 0, 0.0, "", [] and {} are false. */
  predicate Truthy(j: Json) {
    match j
    case JNull => false
    case JBool(b) => b
    case JInt(i) => i != 0
    case JReal(r) => r != 0.0
    case JStr(s) => s != ""
    case JArr(items) => items != []
    case JObj(fields) => fields != []
  }

  function Keys(f: Fields): (ks: seq<string>)
    ensures |ks| == |f|
    ensures forall i :: 0 <= i < |f| ==> ks[i] == f[i].0
  {
    if |f| == 0 then [] else [f[0].0] + Keys(f[1..])
  }

  predicate HasKey(f: Fields, k: string) {
    k in Keys(f)
  }

  /** A dict never holds a key twice. */
  predicate UniqueKeys(f: Fields) {
    forall i, j :: 0 <= i < j < |f| ==> f[i].0 != f[j].0
  }

  /** `d.get(k)`: None when the key is absent. */
  function Get(f: Fields, k: string): (r: Option<Json>)
    ensures r.Some? <==> HasKey(f, k)
  {
    if |f| == 0 then None
    else if f[0].0 == k then Some(f[0].1)
    else
      assert Keys(f) == [f[0].0] + Keys(f[1..]);
      Get(f[1..], k)
  }

  /** `d[k] = v`: an existing key keeps its position, a new key goes last. */
  function Put(f: Fields, k: string, v: Json): Fields {
    if |f| == 0 then [(k, v)]
    else if f[0].0 == k then [(k, v)] + f[1..]
    else [f[0]] + Put(f[1..], k, v)
  }

  /** `d.update(g)`: `d[k] = v` for every pair of `g`, in order. */
  function Update(f: Fields, g: Fields): Fields
    decreases |g|
  {
    if |g| == 0 then f else Update(Put(f, g[0].0, g[0].1), g[1..])
  }

  /** Storing under a key makes the key map to the value and leaves every
      other key as it was. */
  lemma {:induction false} PutGet(f: Fields, k: string, v: Json)
    ensures Get(Put(f, k, v), k) == Some(v)
    ensures forall k' :: k' != k ==> Get(Put(f, k, v), k') == Get(f, k')
  {
    if |f| > 0 && f[0].0 != k {
      PutGet(f[1..], k, v);
    }
  }

  /** Storing under a key changes the key order only by a new key at the end. */
  lemma {:induction false} PutKeys(f: Fields, k: string, v: Json)
    ensures Keys(Put(f, k, v)) == if HasKey(f, k) then Keys(f) else Keys(f) + [k]
  {
    if |f| > 0 {
      assert Keys(f) == [f[0].0] + Keys(f[1..]);
      if f[0].0 != k {
        PutKeys(f[1..], k, v);
        assert Keys(Put(f, k, v)) == [f[0].0] + Keys(Put(f[1..], k, v));
      } else {
        assert Keys(Put(f, k, v)) == [k] + Keys(f[1..]);
      }
    }
  }

  /** A dict stays a dict when a key is stored. */
  lemma PutUnique(f: Fields, k: string, v: Json)
    requires UniqueKeys(f)
    ensures UniqueKeys(Put(f, k, v))
  {
    PutKeys(f, k, v);
    var p := Put(f, k, v);
    var kp := Keys(p);
    var kf := Keys(f);
    assert forall i :: 0 <= i < |p| ==> p[i].0 == kp[i];
    if HasKey(f, k) {
      assert kp == kf;
    } else {
      assert forall i :: 0 <= i < |f| ==> kp[i] == f[i].0;
      assert kp[|f|] == k;
    }
  }

  /** After `d.update(g)`, a key of `g` maps to its value in `g` and every
      other key keeps its value in `d`. */
  lemma {:induction false} UpdateGet(f: Fields, g: Fields)
    requires UniqueKeys(g)
    ensures forall k :: Get(Update(f, g), k) == if HasKey(g, k) then Get(g, k) else Get(f, k)
    decreases |g|
  {
    if |g| > 0 {
      var f' := Put(f, g[0].0, g[0].1);
      PutGet(f, g[0].0, g[0].1);
      assert UniqueKeys(g[1..]);
      assert g[0].0 !in Keys(g[1..]);
      UpdateGet(f', g[1..]);
    }
  }

  /** `d.update(g)` keeps `d` a dict, and the old keys keep their order at
      the front. */
  lemma {:induction false} UpdateKeys(f: Fields, g: Fields)
    ensures UniqueKeys(f) ==> UniqueKeys(Update(f, g))
    ensures |f| <= |Update(f, g)| && Keys(f) == Keys(Update(f, g))[..|f|]
    decreases |g|
  {
    if |g| > 0 {
      var f' := Put(f, g[0].0, g[0].1);
      PutKeys(f, g[0].0, g[0].1);
      if UniqueKeys(f) {
        PutUnique(f, g[0].0, g[0].1);
      }
      UpdateKeys(f', g[1..]);
      assert Keys(f) == Keys(f')[..|f|];
    }
  }

  /** The lookup finds the first entry with the key. */
  lemma {:induction false} GetAt(f: Fields, i: nat, k: string)
    requires i < |f| && f[i].0 == k
    requires forall j :: 0 <= j < i ==> f[j].0 != k
    ensures Get(f, k) == Some(f[i].1)
  {
    if i > 0 {
      GetAt(f[1..], i - 1, k);
    }
  }

  /** The lookup in a list with a first entry tries that entry, then the
      rest. */
  lemma GetCons(e: (string, Json), rest: Fields, k: string)
    ensures Get([e] + rest, k) == if e.0 == k then Some(e.1) else Get(rest, k)
  {
    assert ([e] + rest)[1..] == rest;
  }

  lemma AbsentKey(f: Fields, k: string)
    requires forall j :: 0 <= j < |f| ==> f[j].0 != k
    ensures !HasKey(f, k) && Get(f, k) == None
  {
  }

  /** Storing under a new key appends the pair. */
  lemma {:induction false} PutNew(f: Fields, k: string, v: Json)
    requires forall j :: 0 <= j < |f| ==> f[j].0 != k
    ensures Put(f, k, v) == f + [(k, v)]
  {
    if |f| > 0 {
      PutNew(f[1..], k, v);
      assert [f[0]] + (f[1..] + [(k, v)]) == f + [(k, v)];
    }
  }

  /** Storing under a present key replaces its pair in place. */
  lemma {:induction false} PutExisting(f: Fields, i: nat, k: string, v: Json)
    requires i < |f| && f[i].0 == k
    requires forall j :: 0 <= j < i ==> f[j].0 != k
    ensures Put(f, k, v) == f[i := (k, v)]
  {
    if i > 0 {
      PutExisting(f[1..], i - 1, k, v);
      assert [f[0]] + f[1..][i - 1 := (k, v)] == f[i := (k, v)];
    }
  }
}
