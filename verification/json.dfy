/** An abstract JSON value, standing for what `JSON.stringify` receives and what
    `response.json()` yields. Objects keep their members in insertion order, as a
    JavaScript object with string keys does. */
module Json {
  import opened Wrappers

  datatype Json =
    | Null
    | Bool(b: bool)
    | Num(n: int)
    | Str(s: string)
    | Arr(items: seq<Json>)
    | Obj(members: seq<Member>)

  datatype Member = Member(key: string, value: Json)

  /** The keys of an object, in insertion order. */
  function Keys(ms: seq<Member>): (ks: seq<string>)
    ensures |ks| == |ms|
  {
    if ms == [] then [] else [ms[0].key] + Keys(ms[1..])
  }

  /** The i-th key is the key of the i-th member. */
  lemma {:induction false} KeysAt(ms: seq<Member>)
    ensures forall i :: 0 <= i < |ms| ==> Keys(ms)[i] == ms[i].key
  {
    if ms != [] {
      KeysAt(ms[1..]);
    }
  }

  /** A list of strings without repetition. */
  predicate Distinct(ks: seq<string>) {
    forall i, j :: 0 <= i < j < |ks| ==> ks[i] != ks[j]
  }

  /** No key occurs twice, as in every JavaScript object. */
  predicate DistinctKeys(ms: seq<Member>) {
    Distinct(Keys(ms))
  }

  /** Property read `o[k]`: the value stored under `k`, or None when `k` is not a key. */
  function Get(ms: seq<Member>, k: string): (r: Option<Json>)
    ensures r.Some? <==> k in Keys(ms)
  {
    if ms == [] then None
    else if ms[0].key == k then Some(ms[0].value)
    else Get(ms[1..], k)
  }

  /** The member list with the value under the first occurrence of `k` replaced by `v`;
      keys and their order are kept. */
  function Replace(ms: seq<Member>, k: string, v: Json): (r: seq<Member>)
    ensures Keys(r) == Keys(ms)
    ensures k in Keys(ms) ==> Get(r, k) == Some(v)
  {
    if ms == [] then []
    else if ms[0].key == k then
      var r := [Member(k, v)] + ms[1..];
      assert r[1..] == ms[1..];
      r
    else
      var r := [ms[0]] + Replace(ms[1..], k, v);
      assert r[1..] == Replace(ms[1..], k, v);
      r
  }

  /** Property assignment `o[k] = v`: an existing key keeps its position and takes the
      new value; a new key is appended after all existing ones. */
  function Set(ms: seq<Member>, k: string, v: Json): (r: seq<Member>)
    ensures Keys(r) == if k in Keys(ms) then Keys(ms) else Keys(ms) + [k]
    ensures Get(r, k) == Some(v)
    ensures k !in Keys(ms) ==> r == ms + [Member(k, v)]
  {
    if k in Keys(ms) then Replace(ms, k, v)
    else
      KeysConcat(ms, [Member(k, v)]);
      GetConcat(ms, [Member(k, v)], k);
      ms + [Member(k, v)]
  }

  /** Replacing the value under `k` leaves the value under every other key as it was. */
  lemma {:induction false} ReplaceFrame(ms: seq<Member>, k: string, v: Json, k2: string)
    requires k2 != k
    ensures Get(Replace(ms, k, v), k2) == Get(ms, k2)
  {
    if ms != [] && ms[0].key != k {
      ReplaceFrame(ms[1..], k, v, k2);
      assert ([ms[0]] + Replace(ms[1..], k, v))[1..] == Replace(ms[1..], k, v);
    } else if ms != [] {
      assert ([Member(k, v)] + ms[1..])[1..] == ms[1..];
    }
  }

  /** Assignment `o[k] = v` leaves every other property of `o` as it was. */
  lemma SetFrame(ms: seq<Member>, k: string, v: Json, k2: string)
    requires k2 != k
    ensures Get(Set(ms, k, v), k2) == Get(ms, k2)
  {
    if k in Keys(ms) {
      ReplaceFrame(ms, k, v, k2);
    } else {
      GetConcat(ms, [Member(k, v)], k2);
    }
  }

  /** Property read finds a member of the object, and it is the first member carrying
      the key. */
  lemma {:induction false} GetFindsMember(ms: seq<Member>, k: string)
    ensures Get(ms, k).Some? ==> Member(k, Get(ms, k).value) in ms
    ensures forall i :: 0 <= i < |ms| && ms[i].key == k && k !in Keys(ms[..i]) ==>
              Get(ms, k) == Some(ms[i].value)
  {
    if ms != [] {
      GetFindsMember(ms[1..], k);
      forall i | 0 <= i < |ms| && ms[i].key == k && k !in Keys(ms[..i])
        ensures Get(ms, k) == Some(ms[i].value)
      {
        if i > 0 {
          assert ms[..i] == [ms[0]] + ms[1..][..i - 1];
          assert Keys(ms[..i]) == [ms[0].key] + Keys(ms[1..][..i - 1]);
          assert ms[1..][i - 1] == ms[i];
        }
      }
    }
  }

  lemma {:induction false} KeysConcat(ms: seq<Member>, ns: seq<Member>)
    ensures Keys(ms + ns) == Keys(ms) + Keys(ns)
  {
    if ms != [] {
      KeysConcat(ms[1..], ns);
      assert (ms + ns)[1..] == ms[1..] + ns;
    } else {
      assert ms + ns == ns;
    }
  }

  /** Reading from a concatenation finds the first part's member when there is one. */
  lemma {:induction false} GetConcat(ms: seq<Member>, ns: seq<Member>, k: string)
    ensures Get(ms + ns, k) == if k in Keys(ms) then Get(ms, k) else Get(ns, k)
  {
    if ms != [] {
      GetConcat(ms[1..], ns, k);
      assert (ms + ns)[1..] == ms[1..] + ns;
      assert Keys(ms) == [ms[0].key] + Keys(ms[1..]);
    } else {
      assert ms + ns == ns;
    }
  }
}
