/**
 * Python dictionaries as the importer uses them: a sequence of key/value
 * pairs in insertion order. Assigning to a key that is present replaces its
 * value where it stands; assigning to a new key appends it at the end.
 */
module OrderedDict {

  /** The keys in iteration order. */
  function Keys<K, V>(d: seq<(K, V)>): (ks: seq<K>)
    ensures |ks| == |d|
    ensures forall i :: 0 <= i < |d| ==> ks[i] == d[i].0
  {
    seq(|d|, i requires 0 <= i < |d| => d[i].0)
  }

  /** The values in iteration order (`d.values()`). */
  function Values<K, V>(d: seq<(K, V)>): (vs: seq<V>)
    ensures |vs| == |d|
    ensures forall i :: 0 <= i < |d| ==> vs[i] == d[i].1
  {
    seq(|d|, i requires 0 <= i < |d| => d[i].1)
  }

  /** No key appears twice, as in every Python dict. */
  predicate Distinct<K(==), V>(d: seq<(K, V)>)
  {
    forall i, j :: 0 <= i < j < |d| ==> d[i].0 != d[j].0
  }

  /** Where `k` stands in `d`. */
  function IndexOf<K(==), V>(d: seq<(K, V)>, k: K): (i: nat)
    requires k in Keys(d)
    ensures i < |d| && d[i].0 == k
    ensures forall j :: 0 <= j < i ==> d[j].0 != k
  {
    if d[0].0 == k then 0 else 1 + IndexOf(d[1..], k)
  }

  /** `d[k]`. */
  function Get<K(==), V>(d: seq<(K, V)>, k: K): V
    requires k in Keys(d)
  {
    d[IndexOf(d, k)].1
  }

  /** `d.get(k, default)`. */
  function GetOr<K(==), V>(d: seq<(K, V)>, k: K, default: V): (v: V)
    ensures k in Keys(d) ==> v == Get(d, k)
    ensures k !in Keys(d) ==> v == default
  {
    if k in Keys(d) then Get(d, k) else default
  }

  /** In a dict without repeated keys, the pair at position `i` is the one `Get` finds. */
  lemma GetAt<K, V>(d: seq<(K, V)>, i: int)
    requires Distinct(d) && 0 <= i < |d|
    ensures d[i].0 in Keys(d) && Get(d, d[i].0) == d[i].1
  {
    assert Keys(d)[i] == d[i].0;
  }

  /** `d[k] = v`. */
  function Put<K(==), V>(d: seq<(K, V)>, k: K, v: V): seq<(K, V)>
  {
    if k in Keys(d) then d[IndexOf(d, k) := (k, v)] else d + [(k, v)]
  }

  /**
   * Assignment keeps the key order (a new key goes last), makes `k` map to
   * `v`, leaves every other entry alone and keeps the keys distinct.
   */
  lemma PutSpec<K, V>(d: seq<(K, V)>, k: K, v: V)
    ensures k in Keys(d) ==> Keys(Put(d, k, v)) == Keys(d)
    ensures k !in Keys(d) ==> Keys(Put(d, k, v)) == Keys(d) + [k]
    ensures k in Keys(Put(d, k, v)) && Get(Put(d, k, v), k) == v
    ensures forall k' :: k' != k && k' in Keys(d) ==> Get(Put(d, k, v), k') == Get(d, k')
    ensures Distinct(d) ==> Distinct(Put(d, k, v))
  {
    if k in Keys(d) {
      var i := IndexOf(d, k);
      PutAtGet(d, i, k, v);
      assert Keys(Put(d, k, v)) == Keys(d);
    } else {
      AppendGet(d, k, v);
    }
  }

  lemma PutAtGet<K, V>(d: seq<(K, V)>, i: nat, k: K, v: V)
    requires i < |d| && d[i].0 == k && forall j :: 0 <= j < i ==> d[j].0 != k
    ensures Keys(d[i := (k, v)]) == Keys(d)
    ensures Get(d[i := (k, v)], k) == v
    ensures forall k' :: k' != k && k' in Keys(d) ==> Get(d[i := (k, v)], k') == Get(d, k')
  {
    var r := d[i := (k, v)];
    assert Keys(r) == Keys(d);
    assert IndexOf(r, k) == i by {
      var j := IndexOf(r, k);
      assert !(j < i);
      assert !(i < j);
    }
    forall k' | k' != k && k' in Keys(d) ensures Get(r, k') == Get(d, k') {
      var a, b := IndexOf(r, k'), IndexOf(d, k');
      assert !(a < b) && !(b < a);
    }
  }

  lemma AppendGet<K, V>(d: seq<(K, V)>, k: K, v: V)
    requires k !in Keys(d)
    ensures Keys(d + [(k, v)]) == Keys(d) + [k]
    ensures Get(d + [(k, v)], k) == v
    ensures forall k' :: k' in Keys(d) ==> Get(d + [(k, v)], k') == Get(d, k')
  {
    var r := d + [(k, v)];
    assert Keys(r) == Keys(d) + [k];
    assert IndexOf(r, k) == |d|;
    forall k' | k' in Keys(d) ensures Get(r, k') == Get(d, k') {
      var a, b := IndexOf(r, k'), IndexOf(d, k');
      assert r[b] == d[b];
      assert !(b < a);
      assert r[a] == d[a];
      assert !(a < b);
    }
  }

  /** `d.get` after a `Put`: the new value under its key, the old one under any other. */
  lemma PutGetOr<K, V>(d: seq<(K, V)>, k: K, v: V, k': K, default: V)
    ensures GetOr(Put(d, k, v), k', default) == if k' == k then v else GetOr(d, k', default)
  {
    PutSpec(d, k, v);
    if k' != k && k' in Keys(Put(d, k, v)) {
      assert k' in Keys(d);
    }
  }

  /** `d.setdefault(k, []).append(x)`: the list under `k` gains `x` at its end. */
  function AppendAt<K(==), E>(d: seq<(K, seq<E>)>, k: K, x: E): seq<(K, seq<E>)>
  {
    Put(d, k, GetOr(d, k, []) + [x])
  }

  /** The list under `k` gains `x` at its end and nothing else changes. */
  lemma AppendAtSpec<K, E>(d: seq<(K, seq<E>)>, k: K, x: E)
    ensures var r := AppendAt(d, k, x);
            k in Keys(r) && Get(r, k) == GetOr(d, k, []) + [x]
            && Keys(r) == (if k in Keys(d) then Keys(d) else Keys(d) + [k])
            && (forall k' :: k' != k && k' in Keys(d) ==> k' in Keys(r) && Get(r, k') == Get(d, k'))
            && (Distinct(d) ==> Distinct(r))
  {
    PutSpec(d, k, GetOr(d, k, []) + [x]);
  }

  /** The distinct elements of `s`, each where it first occurs. */
  function Dedup<T(==,!new)>(s: seq<T>): (r: seq<T>)
    ensures forall x :: x in r <==> x in s
    ensures forall i, j :: 0 <= i < j < |r| ==> r[i] != r[j]
  {
    if s == [] then []
    else
      var r := Dedup(s[..|s| - 1]);
      assert s == s[..|s| - 1] + [s[|s| - 1]];
      if s[|s| - 1] in r then r else r + [s[|s| - 1]]
  }

  /**
   * `Dedup` keeps the order of first occurrence: whatever comes earlier in
   * the result occurs in `s` before every occurrence of what comes later.
   */
  lemma {:induction false} DedupOrder<T(!new)>(s: seq<T>)
    ensures forall i, j, k :: 0 <= i < j < |Dedup(s)| && 0 <= k < |s| && s[k] == Dedup(s)[j] ==>
              Dedup(s)[i] in s[..k]
  {
    if s != [] {
      var init, last := s[..|s| - 1], s[|s| - 1];
      var r0, r := Dedup(init), Dedup(s);
      DedupOrder(init);
      assert r == if last in r0 then r0 else r0 + [last];
      forall i, j, k | 0 <= i < j < |r| && 0 <= k < |s| && s[k] == r[j]
        ensures r[i] in s[..k]
      {
        if j < |r0| {
          assert r[i] == r0[i] && r[j] == r0[j];
        }
        if k < |init| {
          assert init[..k] == s[..k] && init[k] == s[k];
          if j == |r0| {
            assert false;
          }
        } else if j < |r0| {
          var k' :| 0 <= k' < |init| && init[k'] == r0[j];
          assert r0[i] in init[..k'];
          assert init[..k'] <= s[..k];
        } else {
          assert r0[i] in r0;
          assert s[..k] == init;
        }
      }
    }
  }

  /** A dict whose keys are distinct lists each key once. */
  lemma KeysDistinct<K(!new), V>(d: seq<(K, V)>)
    requires Distinct(d)
    ensures Dedup(Keys(d)) == Keys(d)
  {
    if d != [] {
      var p := d[..|d| - 1];
      assert Keys(d)[..|d| - 1] == Keys(p);
      KeysDistinct(p);
    }
  }
}
