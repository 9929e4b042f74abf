/** An insertion-ordered dictionary with the semantics of a Python `dict`:
    assigning to a new key appends it, assigning to an existing key
    replaces its value in place. Built by a left-to-right series of
    assignments (a dict comprehension, `update`, or a loop of `d[k] = v`),
    a dictionary holds, for every key, the last value assigned to it, and
    lists its keys in the order of their first assignment. */
module OrderedDict {
  import opened Wrappers

  /** Entries in key order; keys are pairwise distinct in every dictionary
      built by `Put`. */
  type Dict<K, V> = seq<(K, V)>

  function Keys<K, V>(d: Dict<K, V>): seq<K> {
    seq(|d|, i requires 0 <= i < |d| => d[i].0)
  }

  function Values<K, V>(d: Dict<K, V>): seq<V> {
    seq(|d|, i requires 0 <= i < |d| => d[i].1)
  }

  predicate DistinctKeys<K(==, !new), V>(d: Dict<K, V>) {
    forall i, j :: 0 <= i < j < |d| ==> d[i].0 != d[j].0
  }

  /** Position of key `k`, if present. */
  function Find<K(==, !new), V>(d: Dict<K, V>, k: K): (r: Option<nat>)
    ensures r.None? <==> k !in Keys(d)
    ensures r.Some? ==> r.value < |d| && d[r.value].0 == k
    ensures r.Some? ==> forall j :: r.value < j < |d| ==> d[j].0 != k
  {
    if |d| == 0 then None
    else if d[|d| - 1].0 == k then
      assert Keys(d)[|d| - 1] == k;
      Some(|d| - 1)
    else
      assert Keys(d) == Keys(d[..|d| - 1]) + [d[|d| - 1].0];
      Find(d[..|d| - 1], k)
  }

  /** `d.get(k)`. */
  function Get<K(==, !new), V>(d: Dict<K, V>, k: K): Option<V> {
    match Find(d, k)
    case None => None
    case Some(i) => Some(d[i].1)
  }

  /** `d[k] = v`. */
  function Put<K(==, !new), V>(d: Dict<K, V>, k: K, v: V): (r: Dict<K, V>)
    ensures DistinctKeys(d) ==> DistinctKeys(r)
    ensures k in Keys(d) ==> Keys(r) == Keys(d)
    ensures k !in Keys(d) ==> Keys(r) == Keys(d) + [k]
  {
    match Find(d, k)
    case None =>
      assert forall i :: 0 <= i < |d| ==> Keys(d)[i] == d[i].0;
      var r := d + [(k, v)];
      assert Keys(r) == Keys(d) + [k];
      r
    case Some(i) =>
      var r := d[i := (k, v)];
      assert Keys(r) == Keys(d);
      assert DistinctKeys(d) ==> DistinctKeys(r) by {
        if DistinctKeys(d) {
          forall a, b | 0 <= a < b < |r| ensures r[a].0 != r[b].0 {
            assert r[a].0 == d[a].0 && r[b].0 == d[b].0;
          }
        }
      }
      r
  }

  /** After `d[k] = v`, `k` maps to `v` and every other key keeps its
      value. */
  lemma PutGet<K(!new), V>(d: Dict<K, V>, k: K, v: V, k': K)
    ensures Get(Put(d, k, v), k') == if k' == k then Some(v) else Get(d, k')
  {
    match Find(d, k)
    case None =>
      assert (d + [(k, v)])[..|d|] == d;
    case Some(i) =>
      PutExistingGet(d, i, k, v);
  }

  /** Replacing the last entry with key `k` changes the value of `k` and
      nothing else. */
  lemma {:induction false} PutExistingGet<K(!new), V>(d: Dict<K, V>, i: nat, k: K, v: V)
    requires i < |d| && d[i].0 == k
    requires forall j :: i < j < |d| ==> d[j].0 != k
    ensures Get(d[i := (k, v)], k) == Some(v)
    ensures forall k' :: k' != k ==> Get(d[i := (k, v)], k') == Get(d, k')
    decreases |d|
  {
    var r := d[i := (k, v)];
    var n := |d| - 1;
    if i == n {
      assert r[..n] == d[..n];
    } else {
      assert r[..n] == d[..n][i := (k, v)];
      PutExistingGet(d[..n], i, k, v);
    }
    forall k' | k' != k
      ensures Get(r, k') == Get(d, k')
    {
      GetLast(r, k');
      GetLast(d, k');
    }
  }

  /** Lookup in a dictionary split at its last entry. */
  lemma GetLast<K(!new), V>(d: Dict<K, V>, k: K)
    requires |d| > 0
    ensures Get(d, k) == if d[|d| - 1].0 == k then Some(d[|d| - 1].1) else Get(d[..|d| - 1], k)
  {
  }

  /** The assignments `d[k] = v` for every pair of `ps`, in order. */
  function PutAll<K(==, !new), V>(d: Dict<K, V>, ps: seq<(K, V)>): Dict<K, V>
    decreases |ps|
  {
    if |ps| == 0 then d
    else
      var last := ps[|ps| - 1];
      Put(PutAll(d, ps[..|ps| - 1]), last.0, last.1)
  }

  /** `{k: v for k, v in ps}`. */
  function FromPairs<K(==, !new), V>(ps: seq<(K, V)>): Dict<K, V> {
    PutAll([], ps)
  }

  // Reference semantics

  /** The value of the last pair of `ps` whose key is `k`. */
  function LastValue<K(==, !new), V>(ps: seq<(K, V)>, k: K): Option<V>
    decreases |ps|
  {
    if |ps| == 0 then None
    else if ps[|ps| - 1].0 == k then Some(ps[|ps| - 1].1)
    else LastValue(ps[..|ps| - 1], k)
  }

  /** The value of the first pair of `ps` whose key is `k`. */
  function FirstValue<K(==, !new), V>(ps: seq<(K, V)>, k: K): Option<V>
    decreases |ps|
  {
    if |ps| == 0 then None
    else if ps[0].0 == k then Some(ps[0].1)
    else FirstValue(ps[1..], k)
  }

  function Reverse<T>(s: seq<T>): (r: seq<T>)
    ensures |r| == |s|
    ensures forall i :: 0 <= i < |s| ==> r[i] == s[|s| - 1 - i]
    decreases |s|
  {
    if |s| == 0 then [] else [s[|s| - 1]] + Reverse(s[..|s| - 1])
  }

  /** Position of the first pair with key `k`. */
  function FirstIndex<K(==, !new), V>(ps: seq<(K, V)>, k: K): (r: nat)
    requires k in Keys(ps)
    ensures r < |ps| && ps[r].0 == k
    ensures forall i :: 0 <= i < r ==> ps[i].0 != k
    decreases |ps|
  {
    if ps[0].0 == k then 0
    else
      assert Keys(ps) == [ps[0].0] + Keys(ps[1..]);
      1 + FirstIndex(ps[1..], k)
  }

  // Properties

  /** After a series of assignments a key holds the last value assigned to
      it, or its earlier value when it was not assigned. */
  lemma {:induction false} PutAllGet<K(!new), V>(d: Dict<K, V>, ps: seq<(K, V)>, k: K)
    ensures Get(PutAll(d, ps), k) == if LastValue(ps, k).Some? then LastValue(ps, k) else Get(d, k)
    decreases |ps|
  {
    if |ps| > 0 {
      var last := ps[|ps| - 1];
      PutAllGet(d, ps[..|ps| - 1], k);
      PutGet(PutAll(d, ps[..|ps| - 1]), last.0, last.1, k);
    }
  }

  /** A comprehension holds, for each key, the value of its last pair. */
  lemma FromPairsGet<K(!new), V>(ps: seq<(K, V)>, k: K)
    ensures Get(FromPairs(ps), k) == LastValue(ps, k)
  {
    PutAllGet([], ps, k);
  }

  /** Assignments keep the keys distinct. */
  lemma {:induction false} PutAllDistinct<K(!new), V>(d: Dict<K, V>, ps: seq<(K, V)>)
    requires DistinctKeys(d)
    ensures DistinctKeys(PutAll(d, ps))
    decreases |ps|
  {
    if |ps| > 0 {
      PutAllDistinct(d, ps[..|ps| - 1]);
    }
  }

  lemma KeysSnoc<K, V>(d: Dict<K, V>, x: (K, V))
    ensures Keys(d + [x]) == Keys(d) + [x.0]
  {
  }

  /** The old keys keep their positions under assignments. */
  lemma {:induction false} PutAllKeysPrefix<K(!new), V>(d: Dict<K, V>, ps: seq<(K, V)>)
    ensures |PutAll(d, ps)| >= |d| && Keys(PutAll(d, ps))[..|d|] == Keys(d)
    decreases |ps|
  {
    if |ps| > 0 {
      var n := |ps| - 1;
      var prev := PutAll(d, ps[..n]);
      PutAllKeysPrefix(d, ps[..n]);
      if ps[n].0 !in Keys(prev) {
        assert (Keys(prev) + [ps[n].0])[..|d|] == Keys(prev)[..|d|];
      }
    }
  }

  /** A key is present after assignments iff it was present or assigned. */
  lemma {:induction false} PutAllKeysMembers<K(!new), V>(d: Dict<K, V>, ps: seq<(K, V)>, k: K)
    ensures k in Keys(PutAll(d, ps)) <==> k in Keys(d) || k in Keys(ps)
    decreases |ps|
  {
    if |ps| > 0 {
      var n := |ps| - 1;
      PutAllKeysMembers(d, ps[..n], k);
      assert ps == ps[..n] + [ps[n]];
      KeysSnoc(ps[..n], ps[n]);
    }
  }

  /** A comprehension lists its keys in the order of their first
      occurrence among the pairs. */
  lemma FromPairsKeyOrder<K(!new), V>(ps: seq<(K, V)>)
    ensures forall k :: k in Keys(FromPairs(ps)) <==> k in Keys(ps)
    ensures forall i, j :: 0 <= i < j < |FromPairs(ps)| ==>
              FirstIndex(ps, Keys(FromPairs(ps))[i]) < FirstIndex(ps, Keys(FromPairs(ps))[j])
  {
    forall k ensures k in Keys(FromPairs(ps)) <==> k in Keys(ps) {
      PutAllKeysMembers([], ps, k);
    }
    forall i, j | 0 <= i < j < |FromPairs(ps)|
      ensures FirstIndex(ps, Keys(FromPairs(ps))[i]) < FirstIndex(ps, Keys(FromPairs(ps))[j])
    {
      FromPairsKeyOrderAt(ps, i, j);
    }
  }

  lemma {:induction false} FromPairsKeyOrderAt<K(!new), V>(ps: seq<(K, V)>, i: nat, j: nat)
    requires i < j < |FromPairs(ps)|
    ensures Keys(FromPairs(ps))[i] in Keys(ps) && Keys(FromPairs(ps))[j] in Keys(ps)
    ensures FirstIndex(ps, Keys(FromPairs(ps))[i]) < FirstIndex(ps, Keys(FromPairs(ps))[j])
    decreases |ps|
  {
    var r := FromPairs(ps);
    PutAllKeysMembers([], ps, Keys(r)[i]);
    PutAllKeysMembers([], ps, Keys(r)[j]);
    var n := |ps| - 1;
    var prev := FromPairs(ps[..n]);
    FromPairsSnoc(ps);
    if j < |prev| {
      OldKeysKept(prev, ps[n].0, ps[n].1, i);
      OldKeysKept(prev, ps[n].0, ps[n].1, j);
      FromPairsKeyOrderAt(ps[..n], i, j);
      FirstIndexPrefix(ps, n, Keys(prev)[i]);
      FirstIndexPrefix(ps, n, Keys(prev)[j]);
    } else {
      NewKeyLast(prev, ps[n].0, ps[n].1, i, j);
      PutAllKeysMembers([], ps[..n], Keys(prev)[i]);
      PutAllKeysMembers([], ps[..n], ps[n].0);
      FirstIndexPrefix(ps, n, Keys(prev)[i]);
      FirstIndexLast(ps, n);
    }
  }

  lemma FromPairsSnoc<K(!new), V>(ps: seq<(K, V)>)
    requires |ps| > 0
    ensures FromPairs(ps) == Put(FromPairs(ps[..|ps| - 1]), ps[|ps| - 1].0, ps[|ps| - 1].1)
  {
  }

  lemma OldKeysKept<K(!new), V>(d: Dict<K, V>, k: K, v: V, i: nat)
    requires i < |d|
    ensures i < |Put(d, k, v)| && Keys(Put(d, k, v))[i] == Keys(d)[i]
  {
  }

  lemma NewKeyLast<K(!new), V>(d: Dict<K, V>, k: K, v: V, i: nat, j: nat)
    requires i < j < |Put(d, k, v)| && j >= |d|
    ensures Keys(Put(d, k, v))[i] == Keys(d)[i] && Keys(Put(d, k, v))[j] == k
    ensures k !in Keys(d)
  {
  }

  lemma FirstIndexLast<K(!new), V>(ps: seq<(K, V)>, n: nat)
    requires n == |ps| - 1 && ps[n].0 !in Keys(ps[..n])
    ensures ps[n].0 in Keys(ps) && FirstIndex(ps, ps[n].0) == n
  {
    assert Keys(ps)[n] == ps[n].0;
    assert forall f :: 0 <= f < n ==> Keys(ps[..n])[f] == ps[f].0;
  }

  lemma {:induction false} FirstIndexPrefix<K(!new), V>(ps: seq<(K, V)>, n: nat, k: K)
    requires n <= |ps| && k in Keys(ps[..n])
    ensures k in Keys(ps) && FirstIndex(ps, k) == FirstIndex(ps[..n], k)
    decreases n
  {
    var f := FirstIndex(ps[..n], k);
    assert ps[f].0 == k && Keys(ps)[f] == k;
    var g := FirstIndex(ps, k);
    assert g <= f;
    assert ps[..n][g].0 == k;
  }

  /** The first pair of a list is the last pair of its reverse. */
  lemma {:induction false} LastValueReverse<K(!new), V>(ps: seq<(K, V)>, k: K)
    ensures LastValue(Reverse(ps), k) == FirstValue(ps, k)
    decreases |ps|
  {
    if |ps| > 0 {
      var r := Reverse(ps);
      assert r[|r| - 1] == ps[0];
      assert r[..|r| - 1] == Reverse(ps[1..]);
      LastValueReverse(ps[1..], k);
    }
  }

  /** No element occurs twice. */
  predicate NoDuplicates<T(==)>(s: seq<T>) {
    forall i, j :: 0 <= i < j < |s| ==> s[i] != s[j]
  }

  /** `a` is `b` with some elements dropped, the rest in their order. */
  predicate IsSubsequence<T(==)>(a: seq<T>, b: seq<T>)
    decreases |b|
  {
    |a| == 0 ||
    (|b| > 0 && ((a[0] == b[0] && IsSubsequence(a[1..], b[1..])) || IsSubsequence(a, b[1..])))
  }

  /** `[k for k, v in d.items() if keep(v)]`: the keys in dictionary order,
      some left out. */
  function KeysWhere<K(==), V>(d: Dict<K, V>, keep: V -> bool): (r: seq<K>)
    ensures forall k :: k in r ==> k in Keys(d)
    ensures IsSubsequence(r, Keys(d))
    decreases |d|
  {
    if |d| == 0 then []
    else
      var rest := KeysWhere(d[1..], keep);
      assert Keys(d) == [d[0].0] + Keys(d[1..]);
      assert Keys(d)[1..] == Keys(d[1..]);
      if keep(d[0].1) then
        assert ([d[0].0] + rest)[1..] == rest;
        [d[0].0] + rest
      else rest
  }

  /** A dictionary's selected keys are listed once each. */
  lemma {:induction false} KeysWhereNoDuplicates<K(!new), V>(d: Dict<K, V>, keep: V -> bool)
    requires DistinctKeys(d)
    ensures NoDuplicates(KeysWhere(d, keep))
    decreases |d|
  {
    if |d| > 0 {
      assert DistinctKeys(d[1..]) by {
        forall i, j | 0 <= i < j < |d[1..]| ensures d[1..][i].0 != d[1..][j].0 {
          assert d[1..][i] == d[i + 1] && d[1..][j] == d[j + 1];
        }
      }
      KeysWhereNoDuplicates(d[1..], keep);
      assert d[0].0 !in Keys(d[1..]) by {
        forall i | 0 <= i < |d[1..]| ensures Keys(d[1..])[i] != d[0].0 {
          assert d[1..][i] == d[i + 1];
        }
      }
    }
  }

  /** A key is listed iff the dictionary maps it to a kept value. */
  lemma {:induction false} KeysWhereGet<K(!new), V>(d: Dict<K, V>, keep: V -> bool, k: K)
    requires DistinctKeys(d)
    ensures k in KeysWhere(d, keep) <==> Get(d, k).Some? && keep(Get(d, k).value)
    decreases |d|
  {
    if |d| > 0 {
      KeysWhereGet(d[1..], keep, k);
      GetCons(d, k);
    }
  }

  /** Lookup in a dictionary split at its first entry. */
  lemma {:induction false} GetCons<K(!new), V>(d: Dict<K, V>, k: K)
    requires |d| > 0 && DistinctKeys(d)
    ensures Get(d, k) == if d[0].0 == k then Some(d[0].1) else Get(d[1..], k)
    ensures DistinctKeys(d[1..])
    decreases |d|
  {
    var n := |d| - 1;
    if n == 0 {
    } else if d[n].0 == k {
      assert d[1..][n - 1] == d[n];
    } else {
      assert d[1..][..n - 1] == d[..n][1..];
      GetCons(d[..n], k);
    }
  }
}
