/**
 * Secondary indices: a map from key to the ids carrying that key, each list kept sorted by
 * insertion position (src/core/store.rs:439-525). `keys` gives the current key of every id.
 */
module Indices {
  import opened Qso
  import opened StoreModel

  type Index<K> = map<K, seq<QsoId>>

  /** The reference: scan the canonical order and keep the ids whose key is `k`. */
  function Scan<K(==)>(order: seq<QsoId>, keys: map<QsoId, K>, k: K): seq<QsoId> {
    if order == [] then [] else
    var n := |order| - 1;
    Scan(order[..n], keys, k) + (if order[n] in keys && keys[order[n]] == k then [order[n]] else [])
  }

  /** `pos` inverts `order`. */
  ghost predicate Inverts(pos: map<QsoId, nat>, order: seq<QsoId>) {
    && (forall i :: 0 <= i < |order| ==> order[i] in pos && pos[order[i]] == i)
    && (forall id :: id in pos ==> pos[id] < |order| && order[pos[id]] == id)
  }

  ghost predicate SortedByPos(ids: seq<QsoId>, pos: map<QsoId, nat>) {
    && (forall i :: 0 <= i < |ids| ==> ids[i] in pos)
    && (forall i, j :: 0 <= i < j < |ids| ==> pos[ids[i]] < pos[ids[j]])
  }

  ghost predicate Lists<K>(ids: seq<QsoId>, keys: map<QsoId, K>, k: K) {
    forall id :: id in ids <==> id in keys && keys[id] == k
  }

  /** Local form of the index invariant: every bucket is sorted, complete, and not empty. */
  ghost predicate Indexed<K(!new)>(index: Index<K>, pos: map<QsoId, nat>, keys: map<QsoId, K>) {
    && (forall k :: k in index ==> index[k] != [] && SortedByPos(index[k], pos) && Lists(index[k], keys, k))
    && (forall id :: id in keys ==> keys[id] in index)
  }

  /** What users of an index rely on: looking a key up equals scanning for it. */
  ghost predicate MatchesScan<K(!new)>(index: Index<K>, order: seq<QsoId>, keys: map<QsoId, K>) {
    forall k :: (k in index <==> Scan(order, keys, k) != []) && (k in index ==> index[k] == Scan(order, keys, k))
  }

  lemma {:induction false} ScanIsSortedAndComplete<K>(order: seq<QsoId>, pos: map<QsoId, nat>, keys: map<QsoId, K>,
                                                      k: K, n: nat)
    requires Inverts(pos, order) && n <= |order|
    ensures SortedByPos(Scan(order[..n], keys, k), pos)
    ensures forall id :: id in Scan(order[..n], keys, k) <==> id in pos && pos[id] < n && id in keys && keys[id] == k
  {
    if n > 0 {
      ScanIsSortedAndComplete(order, pos, keys, k, n - 1);
      assert order[..n][..n - 1] == order[..n - 1];
      var id, ids := order[n - 1], Scan(order[..n - 1], keys, k);
      assert forall i :: 0 <= i < |ids| ==> ids[i] in ids;
      assert Scan(order[..n], keys, k) == if id in keys && keys[id] == k then ids + [id] else ids;
      assert forall x :: x in pos && pos[x] == n - 1 ==> x == id;
    }
  }

  lemma {:induction false} HeadIsMember<T>(s: seq<T>)
    ensures s != [] ==> s[0] in s
  {
  }

  lemma {:induction false} SortedListsAreEqual(a: seq<QsoId>, b: seq<QsoId>, pos: map<QsoId, nat>)
    requires SortedByPos(a, pos) && SortedByPos(b, pos)
    requires forall id :: id in a <==> id in b
    ensures a == b
  {
    HeadIsMember(b);
    if a == [] {
    } else {
      assert a[|a| - 1] in b && b[|b| - 1] in a;
      var a', b' := a[..|a| - 1], b[..|b| - 1];
      assert a[|a| - 1] == b[|b| - 1];
      forall id ensures id in a' <==> id in b' {
        if id in a' { assert id in a && id in b; }
        if id in b' { assert id in b && id in a; }
      }
      SortedListsAreEqual(a', b', pos);
    }
  }

  /** The sorted, complete buckets are exactly the scans, in both directions. */
  lemma {:induction false} IndexedMeansScan<K(!new)>(index: Index<K>, order: seq<QsoId>, pos: map<QsoId, nat>,
                                                     keys: map<QsoId, K>)
    requires Inverts(pos, order) && keys.Keys <= pos.Keys
    ensures Indexed(index, pos, keys) <==> MatchesScan(index, order, keys)
  {
    assert order[..|order|] == order;
    forall k {
      ScanIsSortedAndComplete(order, pos, keys, k, |order|);
    }
    if Indexed(index, pos, keys) {
      forall k
        ensures (k in index <==> Scan(order, keys, k) != []) && (k in index ==> index[k] == Scan(order, keys, k))
      {
        HeadIsMember(Scan(order, keys, k));
        if k in index {
          SortedListsAreEqual(index[k], Scan(order, keys, k), pos);
        }
      }
    }
    if MatchesScan(index, order, keys) {
      forall id | id in keys ensures keys[id] in index {
        assert id in Scan(order, keys, keys[id]);
      }
    }
  }

  // ---- index updates ----------------------------------------------------

  /** `entry(k).or_default()` as a lookup. */
  function Bucket<K(==)>(index: Index<K>, k: K): seq<QsoId> {
    if k in index then index[k] else []
  }

  function Push<K(==)>(index: Index<K>, k: K, id: QsoId): Index<K> {
    index[k := Bucket(index, k) + [id]]
  }

  /** `retain(|v| *v != id)`, dropping the bucket when it becomes empty. */
  function Drop<K(==)>(index: Index<K>, k: K, id: QsoId): Index<K> {
    if k !in index then index
    else if Without(index[k], id) == [] then index - {k}
    else index[k := Without(index[k], id)]
  }

  lemma {:induction false} WithoutKeepsOrder(ids: seq<QsoId>, id: QsoId, pos: map<QsoId, nat>)
    requires SortedByPos(ids, pos)
    ensures SortedByPos(Without(ids, id), pos)
    ensures forall x :: x in Without(ids, id) <==> x in ids && x != id
  {
    if ids != [] {
      var n := |ids| - 1;
      WithoutKeepsOrder(ids[..n], id, pos);
      forall x ensures x in ids <==> x in ids[..n] || x == ids[n] {
        if x in ids { var i :| 0 <= i < |ids| && ids[i] == x; assert i < n ==> ids[..n][i] == x; }
      }
      var w := Without(ids[..n], id);
      forall i | 0 <= i < |w| ensures pos[w[i]] < pos[ids[n]] {
        assert w[i] in ids[..n];
      }
    }
  }

  lemma {:induction false} PushKeepsIndexed<K(!new)>(index: Index<K>, pos: map<QsoId, nat>, keys: map<QsoId, K>, k: K,
                                                     id: QsoId, n: nat)
    requires Indexed(index, pos, keys) && id !in pos && id !in keys
    requires forall x :: x in pos ==> pos[x] < n
    ensures Indexed(Push(index, k, id), pos[id := n], keys[id := k])
  {
    var keys', pos', index' := keys[id := k], pos[id := n], Push(index, k, id);
    forall k' | k' in index'
      ensures index'[k'] != [] && SortedByPos(index'[k'], pos') && Lists(index'[k'], keys', k')
    {
      var ids := Bucket(index, k');
      assert SortedByPos(ids, pos) && Lists(ids, keys, k');
      assert id !in ids;
      assert SortedByPos(ids, pos');
    }
  }

  lemma {:induction false} DropKeepsIndexed<K(!new)>(index: Index<K>, pos: map<QsoId, nat>, keys: map<QsoId, K>,
                                                     id: QsoId)
    requires Indexed(index, pos, keys) && id in keys
    ensures Indexed(Drop(index, keys[id], id), pos, keys - {id})
  {
    var k := keys[id];
    var keys', index' := keys - {id}, Drop(index, k, id);
    WithoutKeepsOrder(index[k], id, pos);
    forall k' | k' in index'
      ensures index'[k'] != [] && SortedByPos(index'[k'], pos) && Lists(index'[k'], keys', k')
    {
      if k' != k {
        assert index'[k'] == index[k'] && Lists(index[k'], keys, k');
        assert id !in index[k'];
      }
    }
    forall x | x in keys' ensures keys'[x] in index' {
      if keys[x] == k {
        assert x in index[k];
        assert x in Without(index[k], id);
      }
    }
  }

  /** Insertion of a re-keyed id at the position the binary search finds. */
  ghost predicate InsertedInOrder(before: seq<QsoId>, after: seq<QsoId>, id: QsoId, pos: map<QsoId, nat>) {
    && SortedByPos(after, pos)
    && (forall x :: x in after <==> x in before || x == id)
  }

  lemma {:induction false} InsertKeepsIndexed<K(!new)>(
    index: Index<K>, pos: map<QsoId, nat>, keys: map<QsoId, K>, k: K, id: QsoId, bucket: seq<QsoId>)
    requires Indexed(index, pos, keys) && id !in keys
    requires InsertedInOrder(Bucket(index, k), bucket, id, pos)
    ensures Indexed(index[k := bucket], pos, keys[id := k])
  {
    var keys', index' := keys[id := k], index[k := bucket];
    assert id in bucket;
    forall k' | k' in index'
      ensures index'[k'] != [] && SortedByPos(index'[k'], pos) && Lists(index'[k'], keys', k')
    {
      if k' != k {
        assert Lists(index[k'], keys, k');
      } else {
        assert Lists(Bucket(index, k), keys, k);
      }
    }
  }

  /** Shifting positions without reordering keeps every bucket sorted. */
  lemma {:induction false} ShiftKeepsIndexed<K(!new)>(index: Index<K>, pos: map<QsoId, nat>, pos': map<QsoId, nat>,
                                                      keys: map<QsoId, K>)
    requires Indexed(index, pos, keys)
    requires forall id :: id in keys ==> id in pos && id in pos'
    requires forall a, b :: a in keys && b in keys && pos[a] < pos[b] ==> pos'[a] < pos'[b]
    ensures Indexed(index, pos', keys)
  {
    forall k | k in index
      ensures index[k] != [] && SortedByPos(index[k], pos') && Lists(index[k], keys, k)
    {
      var ids := index[k];
      assert SortedByPos(ids, pos) && Lists(ids, keys, k);
      forall i | 0 <= i < |ids| ensures ids[i] in keys { assert ids[i] in ids; }
    }
  }

  /**
   * `slice::binary_search_by_key(&target, ..).unwrap_or_else(|i| i)`: the place of `target`
   * among the positions of `ids`.
   */
  method SearchByPos(ids: seq<QsoId>, target: nat, pos: map<QsoId, nat>) returns (at: nat)
    requires SortedByPos(ids, pos)
    ensures at <= |ids|
    ensures forall i :: 0 <= i < at ==> pos[ids[i]] < target
    ensures forall i :: at <= i < |ids| ==> target <= pos[ids[i]]
  {
    var low, high := 0, |ids|;
    while low < high
      invariant 0 <= low <= high <= |ids|
      invariant forall i :: 0 <= i < low ==> pos[ids[i]] < target
      invariant forall i :: high <= i < |ids| ==> target <= pos[ids[i]]
    {
      var mid := low + (high - low) / 2;
      if pos[ids[mid]] < target {
        low := mid + 1;
      } else {
        high := mid;
      }
    }
    at := low;
  }

  /** What a move between buckets needs to know of its target bucket. */
  lemma {:induction false} BucketWithout<K(!new)>(index: Index<K>, order: seq<QsoId>, pos: map<QsoId, nat>,
                                                  keys: map<QsoId, K>, k: K, id: QsoId)
    requires Indexed(index, pos, keys) && Inverts(pos, order) && id !in keys
    ensures SortedByPos(Bucket(index, k), pos) && id !in Bucket(index, k)
    ensures forall x, y :: x in pos && y in pos && pos[x] == pos[y] ==> x == y
  {
    if k in index { assert Lists(index[k], keys, k); }
  }

  lemma {:induction false} SortedAfterInsert(ids: seq<QsoId>, id: QsoId, pos: map<QsoId, nat>, at: nat)
    requires SortedByPos(ids, pos) && id in pos && at <= |ids|
    requires forall i :: 0 <= i < at ==> pos[ids[i]] < pos[id]
    requires forall i :: at <= i < |ids| ==> pos[id] < pos[ids[i]]
    ensures InsertedInOrder(ids, ids[..at] + [id] + ids[at..], id, pos)
  {
    var out := ids[..at] + [id] + ids[at..];
    assert forall i :: 0 <= i < |out| ==> out[i] == if i < at then ids[i] else if i == at then id else ids[i - 1];
    forall x ensures x in out <==> x in ids || x == id {
      if x in ids {
        var i :| 0 <= i < |ids| && ids[i] == x;
        assert out[if i < at then i else i + 1] == x;
      }
      if x == id { assert out[at] == x; }
    }
  }

  method InsertIdOrdered(ids: seq<QsoId>, id: QsoId, pos: map<QsoId, nat>) returns (out: seq<QsoId>)
    requires SortedByPos(ids, pos) && id in pos && id !in ids
    requires forall x, y :: x in pos && y in pos && pos[x] == pos[y] ==> x == y
    ensures InsertedInOrder(ids, out, id, pos)
    ensures multiset(out) == multiset(ids) + multiset{id}
  {
    var at := SearchByPos(ids, pos[id], pos);
    out := ids[..at] + [id] + ids[at..];
    assert ids == ids[..at] + ids[at..];
    forall i | at <= i < |ids| ensures pos[id] < pos[ids[i]] {
      assert ids[i] in ids;
    }
    SortedAfterInsert(ids, id, pos, at);
  }
}
