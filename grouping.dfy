/** Grouping into a Map of arrays, the shape of every
    `if (!m.has(k)) m.set(k, []); m.get(k)!.push(x)` loop of the engine: the elements
    that have a key are gathered per key, in input order; the others are dropped. */
module Grouping {
  import opened Common

  /** The elements of `xs` whose key is `k`, in input order. */
  function Bucket<T, K(==)>(xs: seq<T>, key: T -> Option<K>, k: K): (b: seq<T>)
    ensures forall x | x in b :: x in xs && key(x) == Some(k)
    ensures forall i | 0 <= i < |xs| && key(xs[i]) == Some(k) :: xs[i] in b
    ensures |b| <= |xs|
  {
    if xs == [] then []
    else
      var last := xs[|xs| - 1];
      var prefix := xs[..|xs| - 1];
      assert forall i | 0 <= i < |xs| - 1 :: xs[i] == prefix[i];
      Bucket(prefix, key, k) + (if key(last) == Some(k) then [last] else [])
  }

  /** The positions of the elements of `xs` whose key is `k`, in increasing order. */
  function MatchIndices<T, K(==)>(xs: seq<T>, key: T -> Option<K>, k: K): (idx: seq<nat>)
    ensures forall j :: 0 <= j < |idx| ==> idx[j] < |xs| && key(xs[idx[j]]) == Some(k)
    ensures forall j, l :: 0 <= j < l < |idx| ==> idx[j] < idx[l]
    ensures forall i :: 0 <= i < |xs| && key(xs[i]) == Some(k) ==> i in idx
  {
    if xs == [] then []
    else
      var prefix := xs[..|xs| - 1];
      var idx := MatchIndices(prefix, key, k);
      assert forall j :: 0 <= j < |idx| ==> xs[idx[j]] == prefix[idx[j]];
      assert forall i :: 0 <= i < |xs| - 1 ==> xs[i] == prefix[i];
      idx + (if key(xs[|xs| - 1]) == Some(k) then [|xs| - 1] else [])
  }

  /** A bucket is the subsequence of `xs` at exactly the matching positions: it keeps
      the input order, and every matching element occurs in it once per occurrence in
      the input. */
  lemma {:induction false} BucketSelects<T, K>(xs: seq<T>, key: T -> Option<K>, k: K)
    ensures var b, idx := Bucket(xs, key, k), MatchIndices(xs, key, k);
            |b| == |idx| && forall j :: 0 <= j < |b| ==> b[j] == xs[idx[j]]
  {
    if xs != [] {
      var prefix := xs[..|xs| - 1];
      var last := xs[|xs| - 1];
      BucketSelects(prefix, key, k);
      var b0, idx0 := Bucket(prefix, key, k), MatchIndices(prefix, key, k);
      var b, idx := Bucket(xs, key, k), MatchIndices(xs, key, k);
      var tail := if key(last) == Some(k) then [last] else [];
      var tailIdx := if key(last) == Some(k) then [|xs| - 1] else [];
      assert b == b0 + tail;
      assert idx == idx0 + tailIdx;
      forall j | 0 <= j < |b| ensures b[j] == xs[idx[j]] {
        if j < |b0| {
          assert b[j] == b0[j] == prefix[idx0[j]];
          assert idx[j] == idx0[j];
        }
      }
    }
  }

  lemma BucketStep<T, K>(xs: seq<T>, key: T -> Option<K>, i: nat, k: K)
    requires i < |xs|
    ensures Bucket(xs[..i + 1], key, k) == Bucket(xs[..i], key, k) + (if key(xs[i]) == Some(k) then [xs[i]] else [])
  {
    assert xs[..i + 1][..i] == xs[..i];
  }

  /** The loop that fills the Map: a key is present exactly when its bucket is not
      empty, and holds that bucket. */
  method GroupBy<T, K(==)>(xs: seq<T>, key: T -> Option<K>) returns (grouped: map<K, seq<T>>)
    ensures forall k :: k in grouped <==> Bucket(xs, key, k) != []
    ensures forall k | k in grouped :: grouped[k] == Bucket(xs, key, k)
  {
    grouped := map[];
    for i := 0 to |xs|
      invariant forall k :: k in grouped <==> Bucket(xs[..i], key, k) != []
      invariant forall k | k in grouped :: grouped[k] == Bucket(xs[..i], key, k)
    {
      match key(xs[i]) {
        case Some(k) =>
          if k !in grouped {
            grouped := grouped[k := []];
          }
          grouped := grouped[k := grouped[k] + [xs[i]]];
        case None =>
      }
      forall k ensures (k in grouped <==> Bucket(xs[..i + 1], key, k) != [])
                       && (k in grouped ==> grouped[k] == Bucket(xs[..i + 1], key, k))
      {
        BucketStep(xs, key, i, k);
      }
    }
    assert xs[..|xs|] == xs;
  }
}
