/** Per-key running totals, the shape of every count and value map the engine fills
    with `m.set(k, (m.get(k) || 0) + d)`, and the sum of all values of a map. */
module Totals {
  import opened Common

  /** The sum of the values of `m` at the given keys. */
  ghost function SumOver<K>(m: map<K, int>, keys: set<K>): int
    requires keys <= m.Keys
    decreases keys
  {
    if keys == {} then 0
    else
      var k :| k in keys;
      m[k] + SumOver(m, keys - {k})
  }

  /** The sum of all values of a finite map. */
  ghost function MapSum<K>(m: map<K, int>): int
  {
    SumOver(m, m.Keys)
  }

  /** SumOver does not depend on which key is taken out first. */
  lemma {:induction false} SumOverRemove<K>(m: map<K, int>, keys: set<K>, k: K)
    requires keys <= m.Keys && k in keys
    ensures SumOver(m, keys) == m[k] + SumOver(m, keys - {k})
    decreases keys
  {
    var k' :| k' in keys && SumOver(m, keys) == m[k'] + SumOver(m, keys - {k'});
    if k' != k {
      SumOverRemove(m, keys - {k'}, k);
      SumOverRemove(m, keys - {k}, k');
      assert keys - {k'} - {k} == keys - {k} - {k'};
    }
  }

  /** SumOver reads only the values at its keys. */
  lemma {:induction false} SumOverFrame<K>(m: map<K, int>, m': map<K, int>, keys: set<K>)
    requires keys <= m.Keys && keys <= m'.Keys
    requires forall k | k in keys :: m[k] == m'[k]
    ensures SumOver(m, keys) == SumOver(m', keys)
    decreases keys
  {
    if keys != {} {
      var k :| k in keys && SumOver(m, keys) == m[k] + SumOver(m, keys - {k});
      SumOverRemove(m', keys, k);
      SumOverFrame(m, m', keys - {k});
    }
  }

  /** Overwriting one entry changes the sum by the difference. */
  lemma MapSumUpdate<K>(m: map<K, int>, k: K, v: int)
    ensures MapSum(m[k := v]) == MapSum(m) - GetOr(m, k, 0) + v
  {
    var m' := m[k := v];
    SumOverRemove(m', m'.Keys, k);
    assert m'.Keys - {k} == m.Keys - {k};
    SumOverFrame(m, m', m.Keys - {k});
    if k in m {
      SumOverRemove(m, m.Keys, k);
    } else {
      assert m.Keys - {k} == m.Keys;
    }
  }

  /** The total of the amounts recorded under key `k`. */
  function KeyTotal<K(==)>(entries: seq<(K, int)>, k: K): int
  {
    if entries == [] then 0
    else
      var last := entries[|entries| - 1];
      KeyTotal(entries[..|entries| - 1], k) + (if last.0 == k then last.1 else 0)
  }

  /** The total of all amounts. */
  function Total<K>(entries: seq<(K, int)>): int
  {
    if entries == [] then 0 else Total(entries[..|entries| - 1]) + entries[|entries| - 1].1
  }

  lemma TotalSnoc<K>(entries: seq<(K, int)>, x: (K, int))
    ensures Total(entries + [x]) == Total(entries) + x.1
  {
    assert (entries + [x])[..|entries|] == entries;
  }

  /** The map a `forEach` that adds each amount to its key's running total leaves behind:
      a key for every key seen, holding the total of that key's amounts. */
  function Tally<K>(entries: seq<(K, int)>): (m: map<K, int>)
    ensures m.Keys == set i | 0 <= i < |entries| :: entries[i].0
    ensures forall k | k in m :: m[k] == KeyTotal(entries, k)
  {
    if entries == [] then map[]
    else
      var last := entries[|entries| - 1];
      var m := Tally(entries[..|entries| - 1]);
      assert last.0 !in m ==> KeyTotal(entries[..|entries| - 1], last.0) == 0 by {
        if last.0 !in m {
          KeyTotalUnseen(entries[..|entries| - 1], last.0);
        }
      }
      m[last.0 := GetOr(m, last.0, 0) + last.1]
  }

  /** A key never seen has total zero. */
  lemma {:induction false} KeyTotalUnseen<K>(entries: seq<(K, int)>, k: K)
    requires forall i :: 0 <= i < |entries| ==> entries[i].0 != k
    ensures KeyTotal(entries, k) == 0
  {
    if entries != [] {
      KeyTotalUnseen(entries[..|entries| - 1], k);
    }
  }

  /** Conservation: the per-key totals add up to the total of all amounts. */
  lemma {:induction false} TallyConserves<K>(entries: seq<(K, int)>)
    ensures MapSum(Tally(entries)) == Total(entries)
  {
    if entries != [] {
      var prefix := entries[..|entries| - 1];
      var last := entries[|entries| - 1];
      TallyConserves(prefix);
      MapSumUpdate(Tally(prefix), last.0, GetOr(Tally(prefix), last.0, 0) + last.1);
    }
  }

  /** A key never seen reads as 0, as `m.get(k) || 0` does: the lookup is the key's total. */
  lemma {:induction false} TallyLookup<K>(entries: seq<(K, int)>, k: K)
    ensures GetOr(Tally(entries), k, 0) == KeyTotal(entries, k)
  {
    if k !in Tally(entries) {
      KeyTotalUnseen(entries, k);
    }
  }

  /** One step of the running total: the map after one more entry. */
  lemma TallyStep<K>(entries: seq<(K, int)>, i: nat)
    requires i < |entries|
    ensures Tally(entries[..i + 1]) ==
            Tally(entries[..i])[entries[i].0 := GetOr(Tally(entries[..i]), entries[i].0, 0) + entries[i].1]
  {
    assert entries[..i + 1][..i] == entries[..i];
  }

  /** Appending one entry adds its amount to its key's running total. */
  lemma TallyAppend<K>(entries: seq<(K, int)>, x: (K, int))
    ensures Tally(entries + [x]) == Tally(entries)[x.0 := GetOr(Tally(entries), x.0, 0) + x.1]
  {
    assert (entries + [x])[..|entries|] == entries;
  }

  /** The `forEach` loop that adds every amount to its key's running total. */
  method Accumulate<K(==)>(entries: seq<(K, int)>) returns (m: map<K, int>)
    ensures m == Tally(entries)
  {
    m := map[];
    for i := 0 to |entries|
      invariant m == Tally(entries[..i])
    {
      TallyStep(entries, i);
      var (k, d) := entries[i];
      m := m[k := GetOr(m, k, 0) + d];
    }
    assert entries[..|entries|] == entries;
  }

  /** The per-key totals read off at a list of keys. */
  function TotalsAt<K(==)>(entries: seq<(K, int)>, ids: seq<K>): (totals: seq<int>)
    ensures |totals| == |ids|
    ensures forall i :: 0 <= i < |ids| ==> totals[i] == KeyTotal(entries, ids[i])
  {
    seq(|ids|, i requires 0 <= i < |ids| => KeyTotal(entries, ids[i]))
  }

  function Indicator<K(==)>(ids: seq<K>, k: K, d: int): seq<int>
  {
    seq(|ids|, i requires 0 <= i < |ids| => if ids[i] == k then d else 0)
  }

  lemma {:induction false} SumPointwise(a: seq<int>, b: seq<int>, c: seq<int>)
    requires |a| == |b| == |c|
    requires forall i :: 0 <= i < |a| ==> c[i] == a[i] + b[i]
    ensures Sum(c) == Sum(a) + Sum(b)
  {
    if a != [] {
      SumPointwise(a[1..], b[1..], c[1..]);
    }
  }

  lemma {:induction false} SumZeros(xs: seq<int>)
    requires forall i :: 0 <= i < |xs| ==> xs[i] == 0
    ensures Sum(xs) == 0
  {
    if xs != [] {
      SumZeros(xs[1..]);
    }
  }

  /** Among distinct keys, `k` is met once when present and never when absent. */
  lemma {:induction false} SumIndicator<K>(ids: seq<K>, k: K, d: int)
    requires Distinct(ids)
    ensures Sum(Indicator(ids, k, d)) == if k in ids then d else 0
  {
    if ids != [] {
      var ind := Indicator(ids, k, d);
      assert ind[1..] == Indicator(ids[1..], k, d);
      SumIndicator(ids[1..], k, d);
      if ids[0] == k {
        assert k !in ids[1..] by {
          forall j | 0 <= j < |ids[1..]| ensures ids[1..][j] != k {
            assert ids[1..][j] == ids[j + 1];
          }
        }
      } else {
        assert k in ids ==> k in ids[1..] by {
          if k in ids {
            var j :| 0 <= j < |ids| && ids[j] == k;
            assert ids[1..][j - 1] == k;
          }
        }
      }
    }
  }

  /** Conservation over a list of distinct keys that covers every entry: the totals
      read off at those keys add up to the total of all amounts. */
  lemma {:induction false} TotalsAtConserve<K>(entries: seq<(K, int)>, ids: seq<K>)
    requires Distinct(ids)
    requires forall i :: 0 <= i < |entries| ==> entries[i].0 in ids
    ensures Sum(TotalsAt(entries, ids)) == Total(entries)
  {
    if entries == [] {
      SumZeros(TotalsAt(entries, ids));
    } else {
      var prefix := entries[..|entries| - 1];
      var last := entries[|entries| - 1];
      TotalsAtConserve(prefix, ids);
      SumIndicator(ids, last.0, last.1);
      SumPointwise(TotalsAt(prefix, ids), Indicator(ids, last.0, last.1), TotalsAt(entries, ids));
    }
  }
}
