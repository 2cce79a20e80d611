/** The quantity and value matrices of the single-wave export: per item and market,
    the summed quantity and the summed value of the wave's submissions. */
module WaveMatrix {
  import opened Common
  import opened Records
  import opened Totals
  import opened WaveItems

  /** item id -> market id -> amount, as a nested Record. */
  type Matrix = map<Id, map<Id, int>>

  /** One submission's contribution: item, market and amount. */
  type CellEntry = (Id, Id, int)

  function PricedPrices(ps: seq<PricedItem>): seq<(Id, int)>
  {
    seq(|ps|, i requires 0 <= i < |ps| => (ps[i].id, ps[i].itemValue))
  }

  function ProductPrices(ps: seq<ContainerProduct>): seq<(Id, int)>
  {
    seq(|ps|, i requires 0 <= i < |ps| => (ps[i].id, ps[i].valuePerVe))
  }

  /** `itemPriceMap`: displays, kartonware, einzelprodukte, then the palette and
      schuette products that were read, a later entry overwriting an earlier one. */
  function ItemPrices(c: Catalogs, pp: seq<ContainerProduct>, sp: seq<ContainerProduct>): map<Id, int>
  {
    ToMap(PricedPrices(c.displays) + PricedPrices(c.kartonware) + PricedPrices(c.einzelprodukte)
          + ProductPrices(pp) + ProductPrices(sp))
  }

  /** The price a submission is valued at: the catalog price for displays, kartonware
      and einzelprodukte; the submission's own price for paletten and schuetten when it
      is positive, else the catalog price; 0 for any other item type. */
  function UnitPrice(s: WaveSubmission, prices: map<Id, int>): (price: int)
    ensures s.itemType.OtherType? ==> price == 0
    ensures !IsContainerProduct(s.itemType) && !s.itemType.OtherType? ==> price == GetOr(prices, s.itemId, 0)
    ensures IsContainerProduct(s.itemType) ==>
              price == (if s.valuePerUnit > 0 then s.valuePerUnit else GetOr(prices, s.itemId, 0))
  {
    match s.itemType
    case Display => GetOr(prices, s.itemId, 0)
    case Kartonware => GetOr(prices, s.itemId, 0)
    case Einzelprodukt => GetOr(prices, s.itemId, 0)
    case Palette => if s.valuePerUnit > 0 then s.valuePerUnit else GetOr(prices, s.itemId, 0)
    case Schuette => if s.valuePerUnit > 0 then s.valuePerUnit else GetOr(prices, s.itemId, 0)
    case OtherType(_) => 0
  }

  function QuantityEntries(subs: seq<WaveSubmission>): (e: seq<CellEntry>)
    ensures |e| == |subs|
    ensures forall i :: 0 <= i < |subs| ==> e[i] == (subs[i].itemId, subs[i].marketId, subs[i].quantity)
  {
    seq(|subs|, i requires 0 <= i < |subs| => (subs[i].itemId, subs[i].marketId, subs[i].quantity))
  }

  function ValueEntries(subs: seq<WaveSubmission>, prices: map<Id, int>): (e: seq<CellEntry>)
    ensures |e| == |subs|
    ensures forall i :: 0 <= i < |subs| ==>
              e[i] == (subs[i].itemId, subs[i].marketId, subs[i].quantity * UnitPrice(subs[i], prices))
  {
    seq(|subs|, i requires 0 <= i < |subs| => (subs[i].itemId, subs[i].marketId, subs[i].quantity * UnitPrice(subs[i], prices)))
  }

  /** `if (!m[item]) m[item] = {}; m[item][market] = (m[item][market] || 0) + d`. */
  function AddCell(m: Matrix, x: CellEntry): Matrix
  {
    var row := GetOr(m, x.0, map[]);
    m[x.0 := row[x.1 := GetOr(row, x.1, 0) + x.2]]
  }

  /** The matrix the entries accumulate into, starting from `{}`. */
  function MatrixOf(entries: seq<CellEntry>): Matrix
  {
    if entries == [] then map[] else AddCell(MatrixOf(entries[..|entries| - 1]), entries[|entries| - 1])
  }

  /** The (market, amount) pairs recorded for one item, in order. */
  function RowEntries(entries: seq<CellEntry>, item: Id): (r: seq<(Id, int)>)
    ensures |r| <= |entries|
  {
    if entries == [] then []
    else
      var x := entries[|entries| - 1];
      RowEntries(entries[..|entries| - 1], item) + (if x.0 == item then [(x.1, x.2)] else [])
  }

  lemma {:induction false} RowEntriesUnseen(entries: seq<CellEntry>, item: Id)
    requires forall i :: 0 <= i < |entries| ==> entries[i].0 != item
    ensures RowEntries(entries, item) == []
  {
    if entries != [] {
      var prefix := entries[..|entries| - 1];
      assert forall i :: 0 <= i < |prefix| ==> prefix[i] == entries[i];
      RowEntriesUnseen(prefix, item);
    }
  }

  /** The matrix has a row for every item recorded and no other. */
  lemma {:induction false} MatrixKeys(entries: seq<CellEntry>)
    ensures MatrixOf(entries).Keys == set i | 0 <= i < |entries| :: entries[i].0
  {
    if entries != [] {
      var prefix := entries[..|entries| - 1];
      MatrixKeys(prefix);
      assert forall i :: 0 <= i < |prefix| ==> prefix[i] == entries[i];
      assert (set i | 0 <= i < |entries| :: entries[i].0) ==
             (set i | 0 <= i < |prefix| :: prefix[i].0) + {entries[|entries| - 1].0};
    }
  }

  /** An item's row holds, per market, the running total of that item's amounts
      there. */
  lemma {:induction false} MatrixRow(entries: seq<CellEntry>, item: Id)
    requires item in MatrixOf(entries)
    ensures MatrixOf(entries)[item] == Tally(RowEntries(entries, item))
  {
    var prefix := entries[..|entries| - 1];
    var x := entries[|entries| - 1];
    var m := MatrixOf(prefix);
    var r := RowEntries(prefix, item);
    if item != x.0 {
      MatrixRow(prefix, item);
      assert RowEntries(entries, item) == r + [] == r;
      assert MatrixOf(entries)[item] == m[item];
    } else {
      var row := GetOr(m, item, map[]);
      assert row == Tally(r) by {
        if item in m {
          MatrixRow(prefix, item);
        } else {
          MatrixKeys(prefix);
          assert forall i :: 0 <= i < |prefix| ==> prefix[i].0 != item;
          RowEntriesUnseen(prefix, item);
        }
      }
      assert RowEntries(entries, item) == r + [(x.1, x.2)];
      TallyAppend(r, (x.1, x.2));
      assert MatrixOf(entries)[item] == row[x.1 := GetOr(row, x.1, 0) + x.2];
    }
  }

  /** Conservation: the cells of an item's row add up to the total of that item's
      amounts. */
  lemma MatrixRowSum(entries: seq<CellEntry>, item: Id)
    requires item in MatrixOf(entries)
    ensures MapSum(MatrixOf(entries)[item]) == Total(RowEntries(entries, item))
  {
    MatrixRow(entries, item);
    TallyConserves(RowEntries(entries, item));
  }

  /** The total quantity submitted for an item, over all markets. */
  function SubmittedQuantity(subs: seq<WaveSubmission>, item: Id): int
  {
    if subs == [] then 0
    else
      var s := subs[|subs| - 1];
      SubmittedQuantity(subs[..|subs| - 1], item) + (if s.itemId == item then s.quantity else 0)
  }

  /** The total value submitted for an item, over all markets. */
  function SubmittedValue(subs: seq<WaveSubmission>, prices: map<Id, int>, item: Id): int
  {
    if subs == [] then 0
    else
      var s := subs[|subs| - 1];
      SubmittedValue(subs[..|subs| - 1], prices, item) + (if s.itemId == item then s.quantity * UnitPrice(s, prices) else 0)
  }

  lemma {:induction false} QuantityRowTotal(subs: seq<WaveSubmission>, item: Id)
    ensures Total(RowEntries(QuantityEntries(subs), item)) == SubmittedQuantity(subs, item)
  {
    if subs != [] {
      var prefix := subs[..|subs| - 1];
      var e := QuantityEntries(subs);
      var s := subs[|subs| - 1];
      assert e[..|subs| - 1] == QuantityEntries(prefix);
      QuantityRowTotal(prefix, item);
      var r := RowEntries(QuantityEntries(prefix), item);
      if s.itemId == item {
        TotalSnoc(r, (s.marketId, s.quantity));
      } else {
        assert r + [] == r;
      }
    }
  }

  lemma {:induction false} ValueRowTotal(subs: seq<WaveSubmission>, prices: map<Id, int>, item: Id)
    ensures Total(RowEntries(ValueEntries(subs, prices), item)) == SubmittedValue(subs, prices, item)
  {
    if subs != [] {
      var prefix := subs[..|subs| - 1];
      var e := ValueEntries(subs, prices);
      var s := subs[|subs| - 1];
      assert e[..|subs| - 1] == ValueEntries(prefix, prices);
      ValueRowTotal(prefix, prices, item);
      var r := RowEntries(ValueEntries(prefix, prices), item);
      if s.itemId == item {
        TotalSnoc(r, (s.marketId, s.quantity * UnitPrice(s, prices)));
      } else {
        assert r + [] == r;
      }
    }
  }

  /** For every item the quantity matrix has a row for, the row's cells add up to the
      total quantity submitted for that item; an item has a row exactly when it was
      submitted. */
  lemma QuantityConserved(subs: seq<WaveSubmission>, item: Id)
    ensures item in MatrixOf(QuantityEntries(subs)) <==> exists i :: 0 <= i < |subs| && subs[i].itemId == item
    ensures item in MatrixOf(QuantityEntries(subs)) ==>
              MapSum(MatrixOf(QuantityEntries(subs))[item]) == SubmittedQuantity(subs, item)
  {
    var e := QuantityEntries(subs);
    MatrixKeys(e);
    if item in MatrixOf(e) {
      MatrixRowSum(e, item);
      QuantityRowTotal(subs, item);
    }
    if exists i :: 0 <= i < |subs| && subs[i].itemId == item {
      var i :| 0 <= i < |subs| && subs[i].itemId == item;
      assert e[i].0 == item;
    }
  }

  /** The same for the value matrix and the submitted values. */
  lemma ValueConserved(subs: seq<WaveSubmission>, prices: map<Id, int>, item: Id)
    ensures item in MatrixOf(ValueEntries(subs, prices)) <==> exists i :: 0 <= i < |subs| && subs[i].itemId == item
    ensures item in MatrixOf(ValueEntries(subs, prices)) ==>
              MapSum(MatrixOf(ValueEntries(subs, prices))[item]) == SubmittedValue(subs, prices, item)
  {
    var e := ValueEntries(subs, prices);
    MatrixKeys(e);
    if item in MatrixOf(e) {
      MatrixRowSum(e, item);
      ValueRowTotal(subs, prices, item);
    }
    if exists i :: 0 <= i < |subs| && subs[i].itemId == item {
      var i :| 0 <= i < |subs| && subs[i].itemId == item;
      assert e[i].0 == item;
    }
  }

  lemma MatrixStep(entries: seq<CellEntry>, i: nat)
    requires i < |entries|
    ensures MatrixOf(entries[..i + 1]) == AddCell(MatrixOf(entries[..i]), entries[i])
  {
    assert entries[..i + 1][..i] == entries[..i];
  }

  /** `if (!m[item]) m[item] = {}; m[item][market] = (m[item][market] || 0) + d`
      on the matrix being filled. */
  method AddToCell(m: Matrix, item: Id, market: Id, d: int) returns (m': Matrix)
    ensures m' == AddCell(m, (item, market, d))
  {
    var row := if item in m then m[item] else map[];
    m' := m[item := row[market := GetOr(row, market, 0) + d]];
  }

  /** The `allSubs.forEach` at src/utils/exportTransformers.ts:973-991. */
  method BuildMatrices(subs: seq<WaveSubmission>, prices: map<Id, int>) returns (matrix: Matrix, valueMatrix: Matrix)
    ensures matrix == MatrixOf(QuantityEntries(subs))
    ensures valueMatrix == MatrixOf(ValueEntries(subs, prices))
  {
    matrix, valueMatrix := map[], map[];
    ghost var qe, ve := QuantityEntries(subs), ValueEntries(subs, prices);
    for i := 0 to |subs|
      invariant matrix == MatrixOf(qe[..i])
      invariant valueMatrix == MatrixOf(ve[..i])
    {
      var s := subs[i];
      var unitPrice := 0;
      if s.itemType == Display || s.itemType == Kartonware || s.itemType == Einzelprodukt {
        unitPrice := GetOr(prices, s.itemId, 0);
      } else if s.itemType == Palette || s.itemType == Schuette {
        unitPrice := if s.valuePerUnit > 0 then s.valuePerUnit else GetOr(prices, s.itemId, 0);
      }
      assert unitPrice == UnitPrice(s, prices);
      var subValue := s.quantity * unitPrice;
      MatrixStep(qe, i);
      MatrixStep(ve, i);
      matrix := AddToCell(matrix, s.itemId, s.marketId, s.quantity);
      valueMatrix := AddToCell(valueMatrix, s.itemId, s.marketId, subValue);
    }
    assert qe[..|subs|] == qe && ve[..|subs|] == ve;
  }
}
