/** Orphan recovery in the single-wave export: item ids that were submitted but are no
    longer in the wave's catalog are collected once each, in first-submission order,
    and appended to the items with a recovered or placeholder name. */
module WaveOrphans {
  import opened Common
  import opened WaveItems

  /** The ids of the items built so far (`allItemIds`). */
  function ItemIds(items: seq<WaveItem>): set<Id>
  {
    set it | it in items :: it.id
  }

  /** The orphaned ids in the order a JavaScript Set keeps them: first insertion. */
  function Orphans(subs: seq<WaveSubmission>, known: set<Id>): (o: seq<Id>)
    ensures Distinct(o)
    ensures forall x :: x in o <==> x !in known && exists i :: 0 <= i < |subs| && subs[i].itemId == x
  {
    if subs == [] then []
    else
      var prefix := subs[..|subs| - 1];
      var id := subs[|subs| - 1].itemId;
      var o := Orphans(prefix, known);
      assert forall i :: 0 <= i < |prefix| ==> prefix[i] == subs[i];
      if id !in known && id !in o then o + [id] else o
  }

  /** src/utils/exportTransformers.ts:994-998. */
  method CollectOrphans(subs: seq<WaveSubmission>, known: set<Id>) returns (orphans: seq<Id>)
    ensures orphans == Orphans(subs, known)
  {
    orphans := [];
    for i := 0 to |subs|
      invariant orphans == Orphans(subs[..i], known)
    {
      assert subs[..i + 1][..i] == subs[..i];
      var id := subs[i].itemId;
      if id !in known && id !in orphans {
        orphans := orphans + [id];
      }
    }
    assert subs[..|subs|] == subs;
  }

  /** A catalog row found again by id: its name ("" for null) and price (0 for null). */
  datatype Recovered = Recovered(id: Id, name: string, price: int)

  /** What the five by-id queries over the product tables returned, in the order their
      rows are put into `orphanNameMap`. */
  datatype OrphanSources = OrphanSources(
    paletteProducts: seq<Recovered>,
    schuetteProducts: seq<Recovered>,
    displays: seq<Recovered>,
    kartonware: seq<Recovered>,
    einzelprodukte: seq<Recovered>)

  function Keyed(rs: seq<Recovered>): seq<(Id, Recovered)>
  {
    seq(|rs|, i requires 0 <= i < |rs| => (rs[i].id, rs[i]))
  }

  /** `orphanNameMap`: a later table's row overwrites an earlier one with the same id. */
  function OrphanNames(src: OrphanSources): map<Id, Recovered>
  {
    ToMap(Keyed(src.paletteProducts) + Keyed(src.schuetteProducts) + Keyed(src.displays)
          + Keyed(src.kartonware) + Keyed(src.einzelprodukte))
  }

  /** `Gelöschtes Produkt (<first 8 characters of the id>)`. */
  function Placeholder(oid: Id): (name: string)
    ensures name != ""
  {
    var n := if |oid| < 8 then |oid| else 8;
    "Gelöschtes Produkt (" + oid[..n] + ")"
  }

  /** The item pushed for an orphaned id: an einzelprodukt without parent or colour,
      named and priced from the recovered row when there is one. */
  function OrphanItem(oid: Id, names: map<Id, Recovered>): (it: WaveItem)
    ensures it.id == oid && it.kind == EinzelproduktItem && it.parent == None && it.colorGroup == -1
    ensures it.name != ""
    ensures oid in names && names[oid].name != "" ==> it.name == names[oid].name
    ensures (oid !in names || names[oid].name == "") ==> it.name == Placeholder(oid)
    ensures it.pricePerUnit == if oid in names then names[oid].price else 0
  {
    if oid in names then
      WaveItem(oid, OrText(names[oid].name, Placeholder(oid)), EinzelproduktItem, names[oid].price, None, -1)
    else
      WaveItem(oid, Placeholder(oid), EinzelproduktItem, 0, None, -1)
  }

  function OrphanItems(orphans: seq<Id>, names: map<Id, Recovered>): (items: seq<WaveItem>)
    ensures |items| == |orphans|
    ensures forall i :: 0 <= i < |orphans| ==> items[i] == OrphanItem(orphans[i], names)
  {
    seq(|orphans|, i requires 0 <= i < |orphans| => OrphanItem(orphans[i], names))
  }

  /** src/utils/exportTransformers.ts:1000-1031: when there are orphans, append one
      item per orphaned id. */
  method PushOrphanItems(items: seq<WaveItem>, orphans: seq<Id>, src: OrphanSources)
    returns (items': seq<WaveItem>)
    ensures items' == items + OrphanItems(orphans, OrphanNames(src))
  {
    items' := items;
    if |orphans| > 0 {
      var names := OrphanNames(src);
      for i := 0 to |orphans|
        invariant items' == items + OrphanItems(orphans[..i], names)
      {
        assert OrphanItems(orphans[..i + 1], names) == OrphanItems(orphans[..i], names) + [OrphanItem(orphans[i], names)];
        items' := items' + [OrphanItem(orphans[i], names)];
      }
      assert orphans[..|orphans|] == orphans;
    } else {
      assert OrphanItems(orphans, OrphanNames(src)) == [];
    }
  }

  /** Orphan completeness: after recovery every submitted item id has an item, and
      every recovered item is an orphan, once. */
  lemma OrphansComplete(items: seq<WaveItem>, subs: seq<WaveSubmission>, src: OrphanSources)
    ensures var all := items + OrphanItems(Orphans(subs, ItemIds(items)), OrphanNames(src));
            forall i :: 0 <= i < |subs| ==> exists it :: it in all && it.id == subs[i].itemId
    ensures Distinct(Orphans(subs, ItemIds(items))) &&
            forall x | x in Orphans(subs, ItemIds(items)) :: x !in ItemIds(items)
  {
    var o := Orphans(subs, ItemIds(items));
    var all := items + OrphanItems(o, OrphanNames(src));
    forall i | 0 <= i < |subs| ensures exists it :: it in all && it.id == subs[i].itemId {
      var x := subs[i].itemId;
      if x in ItemIds(items) {
        var it :| it in items && it.id == x;
        assert it in all;
      } else {
        var k :| 0 <= k < |o| && o[k] == x;
        assert all[|items| + k].id == x;
      }
    }
  }

  /** The appended orphan items keep the items before them and add ids that are
      distinct from each other and from every earlier item's. */
  lemma OrphansFresh(items: seq<WaveItem>, subs: seq<WaveSubmission>, src: OrphanSources)
    ensures var all := items + OrphanItems(Orphans(subs, ItemIds(items)), OrphanNames(src));
            |items| <= |all| && all[..|items|] == items &&
            (forall i, j :: |items| <= i < j < |all| ==> all[i].id != all[j].id) &&
            (forall i, j :: 0 <= i < |items| <= j < |all| ==> all[i].id != all[j].id)
  {
    var o := Orphans(subs, ItemIds(items));
    var all := items + OrphanItems(o, OrphanNames(src));
    assert all[..|items|] == items;
    forall i, j | |items| <= i < j < |all| ensures all[i].id != all[j].id {
      assert all[i].id == o[i - |items|] && all[j].id == o[j - |items|];
    }
    forall i, j | 0 <= i < |items| <= j < |all| ensures all[i].id != all[j].id {
      assert all[j].id == o[j - |items|] && o[j - |items|] in o;
      assert all[i] == items[i] && items[i] in items;
      assert all[i].id in ItemIds(items);
    }
  }
}
