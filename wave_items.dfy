/** The item axis of the single-wave matrix export: the colour groups handed out by
    one counter over the wave's containers and standalone items, the list of items
    (container products grouped under their container, then displays, kartonware and
    einzelprodukte) and the list of parent containers. */
module WaveItems {
  import opened Common
  import opened Records
  import opened Grouping

  /** The `item_type, item_id, market_id, quantity, value_per_unit, created_at`
      projection of a wave submission; a null price is 0 and `minute` is the creation
      time truncated to the minute. */
  datatype WaveSubmission = WaveSubmission(
    itemType: ItemType,
    itemId: Id,
    marketId: Id,
    quantity: int,
    valuePerUnit: int,
    minute: string)

  /** The `type` of an entry of `items`. */
  datatype ItemKind = DisplayItem | KartonwareItem | EinzelproduktItem | PaletteProductItem | SchuetteProductItem

  /** The `parentId`, `parentName` and `parentType` of a container product. */
  datatype ParentRef = ParentRef(id: Id, name: string, parentType: string)

  /** An entry of `items` (`isParent` is always false and is not kept). */
  datatype WaveItem = WaveItem(
    id: Id,
    name: string,
    kind: ItemKind,
    pricePerUnit: int,
    parent: Option<ParentRef>,
    colorGroup: int)

  /** An entry of `parentItems`. */
  datatype ParentItem = ParentItem(id: Id, name: string, parentType: string, colorGroup: int)

  function ContainerIds(cs: seq<Container>): (ids: seq<Id>)
    ensures |ids| == |cs| && forall i :: 0 <= i < |cs| ==> ids[i] == cs[i].id
  {
    seq(|cs|, i requires 0 <= i < |cs| => cs[i].id)
  }

  function PricedIds(ps: seq<PricedItem>): (ids: seq<Id>)
    ensures |ids| == |ps| && forall i :: 0 <= i < |ps| ==> ids[i] == ps[i].id
  {
    seq(|ps|, i requires 0 <= i < |ps| => ps[i].id)
  }

  /** The ids the colour counter walks: paletten, schuetten, displays, kartonware. */
  function ColorIds(c: Catalogs): seq<Id>
  {
    ContainerIds(c.paletten) + ContainerIds(c.schuetten) + PricedIds(c.displays) + PricedIds(c.kartonware)
  }

  /** Each id paired with the counter value it is given, counting from `start`. */
  function Numbered(ids: seq<Id>, start: int): (e: seq<(Id, int)>)
    ensures |e| == |ids| && forall i :: 0 <= i < |ids| ==> e[i] == (ids[i], start + i)
  {
    seq(|ids|, i requires 0 <= i < |ids| => (ids[i], start + i))
  }

  /** `parentColorMap`: a later id overwrites an earlier equal one. */
  function Colors(c: Catalogs): map<Id, int>
  {
    ToMap(Numbered(ColorIds(c), 0))
  }

  /** One `forEach(x => { parentColorMap.set(x.id, colorIdx); colorIdx++; })`, run
      after the ids `done` have been numbered. */
  method NumberFrom(ids: seq<Id>, ghost done: seq<Id>, colors: map<Id, int>, start: nat)
    returns (colors': map<Id, int>, next: nat)
    requires start == |done| && colors == ToMap(Numbered(done, 0))
    ensures colors' == ToMap(Numbered(done + ids, 0))
    ensures next == start + |ids|
  {
    colors', next := colors, start;
    assert done + ids[..0] == done;
    for i := 0 to |ids|
      invariant next == start + i
      invariant colors' == ToMap(Numbered(done + ids[..i], 0))
    {
      assert done + ids[..i + 1] == (done + ids[..i]) + [ids[i]];
      assert Numbered(done + ids[..i + 1], 0) == Numbered(done + ids[..i], 0) + [(ids[i], next)];
      ToMapSnoc(Numbered(done + ids[..i], 0), (ids[i], next));
      colors' := colors'[ids[i] := next];
      next := next + 1;
    }
    assert ids[..|ids|] == ids;
  }

  /** src/utils/exportTransformers.ts:853-859: one counter from 0 over paletten,
      schuetten, displays and kartonware. */
  method AssignColors(c: Catalogs) returns (colors: map<Id, int>)
    ensures colors == Colors(c)
  {
    var p, s, d, k := ContainerIds(c.paletten), ContainerIds(c.schuetten), PricedIds(c.displays), PricedIds(c.kartonware);
    var next := 0;
    colors := map[];
    assert Numbered([], 0) == [];
    colors, next := NumberFrom(p, [], colors, next);
    assert [] + p == p;
    colors, next := NumberFrom(s, p, colors, next);
    colors, next := NumberFrom(d, p + s, colors, next);
    colors, next := NumberFrom(k, p + s + d, colors, next);
  }

  /** Every colour is one of the counter's values 0 .. n-1. */
  lemma ColorsInRange(c: Catalogs)
    ensures forall id | id in Colors(c) :: 0 <= Colors(c)[id] < |ColorIds(c)|
  {
    forall id | id in Colors(c) ensures 0 <= Colors(c)[id] < |ColorIds(c)| {
      ToMapWitness(Numbered(ColorIds(c), 0), id);
    }
  }

  /** With distinct ids the colour of the i-th id walked is i. */
  lemma ColorAt(c: Catalogs, i: nat)
    requires Distinct(ColorIds(c)) && i < |ColorIds(c)|
    ensures ColorIds(c)[i] in Colors(c) && Colors(c)[ColorIds(c)[i]] == i
  {
    ToMapLastWins(Numbered(ColorIds(c), 0), i);
  }

  /** With distinct ids the colours are the consecutive indices 0 .. n-1, one per id
      walked, and no other id has a colour. */
  lemma ColorsAreIndices(c: Catalogs)
    requires Distinct(ColorIds(c))
    ensures Colors(c).Keys == set id | id in ColorIds(c)
    ensures forall i :: 0 <= i < |ColorIds(c)| ==> Colors(c)[ColorIds(c)[i]] == i
  {
    var ids := ColorIds(c);
    forall i | 0 <= i < |ids| ensures ids[i] in Colors(c) && Colors(c)[ids[i]] == i {
      ColorAt(c, i);
    }
    var e := Numbered(ids, 0);
    ToMapKeys(e);
    assert forall id :: id in ids <==> exists i :: 0 <= i < |e| && e[i].0 == id;
  }

  /** The category order: paletten take 0 .., then schuetten, displays and kartonware,
      each in catalog order. */
  lemma CategoryColors(c: Catalogs)
    requires Distinct(ColorIds(c))
    ensures forall i :: 0 <= i < |c.paletten| ==>
              c.paletten[i].id in Colors(c) && Colors(c)[c.paletten[i].id] == i
    ensures forall i :: 0 <= i < |c.schuetten| ==>
              c.schuetten[i].id in Colors(c) && Colors(c)[c.schuetten[i].id] == |c.paletten| + i
    ensures forall i :: 0 <= i < |c.displays| ==>
              c.displays[i].id in Colors(c) && Colors(c)[c.displays[i].id] == |c.paletten| + |c.schuetten| + i
    ensures forall i :: 0 <= i < |c.kartonware| ==>
              c.kartonware[i].id in Colors(c) &&
              Colors(c)[c.kartonware[i].id] == |c.paletten| + |c.schuetten| + |c.displays| + i
  {
    var ids := ColorIds(c);
    var p, s, d, k := ContainerIds(c.paletten), ContainerIds(c.schuetten), PricedIds(c.displays), PricedIds(c.kartonware);
    assert ids == p + s + d + k;
    forall i | 0 <= i < |p| ensures c.paletten[i].id in Colors(c) && Colors(c)[c.paletten[i].id] == i {
      ColorAt(c, i);
    }
    forall i | 0 <= i < |s|
      ensures c.schuetten[i].id in Colors(c) && Colors(c)[c.schuetten[i].id] == |p| + i
    {
      assert ids[|p| + i] == s[i];
      ColorAt(c, |p| + i);
    }
    forall i | 0 <= i < |d|
      ensures c.displays[i].id in Colors(c) && Colors(c)[c.displays[i].id] == |p| + |s| + i
    {
      assert ids[|p| + |s| + i] == d[i];
      ColorAt(c, |p| + |s| + i);
    }
    forall i | 0 <= i < |k|
      ensures c.kartonware[i].id in Colors(c) && Colors(c)[c.kartonware[i].id] == |p| + |s| + |d| + i
    {
      assert ids[|p| + |s| + |d| + i] == k[i];
      ColorAt(c, |p| + |s| + |d| + i);
    }
  }

  /** The products of one container, in product order
      (`products.filter(p => p.container_id === container.id)`). */
  function ChildrenOf(products: seq<ContainerProduct>, containerId: Id): seq<ContainerProduct>
  {
    Bucket(products, (p: ContainerProduct) => Some(p.containerId), containerId)
  }

  function ChildItem(p: ContainerProduct, container: Container, kind: ItemKind, parentType: string,
                     colors: map<Id, int>): WaveItem
  {
    WaveItem(p.id, p.name, kind, p.valuePerVe, Some(ParentRef(p.containerId, container.name, parentType)),
             GetOr(colors, container.id, -1))
  }

  function ChildItemsOf(container: Container, products: seq<ContainerProduct>, kind: ItemKind,
                        parentType: string, colors: map<Id, int>): (items: seq<WaveItem>)
    ensures |items| == |ChildrenOf(products, container.id)|
  {
    var children := ChildrenOf(products, container.id);
    seq(|children|, i requires 0 <= i < |children| => ChildItem(children[i], container, kind, parentType, colors))
  }

  /** The products of every container in container order, each container's products
      together (src/utils/exportTransformers.ts:865-899). */
  function ContainerItems(containers: seq<Container>, products: seq<ContainerProduct>, kind: ItemKind,
                          parentType: string, colors: map<Id, int>): seq<WaveItem>
  {
    if containers == [] then []
    else
      var last := containers[|containers| - 1];
      ContainerItems(containers[..|containers| - 1], products, kind, parentType, colors)
        + ChildItemsOf(last, products, kind, parentType, colors)
  }

  /** An item built for one of `container`'s products: it names the container as its
      parent, carries the container's colour and copies the product. */
  predicate ItemOf(it: WaveItem, container: Container, products: seq<ContainerProduct>, kind: ItemKind,
                   parentType: string, colors: map<Id, int>)
  {
    it.kind == kind && it.parent == Some(ParentRef(container.id, container.name, parentType)) &&
    it.colorGroup == GetOr(colors, container.id, -1) &&
    exists p :: p in products && p.containerId == container.id && it.id == p.id &&
      it.name == p.name && it.pricePerUnit == p.valuePerVe
  }

  /** The items of one container are items of that container. */
  lemma ChildItemsOfContainer(container: Container, products: seq<ContainerProduct>, kind: ItemKind,
                              parentType: string, colors: map<Id, int>)
    ensures forall it | it in ChildItemsOf(container, products, kind, parentType, colors) ::
              ItemOf(it, container, products, kind, parentType, colors)
  {
    var children := ChildrenOf(products, container.id);
    var items := ChildItemsOf(container, products, kind, parentType, colors);
    forall it | it in items ensures ItemOf(it, container, products, kind, parentType, colors) {
      var k :| 0 <= k < |items| && items[k] == it;
      assert children[k] in children;
    }
  }

  /** Every container product item is an item of one of the listed containers. */
  lemma {:induction false} ContainerItemsParents(containers: seq<Container>, products: seq<ContainerProduct>,
                                                 kind: ItemKind, parentType: string, colors: map<Id, int>)
    ensures forall it | it in ContainerItems(containers, products, kind, parentType, colors) ::
              exists j :: 0 <= j < |containers| && ItemOf(it, containers[j], products, kind, parentType, colors)
  {
    if containers != [] {
      var prefix := containers[..|containers| - 1];
      var last := containers[|containers| - 1];
      ContainerItemsParents(prefix, products, kind, parentType, colors);
      ChildItemsOfContainer(last, products, kind, parentType, colors);
      var before := ContainerItems(prefix, products, kind, parentType, colors);
      var mine := ChildItemsOf(last, products, kind, parentType, colors);
      forall it | it in before + mine
        ensures exists j :: 0 <= j < |containers| && ItemOf(it, containers[j], products, kind, parentType, colors)
      {
        if it in before {
          var j :| 0 <= j < |prefix| && ItemOf(it, prefix[j], products, kind, parentType, colors);
          assert containers[j] == prefix[j];
        } else {
          assert ItemOf(it, containers[|containers| - 1], products, kind, parentType, colors);
        }
      }
    }
  }

  /** Every product of a listed container appears among the container items. */
  lemma {:induction false} ContainerItemsComplete(containers: seq<Container>, products: seq<ContainerProduct>,
                                                  kind: ItemKind, parentType: string, colors: map<Id, int>)
    ensures forall j, i | 0 <= j < |containers| && 0 <= i < |products| && products[i].containerId == containers[j].id ::
              ChildItem(products[i], containers[j], kind, parentType, colors) in ContainerItems(containers, products, kind, parentType, colors)
  {
    if containers != [] {
      var prefix := containers[..|containers| - 1];
      var last := containers[|containers| - 1];
      ContainerItemsComplete(prefix, products, kind, parentType, colors);
      var children := ChildrenOf(products, last.id);
      var mine := ChildItemsOf(last, products, kind, parentType, colors);
      forall j, i | 0 <= j < |containers| && 0 <= i < |products| && products[i].containerId == containers[j].id
        ensures ChildItem(products[i], containers[j], kind, parentType, colors) in ContainerItems(containers, products, kind, parentType, colors)
      {
        if j < |prefix| {
          assert containers[j] == prefix[j];
        } else {
          assert products[i] in children;
          var k :| 0 <= k < |children| && children[k] == products[i];
          assert mine[k] == ChildItem(products[i], containers[j], kind, parentType, colors);
        }
      }
    }
  }

  function StandaloneItem(p: PricedItem, kind: ItemKind, colorGroup: int): WaveItem
  {
    WaveItem(p.id, p.name, kind, p.itemValue, None, colorGroup)
  }

  /** Displays and kartonware carry their own colour; einzelprodukte carry -1. */
  function StandaloneItems(ps: seq<PricedItem>, kind: ItemKind, colors: map<Id, int>): (items: seq<WaveItem>)
    ensures |items| == |ps|
    ensures forall i :: 0 <= i < |ps| ==>
              items[i] == StandaloneItem(ps[i], kind, if kind == EinzelproduktItem then -1 else GetOr(colors, ps[i].id, -1))
  {
    seq(|ps|, i requires 0 <= i < |ps| =>
      StandaloneItem(ps[i], kind, if kind == EinzelproduktItem then -1 else GetOr(colors, ps[i].id, -1)))
  }

  /** The catalog part of `items`, in push order; `pp` and `sp` are the container
      products that were read. */
  function CatalogItems(c: Catalogs, pp: seq<ContainerProduct>, sp: seq<ContainerProduct>, colors: map<Id, int>)
    : seq<WaveItem>
  {
    ContainerItems(c.paletten, pp, PaletteProductItem, "palette", colors)
      + ContainerItems(c.schuetten, sp, SchuetteProductItem, "schuette", colors)
      + StandaloneItems(c.displays, DisplayItem, colors)
      + StandaloneItems(c.kartonware, KartonwareItem, colors)
      + StandaloneItems(c.einzelprodukte, EinzelproduktItem, colors)
  }

  /** One `containers.forEach(...)` of src/utils/exportTransformers.ts:865-899. */
  method PushContainerItems(items: seq<WaveItem>, containers: seq<Container>, products: seq<ContainerProduct>,
                            kind: ItemKind, parentType: string, colors: map<Id, int>)
    returns (items': seq<WaveItem>)
    ensures items' == items + ContainerItems(containers, products, kind, parentType, colors)
  {
    items' := items;
    for j := 0 to |containers|
      invariant items' == items + ContainerItems(containers[..j], products, kind, parentType, colors)
    {
      assert containers[..j + 1][..j] == containers[..j];
      items' := items' + ChildItemsOf(containers[j], products, kind, parentType, colors);
    }
    assert containers[..|containers|] == containers;
  }

  /** One standalone `forEach(x => items.push(...))` of src/utils/exportTransformers.ts:902-943. */
  method PushStandaloneItems(items: seq<WaveItem>, ps: seq<PricedItem>, kind: ItemKind, colors: map<Id, int>)
    returns (items': seq<WaveItem>)
    ensures items' == items + StandaloneItems(ps, kind, colors)
  {
    items' := items;
    for i := 0 to |ps|
      invariant items' == items + StandaloneItems(ps[..i], kind, colors)
    {
      var colorGroup := if kind == EinzelproduktItem then -1 else GetOr(colors, ps[i].id, -1);
      assert StandaloneItems(ps[..i + 1], kind, colors) == StandaloneItems(ps[..i], kind, colors) + [StandaloneItem(ps[i], kind, colorGroup)];
      items' := items' + [StandaloneItem(ps[i], kind, colorGroup)];
    }
    assert ps[..|ps|] == ps;
  }

  /** src/utils/exportTransformers.ts:862-943. */
  method BuildCatalogItems(c: Catalogs, pp: seq<ContainerProduct>, sp: seq<ContainerProduct>, colors: map<Id, int>)
    returns (items: seq<WaveItem>)
    ensures items == CatalogItems(c, pp, sp, colors)
  {
    items := PushContainerItems([], c.paletten, pp, PaletteProductItem, "palette", colors);
    items := PushContainerItems(items, c.schuetten, sp, SchuetteProductItem, "schuette", colors);
    items := PushStandaloneItems(items, c.displays, DisplayItem, colors);
    items := PushStandaloneItems(items, c.kartonware, KartonwareItem, colors);
    items := PushStandaloneItems(items, c.einzelprodukte, EinzelproduktItem, colors);
  }

  /** `parentItems`: the paletten, then the schuetten, with their colours
      (src/utils/exportTransformers.ts:945-953). */
  function ParentItems(c: Catalogs, colors: map<Id, int>): (ps: seq<ParentItem>)
    ensures |ps| == |c.paletten| + |c.schuetten|
    ensures forall i :: 0 <= i < |c.paletten| ==>
              ps[i] == ParentItem(c.paletten[i].id, c.paletten[i].name, "palette", GetOr(colors, c.paletten[i].id, -1))
    ensures forall i :: 0 <= i < |c.schuetten| ==>
              ps[|c.paletten| + i] ==
              ParentItem(c.schuetten[i].id, c.schuetten[i].name, "schuette", GetOr(colors, c.schuetten[i].id, -1))
  {
    var cs := c.paletten + c.schuetten;
    seq(|cs|, i requires 0 <= i < |cs| =>
      ParentItem(cs[i].id, cs[i].name, if i < |c.paletten| then "palette" else "schuette", GetOr(colors, cs[i].id, -1)))
  }

  /** With distinct ids the parent items carry the colours 0, 1, 2, ... in order. */
  lemma ParentItemColors(c: Catalogs)
    requires Distinct(ColorIds(c))
    ensures forall i :: 0 <= i < |ParentItems(c, Colors(c))| ==> ParentItems(c, Colors(c))[i].colorGroup == i
  {
    CategoryColors(c);
    var ps := ParentItems(c, Colors(c));
    forall i | 0 <= i < |ps| ensures ps[i].colorGroup == i {
      if i >= |c.paletten| {
        assert ps[|c.paletten| + (i - |c.paletten|)].colorGroup == |c.paletten| + (i - |c.paletten|);
      }
    }
  }

  /** With distinct ids a palette product's item carries the colour of its palette,
      the palette's index; a schuette product's item that of its schuette. */
  lemma ContainerProductColors(c: Catalogs, pp: seq<ContainerProduct>, sp: seq<ContainerProduct>)
    requires Distinct(ColorIds(c))
    ensures forall it | it in ContainerItems(c.paletten, pp, PaletteProductItem, "palette", Colors(c)) ::
              exists j :: 0 <= j < |c.paletten| && it.parent == Some(ParentRef(c.paletten[j].id, c.paletten[j].name, "palette")) && it.colorGroup == j
    ensures forall it | it in ContainerItems(c.schuetten, sp, SchuetteProductItem, "schuette", Colors(c)) ::
              exists j :: 0 <= j < |c.schuetten| && it.parent == Some(ParentRef(c.schuetten[j].id, c.schuetten[j].name, "schuette")) &&
                it.colorGroup == |c.paletten| + j
  {
    CategoryColors(c);
    ContainerItemsParents(c.paletten, pp, PaletteProductItem, "palette", Colors(c));
    ContainerItemsParents(c.schuetten, sp, SchuetteProductItem, "schuette", Colors(c));
  }

  /** Standalone items whose ids are coloured `base`, `base + 1`, ... carry those colours. */
  lemma StandaloneRun(ps: seq<PricedItem>, kind: ItemKind, colors: map<Id, int>, base: int)
    requires kind != EinzelproduktItem
    requires forall i :: 0 <= i < |ps| ==> ps[i].id in colors && colors[ps[i].id] == base + i
    ensures forall i :: 0 <= i < |ps| ==> StandaloneItems(ps, kind, colors)[i] == StandaloneItem(ps[i], kind, base + i)
  {
  }

  /** With distinct ids the displays' items carry the colours after the containers',
      the kartonware's those after the displays'. */
  lemma StandaloneRuns(c: Catalogs)
    requires Distinct(ColorIds(c))
    ensures var p, s, d := |c.paletten|, |c.schuetten|, |c.displays|;
            (forall i :: 0 <= i < d ==>
               StandaloneItems(c.displays, DisplayItem, Colors(c))[i] == StandaloneItem(c.displays[i], DisplayItem, p + s + i))
            && (forall i :: 0 <= i < |c.kartonware| ==>
               StandaloneItems(c.kartonware, KartonwareItem, Colors(c))[i]
               == StandaloneItem(c.kartonware[i], KartonwareItem, p + s + d + i))
  {
    CategoryColors(c);
    StandaloneRun(c.displays, DisplayItem, Colors(c), |c.paletten| + |c.schuetten|);
    StandaloneRun(c.kartonware, KartonwareItem, Colors(c), |c.paletten| + |c.schuetten| + |c.displays|);
  }

  /** The catalog items are the container products' items followed by the displays',
      the kartonware's and the einzelprodukte's, each in list order. */
  lemma CatalogLayout(c: Catalogs, pp: seq<ContainerProduct>, sp: seq<ContainerProduct>, colors: map<Id, int>)
    ensures var items := CatalogItems(c, pp, sp, colors);
            var k := |ContainerItems(c.paletten, pp, PaletteProductItem, "palette", colors)|
                     + |ContainerItems(c.schuetten, sp, SchuetteProductItem, "schuette", colors)|;
            var d, w := |c.displays|, |c.kartonware|;
            |items| == k + d + w + |c.einzelprodukte|
            && (forall i :: 0 <= i < d ==> items[k + i] == StandaloneItems(c.displays, DisplayItem, colors)[i])
            && (forall i :: 0 <= i < w ==> items[k + d + i] == StandaloneItems(c.kartonware, KartonwareItem, colors)[i])
            && (forall i :: 0 <= i < |c.einzelprodukte| ==>
                  items[k + d + w + i] == StandaloneItems(c.einzelprodukte, EinzelproduktItem, colors)[i])
  {
    var containers := ContainerItems(c.paletten, pp, PaletteProductItem, "palette", colors)
                      + ContainerItems(c.schuetten, sp, SchuetteProductItem, "schuette", colors);
    var ds := StandaloneItems(c.displays, DisplayItem, colors);
    var ws := StandaloneItems(c.kartonware, KartonwareItem, colors);
    var es := StandaloneItems(c.einzelprodukte, EinzelproduktItem, colors);
    assert CatalogItems(c, pp, sp, colors) == containers + ds + ws + es;
  }

  /** With distinct ids the catalog items end with the displays, carrying the colours
      that follow the containers', then the kartonware, carrying the colours after the
      displays', then the einzelprodukte, which carry no colour (-1); each in list order. */
  lemma StandaloneColors(c: Catalogs, pp: seq<ContainerProduct>, sp: seq<ContainerProduct>)
    requires Distinct(ColorIds(c))
    ensures var items := CatalogItems(c, pp, sp, Colors(c));
            var k := |ContainerItems(c.paletten, pp, PaletteProductItem, "palette", Colors(c))|
                     + |ContainerItems(c.schuetten, sp, SchuetteProductItem, "schuette", Colors(c))|;
            var p, s, d, w := |c.paletten|, |c.schuetten|, |c.displays|, |c.kartonware|;
            |items| == k + d + w + |c.einzelprodukte|
            && (forall i :: 0 <= i < d ==> items[k + i] == StandaloneItem(c.displays[i], DisplayItem, p + s + i))
            && (forall i :: 0 <= i < w ==>
                  items[k + d + i] == StandaloneItem(c.kartonware[i], KartonwareItem, p + s + d + i))
            && (forall i :: 0 <= i < |c.einzelprodukte| ==>
                  items[k + d + w + i] == StandaloneItem(c.einzelprodukte[i], EinzelproduktItem, -1))
  {
    StandaloneRuns(c);
    CatalogLayout(c, pp, sp, Colors(c));
  }
}
