/** The wave-submission report (`transformWellenSubmissions`): resolves every
    submitted item to a name, a container and a catalog value, groups palette and
    schuette submissions entered in the same minute at the same market for the same
    container, and emits flat rows in expanded (parent + children) or compact
    (one multiline row) form, then keeps only the requested columns plus the five
    rendering metadata fields. */
module SubmissionReport {
  import opened Common
  import opened Records
  import opened Grouping
  import Paging

  // ---------------------------------------------------------------------------
  // Item resolution (src/utils/exportTransformers.ts:143-158)
  // ---------------------------------------------------------------------------

  /** What the report knows about a submitted item: its name, the name of the
      container it belongs to ("" for none) and its catalog value (0 for none). */
  datatype ItemInfo = ItemInfo(name: string, container: string, itemValue: int)

  function StandaloneEntries(items: seq<PricedItem>): seq<(Id, ItemInfo)>
  {
    seq(|items|, i requires 0 <= i < |items| => (items[i].id, ItemInfo(items[i].name, "", items[i].itemValue)))
  }

  function ContainerNames(containers: seq<Container>): map<Id, string>
  {
    ToMap(seq(|containers|, i requires 0 <= i < |containers| => (containers[i].id, containers[i].name)))
  }

  /** A container product carries the name of its container, or the fallback when
      the container is unknown or nameless, and no item value. */
  function ContainerEntries(products: seq<ContainerProduct>, names: map<Id, string>, fallback: string)
    : seq<(Id, ItemInfo)>
  {
    seq(|products|, i requires 0 <= i < |products| =>
      (products[i].id, ItemInfo(products[i].name, OrText(GetOr(names, products[i].containerId, ""), fallback), 0)))
  }

  const UnknownPalette := "Unbekannte Palette"
  const UnknownSchuette := "Unbekannte Schütte"

  function ItemEntries(c: Catalogs): seq<(Id, ItemInfo)>
  {
    StandaloneEntries(c.displays) + StandaloneEntries(c.kartonware) + StandaloneEntries(c.einzelprodukte)
    + ContainerEntries(c.paletteProducts, ContainerNames(c.paletten), UnknownPalette)
    + ContainerEntries(c.schuetteProducts, ContainerNames(c.schuetten), UnknownSchuette)
  }

  /** The ids of every catalog row the report read. */
  function CatalogIds(c: Catalogs): set<Id>
  {
    (set d | d in c.displays :: d.id) + (set d | d in c.kartonware :: d.id)
    + (set d | d in c.einzelprodukte :: d.id)
    + (set p | p in c.paletteProducts :: p.id) + (set p | p in c.schuetteProducts :: p.id)
  }

  function EntryKeys(entries: seq<(Id, ItemInfo)>): set<Id>
  {
    set i | 0 <= i < |entries| :: entries[i].0
  }

  /** No entry that names a container carries a catalog value. */
  predicate ContainerItemsUnvalued(entries: seq<(Id, ItemInfo)>)
  {
    forall i :: 0 <= i < |entries| ==> entries[i].1.container != "" ==> entries[i].1.itemValue == 0
  }

  lemma EntriesAppend(a: seq<(Id, ItemInfo)>, b: seq<(Id, ItemInfo)>)
    ensures EntryKeys(a + b) == EntryKeys(a) + EntryKeys(b)
    ensures ContainerItemsUnvalued(a) && ContainerItemsUnvalued(b) ==> ContainerItemsUnvalued(a + b)
  {
    forall k | k in EntryKeys(a + b) ensures k in EntryKeys(a) + EntryKeys(b) {
      var i :| 0 <= i < |a + b| && (a + b)[i].0 == k;
      if i >= |a| {
        assert b[i - |a|].0 == k;
      }
    }
    forall k | k in EntryKeys(a) ensures k in EntryKeys(a + b) {
      var i :| 0 <= i < |a| && a[i].0 == k;
      assert (a + b)[i].0 == k;
    }
    forall k | k in EntryKeys(b) ensures k in EntryKeys(a + b) {
      var i :| 0 <= i < |b| && b[i].0 == k;
      assert (a + b)[|a| + i].0 == k;
    }
  }

  lemma StandaloneKeys(items: seq<PricedItem>)
    ensures EntryKeys(StandaloneEntries(items)) == set d | d in items :: d.id
    ensures ContainerItemsUnvalued(StandaloneEntries(items))
  {
    var e := StandaloneEntries(items);
    forall k | k in set d | d in items :: d.id ensures k in EntryKeys(e) {
      var d :| d in items && d.id == k;
      var i :| 0 <= i < |items| && items[i] == d;
      assert e[i].0 == k;
    }
  }

  lemma ContainerKeys(products: seq<ContainerProduct>, names: map<Id, string>, fallback: string)
    ensures EntryKeys(ContainerEntries(products, names, fallback)) == set p | p in products :: p.id
    ensures ContainerItemsUnvalued(ContainerEntries(products, names, fallback))
  {
    var e := ContainerEntries(products, names, fallback);
    forall k | k in set p | p in products :: p.id ensures k in EntryKeys(e) {
      var p :| p in products && p.id == k;
      var i :| 0 <= i < |products| && products[i] == p;
      assert e[i].0 == k;
    }
  }

  /** `itemNameMap`: the Map built from the three standalone catalogs, then overwritten
      by `set` for every palette product and every schuette product, in that order.
      It knows every catalog row's id, and no item that belongs to a container carries
      a catalog value. */
  function ItemNameMap(c: Catalogs): (m: map<Id, ItemInfo>)
    ensures m.Keys == CatalogIds(c)
    ensures forall id | id in m :: m[id].container != "" ==> m[id].itemValue == 0
  {
    var d := StandaloneEntries(c.displays);
    var k := StandaloneEntries(c.kartonware);
    var e := StandaloneEntries(c.einzelprodukte);
    var p := ContainerEntries(c.paletteProducts, ContainerNames(c.paletten), UnknownPalette);
    var s := ContainerEntries(c.schuetteProducts, ContainerNames(c.schuetten), UnknownSchuette);
    StandaloneKeys(c.displays);
    StandaloneKeys(c.kartonware);
    StandaloneKeys(c.einzelprodukte);
    ContainerKeys(c.paletteProducts, ContainerNames(c.paletten), UnknownPalette);
    ContainerKeys(c.schuetteProducts, ContainerNames(c.schuetten), UnknownSchuette);
    EntriesAppend(d, k);
    EntriesAppend(d + k, e);
    EntriesAppend(d + k + e, p);
    EntriesAppend(d + k + e + p, s);
    var entries := ItemEntries(c);
    assert entries == d + k + e + p + s;
    var m := ToMap(entries);
    ToMapKeys(entries);
    assert m.Keys == EntryKeys(entries);
    forall id | id in m && m[id].container != "" ensures m[id].itemValue == 0 {
      ToMapWitness(entries, id);
      var i :| 0 <= i < |entries| && entries[i] == (id, m[id]);
    }
    m
  }

  /** A schuette product is the last writer of its id unless a later schuette product
      shares it: its entry names its container, or 'Unbekannte Schütte'. */
  lemma SchuetteProductResolves(c: Catalogs, j: nat)
    requires j < |c.schuetteProducts|
    requires forall j' :: j < j' < |c.schuetteProducts| ==> c.schuetteProducts[j'].id != c.schuetteProducts[j].id
    ensures var p := c.schuetteProducts[j];
            ItemNameMap(c)[p.id] == ItemInfo(p.name, OrText(GetOr(ContainerNames(c.schuetten), p.containerId, ""), UnknownSchuette), 0)
  {
    var entries := ItemEntries(c);
    var off := |entries| - |c.schuetteProducts|;
    assert entries[off + j].0 == c.schuetteProducts[j].id;
    forall j' | off + j < j' < |entries| ensures entries[j'].0 != entries[off + j].0 {
      assert entries[j'].0 == c.schuetteProducts[j' - off].id;
    }
    ToMapLastWins(entries, off + j);
  }

  /** A palette product no schuette product and no later palette product shares its id
      with resolves to its own name and its container's name, or 'Unbekannte Palette'. */
  lemma PaletteProductResolves(c: Catalogs, j: nat)
    requires j < |c.paletteProducts|
    requires forall j' :: j < j' < |c.paletteProducts| ==> c.paletteProducts[j'].id != c.paletteProducts[j].id
    requires forall q | q in c.schuetteProducts :: q.id != c.paletteProducts[j].id
    ensures var p := c.paletteProducts[j];
            ItemNameMap(c)[p.id] == ItemInfo(p.name, OrText(GetOr(ContainerNames(c.paletten), p.containerId, ""), UnknownPalette), 0)
  {
    var entries := ItemEntries(c);
    var off := |entries| - |c.schuetteProducts| - |c.paletteProducts|;
    var soff := |entries| - |c.schuetteProducts|;
    assert entries[off + j].0 == c.paletteProducts[j].id;
    forall j' | off + j < j' < |entries| ensures entries[j'].0 != entries[off + j].0 {
      if j' < soff {
        assert entries[j'].0 == c.paletteProducts[j' - off].id;
      } else {
        assert entries[j'].0 == c.schuetteProducts[j' - soff].id;
        assert c.schuetteProducts[j' - soff] in c.schuetteProducts;
      }
    }
    ToMapLastWins(entries, off + j);
  }

  // ---------------------------------------------------------------------------
  // Grouping (src/utils/exportTransformers.ts:160-174)
  // ---------------------------------------------------------------------------

  /** The group key string `${minute}|${market_id}|${container}`. */
  function KeyText(minute: string, marketId: Id, container: string): string
  {
    minute + "|" + marketId + "|" + container
  }

  /** A palette or schuette submission whose item resolved to a container has a group
      key; every other submission has none. */
  function GroupKey(s: Submission, items: map<Id, ItemInfo>): Option<string>
  {
    if IsContainerProduct(s.itemType) && s.itemId in items && items[s.itemId].container != ""
    then Some(KeyText(s.minute, s.marketId, items[s.itemId].container))
    else None
  }

  function KeyOf(items: map<Id, ItemInfo>): Submission -> Option<string>
  {
    s => GroupKey(s, items)
  }

  /** The submissions of one group, in submission order. */
  function Members(subs: seq<Submission>, items: map<Id, ItemInfo>, key: string): (g: seq<Submission>)
    ensures forall s :: s in g <==> s in subs && GroupKey(s, items) == Some(key)
    ensures |g| <= |subs|
  {
    Bucket(subs, KeyOf(items), key)
  }

  /** The loop at src/utils/exportTransformers.ts:161-174 filling `grouped`. */
  method GroupSubmissions(subs: seq<Submission>, items: map<Id, ItemInfo>)
    returns (grouped: map<string, seq<Submission>>)
    ensures forall k :: k in grouped <==> Members(subs, items, k) != []
    ensures forall k | k in grouped :: grouped[k] == Members(subs, items, k)
  {
    grouped := GroupBy(subs, KeyOf(items));
  }

  // ---------------------------------------------------------------------------
  // Rows (src/utils/exportTransformers.ts:176-338)
  // ---------------------------------------------------------------------------

  /** The lookup maps of one report call. */
  datatype Lookups = Lookups(
    wellen: map<Id, Welle>,
    gls: map<Id, Gebietsleiter>,
    markets: map<Id, Market>,
    items: map<Id, ItemInfo>)

  /** The wave, manager and market columns a row repeats. */
  datatype Header = Header(
    welleName: string,
    glName: string,
    glEmail: string,
    marketName: string,
    marketChain: string,
    marketAddress: string,
    marketPostalCode: string,
    marketCity: string)

  /** A missing wave, manager or market renders as 'Unbekannt' (names) or '' (details). */
  function HeaderOf(s: Submission, ctx: Lookups): Header
  {
    var w := if s.welleId in ctx.wellen then ctx.wellen[s.welleId].name else "";
    var gl := GetOr(ctx.gls, s.glId, Gebietsleiter("", "", ""));
    var m := GetOr(ctx.markets, s.marketId, Market("", "", "", "", "", ""));
    Header(OrText(w, Unknown), OrText(gl.name, Unknown), gl.email,
           OrText(m.name, Unknown), m.chain, m.address, m.postalCode, m.city)
  }

  const BlankHeader := Header("", "", "", "", "", "", "", "")

  datatype RowKind = Plain | Parent | Child | Multiline(details: seq<ProductDetail>)

  /** A built row before the column filter. `ids` are the submission ids the
      `submission_id` column joins with ','. */
  datatype ReportRow = ReportRow(
    ids: seq<Id>,
    createdAt: string,
    header: Header,
    marketId: string,
    itemType: string,
    itemName: Cell,
    containerName: string,
    quantity: int,
    valuePerUnit: int,
    totalValue: int,
    photoUrl: string,
    deliveryPhotoUrl: string,
    kind: RowKind,
    groupId: string)

  /** `quantity * (value_per_unit || 0)`. */
  function LineValue(s: Submission): int
  {
    s.quantity * s.valuePerUnit
  }

  /** The `reduce` at src/utils/exportTransformers.ts:195. */
  function GroupTotal(g: seq<Submission>): int
  {
    if g == [] then 0 else GroupTotal(g[..|g| - 1]) + LineValue(g[|g| - 1])
  }

  function IdSeq(g: seq<Submission>): (ids: seq<Id>)
    ensures |ids| == |g| && forall i :: 0 <= i < |g| ==> ids[i] == g[i].id
  {
    seq(|g|, i requires 0 <= i < |g| => g[i].id)
  }

  function ProductName(s: Submission, items: map<Id, ItemInfo>): string
  {
    OrText(if s.itemId in items then items[s.itemId].name else "", Unknown)
  }

  function ContainerOf(s: Submission, items: map<Id, ItemInfo>): string
  {
    if s.itemId in items then items[s.itemId].container else ""
  }

  /** The price of a plain row: the catalog value when non-zero, else the
      submission's own value per unit (`item?.itemValue || sub.value_per_unit || 0`). */
  function PlainPrice(s: Submission, items: map<Id, ItemInfo>): int
  {
    if s.itemId in items && items[s.itemId].itemValue != 0 then items[s.itemId].itemValue
    else s.valuePerUnit
  }

  /** A plain row's value per unit is the catalog value when the item has a non-zero
      one and the submission's own value otherwise; its total is quantity times that;
      a missing wave, manager, market or item shows as 'Unbekannt'. */
  function PlainRowOf(s: Submission, ctx: Lookups): (row: ReportRow)
    ensures row.kind == Plain && row.ids == [s.id] && row.groupId == ""
    ensures row.quantity == s.quantity && row.totalValue == s.quantity * row.valuePerUnit
    ensures s.itemId in ctx.items && ctx.items[s.itemId].itemValue != 0 ==> row.valuePerUnit == ctx.items[s.itemId].itemValue
    ensures s.itemId !in ctx.items || ctx.items[s.itemId].itemValue == 0 ==> row.valuePerUnit == s.valuePerUnit
    ensures s.itemId !in ctx.items ==> row.itemName == Text(Unknown) && row.containerName == ""
    ensures s.welleId !in ctx.wellen ==> row.header.welleName == Unknown
    ensures s.glId !in ctx.gls ==> row.header.glName == Unknown && row.header.glEmail == ""
    ensures s.marketId !in ctx.markets ==> row.header.marketName == Unknown && row.header.marketCity == ""
  {
    var price := PlainPrice(s, ctx.items);
    ReportRow([s.id], s.createdAt, HeaderOf(s, ctx), s.marketId, TypeName(s.itemType),
              Text(ProductName(s, ctx.items)), ContainerOf(s, ctx.items),
              s.quantity, price, s.quantity * price, s.photoUrl, s.deliveryPhotoUrl, Plain, "")
  }

  /** The synthetic parent row of an expanded group: the container as item, quantity 1,
      the group total as both unit and total value. */
  function ParentRowOf(anchor: Submission, key: string, g: seq<Submission>, ctx: Lookups): ReportRow
  {
    var total := GroupTotal(g);
    ReportRow(IdSeq(g), anchor.createdAt, HeaderOf(anchor, ctx), anchor.marketId, TypeName(anchor.itemType),
              Text(ContainerOf(anchor, ctx.items)), "", 1, total, total,
              anchor.photoUrl, anchor.deliveryPhotoUrl, Parent, key)
  }

  function ChildRowOf(c: Submission, key: string, ctx: Lookups): ReportRow
  {
    ReportRow([c.id], c.createdAt, BlankHeader, "", "", Text("└─ " + ProductName(c, ctx.items)), "",
              c.quantity, c.valuePerUnit, LineValue(c), "", "", Child, key)
  }

  function ChildRows(g: seq<Submission>, key: string, ctx: Lookups): seq<ReportRow>
  {
    seq(|g|, i requires 0 <= i < |g| => ChildRowOf(g[i], key, ctx))
  }

  function DetailOf(s: Submission, anchor: Submission, ctx: Lookups): ProductDetail
  {
    var h := HeaderOf(anchor, ctx);
    ProductDetail(s.createdAt, h.welleName, h.glName, h.marketName, h.marketChain, h.marketAddress,
                  h.marketPostalCode, h.marketCity, ContainerOf(anchor, ctx.items), TypeName(anchor.itemType),
                  ProductName(s, ctx.items), s.quantity, s.valuePerUnit, LineValue(s))
  }

  function Details(g: seq<Submission>, anchor: Submission, ctx: Lookups): seq<ProductDetail>
  {
    seq(|g|, i requires 0 <= i < |g| => DetailOf(g[i], anchor, ctx))
  }

  /** The single row of a compact group; its item name is the multiline product list. */
  function CompactRowOf(anchor: Submission, g: seq<Submission>, ctx: Lookups): ReportRow
  {
    var total := GroupTotal(g);
    var details := Details(g, anchor, ctx);
    ReportRow(IdSeq(g), anchor.createdAt, HeaderOf(anchor, ctx), anchor.marketId, TypeName(anchor.itemType),
              ProductLines(details, total), ContainerOf(anchor, ctx.items), 1, total, total,
              anchor.photoUrl, anchor.deliveryPhotoUrl, Multiline(details), "")
  }

  /** What one step of the submission pass emits: a plain submission, or a whole
      group at the first of its members the pass reaches. */
  datatype Unit = Single(sub: Submission) | Group(key: string, anchor: Submission, members: seq<Submission>)

  function IdSet(g: seq<Submission>): set<Id>
  {
    set s | s in g :: s.id
  }

  /** The pass at src/utils/exportTransformers.ts:180-338 from submission `i` on, with
      `processed` the ids in `processedIds`: a processed submission is skipped; a
      grouped one emits its whole group unless the group's first member was processed,
      and marks all members; any other emits a plain row and marks itself. */
  function Units(subs: seq<Submission>, items: map<Id, ItemInfo>, i: nat, processed: set<Id>): seq<Unit>
    requires i <= |subs|
    decreases |subs| - i
  {
    if i == |subs| then []
    else
      var s := subs[i];
      if s.id in processed then Units(subs, items, i + 1, processed)
      else
        match GroupKey(s, items)
        case Some(k) =>
          var g := Members(subs, items, k);
          if |g| > 0 && g[0].id !in processed
          then [Group(k, s, g)] + Units(subs, items, i + 1, processed + IdSet(g))
          else Units(subs, items, i + 1, processed)
        case None => [Single(s)] + Units(subs, items, i + 1, processed + {s.id})
  }

  function RenderUnit(u: Unit, ctx: Lookups, expand: bool): seq<ReportRow>
  {
    match u
    case Single(s) => [PlainRowOf(s, ctx)]
    case Group(k, a, g) =>
      if expand then [ParentRowOf(a, k, g, ctx)] + ChildRows(g, k, ctx)
      else [CompactRowOf(a, g, ctx)]
  }

  function RenderAll(us: seq<Unit>, ctx: Lookups, expand: bool): seq<ReportRow>
  {
    if us == [] then [] else RenderUnit(us[0], ctx, expand) + RenderAll(us[1..], ctx, expand)
  }

  /** The rows of the report before the column filter. */
  function ReportRows(subs: seq<Submission>, ctx: Lookups, expand: bool): seq<ReportRow>
  {
    RenderAll(Units(subs, ctx.items, 0, {}), ctx, expand)
  }

  lemma AppendAssoc<T>(a: seq<T>, b: seq<T>, c: seq<T>)
    ensures a + (b + c) == (a + b) + c
  {
  }

  lemma RenderAllCons(u: Unit, us: seq<Unit>, ctx: Lookups, expand: bool)
    ensures RenderAll([u] + us, ctx, expand) == RenderUnit(u, ctx, expand) + RenderAll(us, ctx, expand)
  {
    assert ([u] + us)[1..] == us;
  }

  lemma ChildRowsStep(g: seq<Submission>, j: nat, key: string, ctx: Lookups)
    requires j < |g|
    ensures ChildRows(g[..j + 1], key, ctx) == ChildRows(g[..j], key, ctx) + [ChildRowOf(g[j], key, ctx)]
  {
  }

  lemma IdSetStep(g: seq<Submission>, j: nat)
    requires j < |g|
    ensures IdSet(g[..j + 1]) == IdSet(g[..j]) + {g[j].id}
  {
    assert g[..j + 1] == g[..j] + [g[j]];
  }

  /** The `forEach` at src/utils/exportTransformers.ts:225-252: one child row per
      member, each marking its member processed. */
  method EmitChildren(rows: seq<ReportRow>, processed: set<Id>, key: string, g: seq<Submission>, ctx: Lookups)
    returns (rows': seq<ReportRow>, processed': set<Id>)
    ensures rows' == rows + ChildRows(g, key, ctx)
    ensures processed' == processed + IdSet(g)
  {
    rows', processed' := rows, processed;
    for j := 0 to |g|
      invariant rows' == rows + ChildRows(g[..j], key, ctx)
      invariant processed' == processed + IdSet(g[..j])
    {
      ChildRowsStep(g, j, key, ctx);
      IdSetStep(g, j);
      rows' := rows' + [ChildRowOf(g[j], key, ctx)];
      processed' := processed' + {g[j].id};
    }
    assert g[..|g|] == g;
  }

  /** The rows of one group, at src/utils/exportTransformers.ts:194-307: the parent row
      then the child rows (expanded), or the single compact row, then every member
      marked processed. */
  method EmitGroup(rows: seq<ReportRow>, processed: set<Id>, anchor: Submission, key: string,
                   g: seq<Submission>, ctx: Lookups, expand: bool)
    returns (rows': seq<ReportRow>, processed': set<Id>)
    ensures rows' == rows + RenderUnit(Group(key, anchor, g), ctx, expand)
    ensures processed' == processed + IdSet(g)
  {
    if expand {
      var parent := ParentRowOf(anchor, key, g, ctx);
      rows', processed' := EmitChildren(rows + [parent], processed, key, g, ctx);
    } else {
      rows' := rows + [CompactRowOf(anchor, g, ctx)];
      processed' := processed + IdSet(g);
    }
  }

  /** One iteration of the `forEach` at src/utils/exportTransformers.ts:180-338. */
  method PassStep(subs: seq<Submission>, ctx: Lookups, expand: bool, grouped: map<string, seq<Submission>>,
                  i: nat, rows: seq<ReportRow>, processed: set<Id>)
    returns (rows': seq<ReportRow>, processed': set<Id>)
    requires i < |subs|
    requires forall k :: k in grouped <==> Members(subs, ctx.items, k) != []
    requires forall k | k in grouped :: grouped[k] == Members(subs, ctx.items, k)
    ensures rows' + RenderAll(Units(subs, ctx.items, i + 1, processed'), ctx, expand)
            == rows + RenderAll(Units(subs, ctx.items, i, processed), ctx, expand)
  {
    rows', processed' := rows, processed;
    var sub := subs[i];
    if sub.id !in processed {
      match GroupKey(sub, ctx.items) {
        case Some(k) =>
          var g := if k in grouped then grouped[k] else [];
          assert g == Members(subs, ctx.items, k);
          if |g| > 0 && g[0].id !in processed {
            ghost var rest := Units(subs, ctx.items, i + 1, processed + IdSet(g));
            RenderAllCons(Group(k, sub, g), rest, ctx, expand);
            AppendAssoc(rows, RenderUnit(Group(k, sub, g), ctx, expand), RenderAll(rest, ctx, expand));
            rows', processed' := EmitGroup(rows, processed, sub, k, g, ctx, expand);
          }
        case None =>
          ghost var rest := Units(subs, ctx.items, i + 1, processed + {sub.id});
          RenderAllCons(Single(sub), rest, ctx, expand);
          AppendAssoc(rows, [PlainRowOf(sub, ctx)], RenderAll(rest, ctx, expand));
          rows' := rows + [PlainRowOf(sub, ctx)];
          processed' := processed + {sub.id};
      }
    }
  }

  /** The two loops at src/utils/exportTransformers.ts:161-338: group, then emit rows
      in one pass guarded by `processedIds`. */
  method BuildRows(subs: seq<Submission>, ctx: Lookups, expand: bool) returns (rows: seq<ReportRow>)
    ensures rows == ReportRows(subs, ctx, expand)
  {
    var grouped := GroupSubmissions(subs, ctx.items);
    rows := [];
    var processedIds: set<Id> := {};
    for i := 0 to |subs|
      invariant rows + RenderAll(Units(subs, ctx.items, i, processedIds), ctx, expand)
                == ReportRows(subs, ctx, expand)
    {
      rows, processedIds := PassStep(subs, ctx, expand, grouped, i, rows, processedIds);
    }
  }

  // ---------------------------------------------------------------------------
  // Column filter and metadata (src/utils/exportTransformers.ts:339-355)
  // ---------------------------------------------------------------------------

  /** The 19 columns a built row owns. */
  const ReportColumns: seq<string> := [
    "submission_id", "created_at", "welle_name", "gl_name", "gl_email", "market_name",
    "market_chain", "market_address", "market_postal_code", "market_city", "market_id",
    "item_type", "item_name", "container_name", "quantity", "value_per_unit", "total_value",
    "photo_url", "delivery_photo_url"]

  /** The rendering fields every exported row carries, whatever was requested. */
  const MetadataKeys: set<string> := {"_isParent", "_isChild", "_groupId", "_isMultiline", "_productDetails"}

  /** The columns of a built row as a JavaScript object. */
  function Fields(r: ReportRow): (row: Row)
    ensures row.Keys == set c | c in ReportColumns
  {
    var h := r.header;
    map[
      "submission_id" := Text(Join(r.ids, ",")),
      "created_at" := Text(r.createdAt),
      "welle_name" := Text(h.welleName),
      "gl_name" := Text(h.glName),
      "gl_email" := Text(h.glEmail),
      "market_name" := Text(h.marketName),
      "market_chain" := Text(h.marketChain),
      "market_address" := Text(h.marketAddress),
      "market_postal_code" := Text(h.marketPostalCode),
      "market_city" := Text(h.marketCity),
      "market_id" := Text(r.marketId),
      "item_type" := Text(r.itemType),
      "item_name" := r.itemName,
      "container_name" := Text(r.containerName),
      "quantity" := Num(r.quantity),
      "value_per_unit" := Num(r.valuePerUnit),
      "total_value" := Num(r.totalValue),
      "photo_url" := Text(r.photoUrl),
      "delivery_photo_url" := Text(r.deliveryPhotoUrl)]
  }

  /** `_isParent`, `_isChild`, `_isMultiline` default to false, `_groupId` and
      `_productDetails` to null. */
  function Metadata(r: ReportRow): Row
  {
    map[
      "_isParent" := Flag(r.kind.Parent?),
      "_isChild" := Flag(r.kind.Child?),
      "_groupId" := if r.groupId != "" then Text(r.groupId) else Null,
      "_isMultiline" := Flag(r.kind.Multiline?),
      "_productDetails" := if r.kind.Multiline? then ProductList(r.kind.details) else Null]
  }

  /** Metadata written over any row: its keys and values come out on top. */
  lemma MetadataWins(selected: Row, r: ReportRow)
    ensures (selected + Metadata(r)).Keys == selected.Keys + MetadataKeys
    ensures forall c | c in selected && c !in MetadataKeys :: (selected + Metadata(r))[c] == selected[c]
    ensures var out := selected + Metadata(r);
            out["_isParent"] == Flag(r.kind.Parent?) && out["_isChild"] == Flag(r.kind.Child?) &&
            out["_isMultiline"] == Flag(r.kind.Multiline?) &&
            out["_groupId"] == (if r.groupId == "" then Null else Text(r.groupId)) &&
            out["_productDetails"] == (if r.kind.Multiline? then ProductList(r.kind.details) else Null)
  {
    assert Metadata(r).Keys == MetadataKeys;
  }

  /** One exported row: the requested columns the row owns, then the metadata, which
      is written last and so wins over a requested column of the same name. */
  function ExportRow(columns: seq<string>, r: ReportRow): (out: Row)
    ensures out.Keys == (set c | c in columns && c in Fields(r)) + MetadataKeys
    ensures forall c | c in columns && c in Fields(r) && c !in MetadataKeys :: out[c] == Fields(r)[c]
    ensures out["_isParent"] == Flag(r.kind.Parent?) && out["_isChild"] == Flag(r.kind.Child?)
    ensures out["_isMultiline"] == Flag(r.kind.Multiline?)
    ensures out["_groupId"] == (if r.groupId == "" then Null else Text(r.groupId))
    ensures out["_productDetails"] == (if r.kind.Multiline? then ProductList(r.kind.details) else Null)
  {
    var selected := SelectColumns(columns, Fields(r));
    MetadataWins(selected, r);
    selected + Metadata(r)
  }

  // ---------------------------------------------------------------------------
  // The transformer (src/utils/exportTransformers.ts:44-356)
  // ---------------------------------------------------------------------------

  function WellenById(ws: seq<Welle>): map<Id, Welle>
  {
    ToMap(seq(|ws|, i requires 0 <= i < |ws| => (ws[i].id, ws[i])))
  }

  function GlsById(gs: seq<Gebietsleiter>): map<Id, Gebietsleiter>
  {
    ToMap(seq(|gs|, i requires 0 <= i < |gs| => (gs[i].id, gs[i])))
  }

  function MarketsById(ms: seq<Market>): map<Id, Market>
  {
    ToMap(seq(|ms|, i requires 0 <= i < |ms| => (ms[i].id, ms[i])))
  }

  /** The lookup tables of one call: what the wave, manager, market and catalog
      queries returned. */
  datatype Related = Related(wellen: seq<Welle>, gls: seq<Gebietsleiter>, markets: seq<Market>, catalogs: Catalogs)

  function LookupsOf(rel: Related): Lookups
  {
    Lookups(WellenById(rel.wellen), GlsById(rel.gls), MarketsById(rel.markets), ItemNameMap(rel.catalogs))
  }

  /** What `transformWellenSubmissions` returns for the submission table `table` (already
      filtered and ordered by the query), whose range reads fail at the offsets in
      `failing`. */
  function SubmissionsExport(table: seq<Submission>, failing: set<nat>, rel: Related,
                             columns: seq<string>, expand: bool): (r: Result<seq<Row>>)
    ensures r.Success? <==> forall o | o in failing :: !Paging.Visited(|table|, o)
    ensures r.Failure? ==> r.error.DataSourceError? && Paging.FirstFailing(|table|, failing, r.error.offset)
    ensures r.Success? ==>
              |r.value| == |ReportRows(table, LookupsOf(rel), expand)| &&
              forall i :: 0 <= i < |r.value| ==> r.value[i] == ExportRow(columns, ReportRows(table, LookupsOf(rel), expand)[i])
  {
    match Paging.Fetched(table, failing)
    case Failure(e) => Failure(e)
    case Success(subs) =>
      var rows := ReportRows(subs, LookupsOf(rel), expand);
      Success(seq(|rows|, i requires 0 <= i < |rows| => ExportRow(columns, rows[i])))
  }

  method TransformWellenSubmissions(table: seq<Submission>, failing: set<nat>, rel: Related,
                                    columns: seq<string>, expand: bool)
    returns (r: Result<seq<Row>>)
    ensures r == SubmissionsExport(table, failing, rel, columns, expand)
  {
    var fetched := Paging.FetchAll(table, failing);
    if fetched.Failure? {
      return Failure(fetched.error);
    }
    var subs := fetched.value;
    if |subs| == 0 {
      assert Units(subs, LookupsOf(rel).items, 0, {}) == [];
      ghost var none := ReportRows(subs, LookupsOf(rel), expand);
      assert none == [];
      assert seq(|none|, i requires 0 <= i < |none| => ExportRow(columns, none[i])) == [];
      return Success([]);
    }
    var ctx := LookupsOf(rel);
    var rows := BuildRows(subs, ctx, expand);
    return Success(seq(|rows|, i requires 0 <= i < |rows| => ExportRow(columns, rows[i])));
  }
}
