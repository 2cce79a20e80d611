/** The single-wave export (src/utils/exportTransformers.ts:768-1070): the item list
    with colour groups, the container list, the wave's markets and three matrices over
    item (or container) and market. */
module SingleWave {
  import opened Common
  import opened Records
  import opened Paging
  import opened Totals
  import opened WaveItems
  import opened WaveMatrix
  import opened WaveOrphans
  import opened WaveDrops

  /** The `wellen` row: id, name and goal type. */
  datatype WaveRecord = WaveRecord(id: Id, name: string, goalType: string)

  /** A market of the wave, as `{ id, name }`. */
  datatype MarketRef = MarketRef(id: Id, name: string)

  /** What the export reads. `welle` is None when the wave query fails or finds no row;
      `catalogs` holds the wave's catalog rows, its container products being those of the
      wave's containers; `marketRows` is what the market query returns for the wave's
      market ids (sorted by name by the data source); `submissions` is the wave's
      submission table with its failing page offsets; `orphanRows` what the by-id
      queries for orphaned item ids return. Catalog, market and orphan read errors are
      not checked by the source and appear as empty inputs. */
  datatype WaveSources = WaveSources(
    welle: Option<WaveRecord>,
    catalogs: Catalogs,
    waveMarketIds: seq<Id>,
    marketRows: seq<MarketRef>,
    submissions: seq<WaveSubmission>,
    submissionFailing: set<nat>,
    orphanRows: OrphanSources)

  /** The object the export returns. */
  datatype WaveExport = WaveExport(
    waveName: string,
    goalType: string,
    items: seq<WaveItem>,
    parentItems: seq<ParentItem>,
    markets: seq<MarketRef>,
    matrix: Matrix,
    valueMatrix: Matrix,
    parentMatrix: Matrix)

  /** The rows of a query that is only issued when `keys` is not empty: the container
      products when there are containers, the markets when the wave has market links. */
  function ReadWhenAny<A, B>(keys: seq<A>, rows: seq<B>): (read: seq<B>)
    ensures |keys| == 0 ==> read == []
    ensures |keys| > 0 ==> read == rows
  {
    if |keys| > 0 then rows else []
  }

  /** The export of a wave whose submissions were read. */
  function Assemble(w: WaveRecord, src: WaveSources, subs: seq<WaveSubmission>): WaveExport
  {
    var c := src.catalogs;
    var pp := ReadWhenAny(c.paletten, c.paletteProducts);
    var sp := ReadWhenAny(c.schuetten, c.schuetteProducts);
    var colors := Colors(c);
    var items := CatalogItems(c, pp, sp, colors);
    var orphans := Orphans(subs, ItemIds(items));
    WaveExport(
      w.name, w.goalType,
      items + OrphanItems(orphans, OrphanNames(src.orphanRows)),
      ParentItems(c, colors),
      ReadWhenAny(src.waveMarketIds, src.marketRows),
      MatrixOf(QuantityEntries(subs)),
      MatrixOf(ValueEntries(subs, ItemPrices(c, pp, sp))),
      ParentMatrix(subs, pp, sp))
  }

  /** The whole export: "Welle nicht gefunden" when the wave is missing, the first
      failing submission page when one fails, and otherwise the assembled result. */
  function SingleWaveExport(src: WaveSources): (r: Result<WaveExport>)
    ensures src.welle.None? ==> r == Failure(NotFound)
    ensures src.welle.Some? ==>
              (r.Success? <==> Fetched(src.submissions, src.submissionFailing).Success?)
    ensures src.welle.Some? && r.Failure? ==>
              r.error.DataSourceError? && FirstFailing(|src.submissions|, src.submissionFailing, r.error.offset)
    ensures r.Success? ==> r.value.waveName == src.welle.value.name && r.value.goalType == src.welle.value.goalType
  {
    match src.welle
    case None => Failure(NotFound)
    case Some(w) =>
      match Fetched(src.submissions, src.submissionFailing)
      case Failure(e) => Failure(e)
      case Success(subs) => Success(Assemble(w, src, subs))
  }

  /** src/utils/exportTransformers.ts:768-1070. */
  method TransformSingleWaveExport(src: WaveSources) returns (r: Result<WaveExport>)
    ensures r == SingleWaveExport(src)
  {
    if src.welle.None? {
      return Failure(NotFound);
    }
    var w := src.welle.value;
    var c := src.catalogs;
    var pp := if |c.paletten| > 0 then c.paletteProducts else [];
    var sp := if |c.schuetten| > 0 then c.schuetteProducts else [];
    var markets := if |src.waveMarketIds| > 0 then src.marketRows else [];
    var read := FetchAll(src.submissions, src.submissionFailing);
    if read.Failure? {
      return Failure(read.error);
    }
    var subs := read.value;
    var colors := AssignColors(c);
    var items := BuildCatalogItems(c, pp, sp, colors);
    var parentItems := ParentItems(c, colors);
    var matrix, valueMatrix := BuildMatrices(subs, ItemPrices(c, pp, sp));
    var orphans := CollectOrphans(subs, ItemIds(items));
    items := PushOrphanItems(items, orphans, src.orphanRows);
    var parentMatrix := CountDrops(subs, pp, sp);
    r := Success(WaveExport(w.name, w.goalType, items, parentItems, markets, matrix, valueMatrix, parentMatrix));
  }

  /** A successful export lists every submitted item id among its items, and its
      quantity and value matrices have a row exactly for the submitted item ids, whose
      cells add up to the quantity and value submitted for the item. */
  lemma ExportAccountsForSubmissions(src: WaveSources, item: Id)
    requires SingleWaveExport(src).Success?
    ensures var subs := src.submissions;
            var x := SingleWaveExport(src).value;
            (forall i :: 0 <= i < |subs| ==> exists it :: it in x.items && it.id == subs[i].itemId) &&
            (item in x.matrix <==> exists i :: 0 <= i < |subs| && subs[i].itemId == item) &&
            (item in x.matrix ==> MapSum(x.matrix[item]) == SubmittedQuantity(subs, item)) &&
            (item in x.valueMatrix <==> item in x.matrix)
  {
    var c := src.catalogs;
    var pp := ReadWhenAny(c.paletten, c.paletteProducts);
    var sp := ReadWhenAny(c.schuetten, c.schuetteProducts);
    OrphansComplete(CatalogItems(c, pp, sp, Colors(c)), src.submissions, src.orphanRows);
    QuantityConserved(src.submissions, item);
    ValueConserved(src.submissions, ItemPrices(c, pp, sp), item);
  }

  /** With distinct catalog ids the containers of a successful export carry the colour
      groups 0, 1, 2, ... in order. */
  lemma ExportParentColors(src: WaveSources)
    requires SingleWaveExport(src).Success?
    requires Distinct(ColorIds(src.catalogs))
    ensures var x := SingleWaveExport(src).value;
            forall i :: 0 <= i < |x.parentItems| ==> x.parentItems[i].colorGroup == i
  {
    ParentItemColors(src.catalogs);
  }

  /** The items appended for orphans have distinct ids that no catalog item has. */
  lemma ExportOrphansFresh(src: WaveSources)
    requires SingleWaveExport(src).Success?
    ensures var c := src.catalogs;
            var x := SingleWaveExport(src).value;
            var items := CatalogItems(c, ReadWhenAny(c.paletten, c.paletteProducts), ReadWhenAny(c.schuetten, c.schuetteProducts), Colors(c));
            |items| <= |x.items| && x.items[..|items|] == items &&
            (forall i, j :: |items| <= i < j < |x.items| ==> x.items[i].id != x.items[j].id) &&
            (forall i, j :: 0 <= i < |items| <= j < |x.items| ==> x.items[i].id != x.items[j].id)
  {
    var c := src.catalogs;
    var items := CatalogItems(c, ReadWhenAny(c.paletten, c.paletteProducts), ReadWhenAny(c.schuetten, c.schuetteProducts), Colors(c));
    OrphansFresh(items, src.submissions, src.orphanRows);
  }

  /** With container products, the container matrix of a successful export counts, per
      container and market, the distinct minutes at which the container's products
      were submitted there; without them it is empty. */
  lemma ExportDrops(src: WaveSources, p: Id, m: Id)
    requires SingleWaveExport(src).Success?
    ensures var c := src.catalogs;
            var pp := ReadWhenAny(c.paletten, c.paletteProducts);
            var sp := ReadWhenAny(c.schuetten, c.schuetteProducts);
            var pm := SingleWaveExport(src).value.parentMatrix;
            var pl, sl := ParentLinks(pp), ParentLinks(sp);
            (|pp| == 0 && |sp| == 0 ==> pm == map[]) &&
            (|pp| > 0 || |sp| > 0 ==>
               (p in pm && m in pm[p] <==> Dropped(src.submissions, pl, sl, p, m)) &&
               (p in pm && m in pm[p] ==> pm[p][m] == |Minutes(src.submissions, pl, sl, p, m)|))
  {
    var c := src.catalogs;
    var pp := ReadWhenAny(c.paletten, c.paletteProducts);
    var sp := ReadWhenAny(c.schuetten, c.schuetteProducts);
    if |pp| > 0 || |sp| > 0 {
      DropCounts(src.submissions, pp, sp, p, m);
    }
  }
}
