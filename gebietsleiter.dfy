/** The area-manager dataset (`transformGebietsleiter`): every active manager with
    their summed market visits and per-type submission metrics, reduced to the
    requested columns. */
module ManagerExport {
  import opened Common
  import opened Records
  import opened Totals
  import Paging

  /** A row of `gebietsleiter`. `name`, `email` and `createdAt` are copied without a
      fallback. */
  datatype ManagerRecord = ManagerRecord(
    id: Id,
    name: Option<string>,
    email: Option<string>,
    phone: string,
    address: string,
    city: string,
    postalCode: string,
    isActive: bool,
    createdAt: Option<string>,
    profilePictureUrl: string)

  /** The `gebietsleiter_id, current_visits` projection of a market (0 for null visits). */
  datatype MarketVisits = MarketVisits(glId: Id, currentVisits: int)

  /** The `gebietsleiter_id, item_type, quantity, value_per_unit` projection of a wave
      submission (0 for a null price). */
  datatype WaveEntry = WaveEntry(glId: Id, itemType: ItemType, quantity: int, valuePerUnit: int)

  /** The visits recorded per manager, one entry per market. */
  function VisitEntries(ms: seq<MarketVisits>): (e: seq<(Id, int)>)
    ensures |e| == |ms|
    ensures forall i :: 0 <= i < |ms| ==> e[i] == (ms[i].glId, ms[i].currentVisits)
  {
    seq(|ms|, i requires 0 <= i < |ms| => (ms[i].glId, ms[i].currentVisits))
  }

  /** What a submission adds to its manager's metric: the quantity for displays and
      kartonware, quantity × price for paletten and schuetten. */
  function Amount(s: WaveEntry): int
  {
    if IsContainerProduct(s.itemType) then s.quantity * s.valuePerUnit else s.quantity
  }

  /** The metric entries of one item type, in submission order. */
  function MetricEntries(subs: seq<WaveEntry>, t: ItemType): (e: seq<(Id, int)>)
    ensures |e| <= |subs|
  {
    if subs == [] then []
    else
      var last := subs[|subs| - 1];
      MetricEntries(subs[..|subs| - 1], t) + (if last.itemType == t then [(last.glId, Amount(last))] else [])
  }

  /** Every metric entry is recorded under the manager of some submission. */
  lemma {:induction false} MetricKeys(subs: seq<WaveEntry>, t: ItemType, ids: seq<Id>)
    requires forall j :: 0 <= j < |subs| ==> subs[j].glId in ids
    ensures forall i :: 0 <= i < |MetricEntries(subs, t)| ==> MetricEntries(subs, t)[i].0 in ids
  {
    if subs != [] {
      var prefix := subs[..|subs| - 1];
      assert forall j :: 0 <= j < |prefix| ==> prefix[j] == subs[j];
      MetricKeys(prefix, t, ids);
    }
  }

  lemma MetricEntriesStep(subs: seq<WaveEntry>, t: ItemType, i: nat)
    requires i < |subs|
    ensures MetricEntries(subs[..i + 1], t) ==
            MetricEntries(subs[..i], t) + (if subs[i].itemType == t then [(subs[i].glId, Amount(subs[i]))] else [])
  {
    assert subs[..i + 1][..i] == subs[..i];
  }

  /** One `case` of the `switch`: the submission's amount is added to its manager's
      running total when it has the metric's item type. */
  method AddAmount(m: map<Id, int>, subs: seq<WaveEntry>, t: ItemType, i: nat) returns (m': map<Id, int>)
    requires i < |subs|
    requires m == Tally(MetricEntries(subs[..i], t))
    ensures m' == Tally(MetricEntries(subs[..i + 1], t))
  {
    var s := subs[i];
    ghost var before := MetricEntries(subs[..i], t);
    MetricEntriesStep(subs, t, i);
    if s.itemType == t {
      var x := (s.glId, Amount(s));
      TallyAppend(before, x);
      m' := m[x.0 := GetOr(m, x.0, 0) + x.1];
    } else {
      assert before + [] == before;
      m' := m;
    }
  }

  /** The `switch` over `item_type` at src/utils/exportTransformers.ts:675-694, filling
      the four metric maps in one pass; other item types are skipped. */
  method SubmissionMetrics(subs: seq<WaveEntry>)
    returns (displays: map<Id, int>, kartonware: map<Id, int>, paletten: map<Id, int>, schuetten: map<Id, int>)
    ensures displays == Tally(MetricEntries(subs, Display))
    ensures kartonware == Tally(MetricEntries(subs, Kartonware))
    ensures paletten == Tally(MetricEntries(subs, Palette))
    ensures schuetten == Tally(MetricEntries(subs, Schuette))
  {
    displays, kartonware, paletten, schuetten := map[], map[], map[], map[];
    for i := 0 to |subs|
      invariant displays == Tally(MetricEntries(subs[..i], Display))
      invariant kartonware == Tally(MetricEntries(subs[..i], Kartonware))
      invariant paletten == Tally(MetricEntries(subs[..i], Palette))
      invariant schuetten == Tally(MetricEntries(subs[..i], Schuette))
    {
      displays := AddAmount(displays, subs, Display, i);
      kartonware := AddAmount(kartonware, subs, Kartonware, i);
      paletten := AddAmount(paletten, subs, Palette, i);
      schuetten := AddAmount(schuetten, subs, Schuette, i);
    }
    assert subs[..|subs|] == subs;
  }

  /** The per-manager numbers a row shows. */
  datatype Metrics = Metrics(visits: int, displays: int, kartonware: int, paletten: int, schuetten: int)

  /** The numbers of one manager, a missing key reading as 0. */
  function MetricsOf(id: Id, ms: seq<MarketVisits>, subs: seq<WaveEntry>): (r: Metrics)
    ensures r.visits == KeyTotal(VisitEntries(ms), id)
    ensures r.displays == KeyTotal(MetricEntries(subs, Display), id)
    ensures r.kartonware == KeyTotal(MetricEntries(subs, Kartonware), id)
    ensures r.paletten == KeyTotal(MetricEntries(subs, Palette), id)
    ensures r.schuetten == KeyTotal(MetricEntries(subs, Schuette), id)
  {
    TallyLookup(VisitEntries(ms), id);
    TallyLookup(MetricEntries(subs, Display), id);
    TallyLookup(MetricEntries(subs, Kartonware), id);
    TallyLookup(MetricEntries(subs, Palette), id);
    TallyLookup(MetricEntries(subs, Schuette), id);
    Metrics(
      GetOr(Tally(VisitEntries(ms)), id, 0),
      GetOr(Tally(MetricEntries(subs, Display)), id, 0),
      GetOr(Tally(MetricEntries(subs, Kartonware)), id, 0),
      GetOr(Tally(MetricEntries(subs, Palette)), id, 0),
      GetOr(Tally(MetricEntries(subs, Schuette)), id, 0))
  }

  const ManagerColumns: seq<string> := [
    "id", "name", "email", "phone", "address", "city", "postal_code", "is_active", "total_visits",
    "display_count", "kartonware_count", "paletten_value", "schuetten_value", "created_at",
    "profile_picture_url"]

  /** The built row of one manager (src/utils/exportTransformers.ts:697-713). */
  function ManagerFields(gl: ManagerRecord, m: Metrics): (row: Row)
    ensures row.Keys == set c | c in ManagerColumns
  {
    map[
      "id" := Text(gl.id),
      "name" := Nullable(gl.name),
      "email" := Nullable(gl.email),
      "phone" := Text(gl.phone),
      "address" := Text(gl.address),
      "city" := Text(gl.city),
      "postal_code" := Text(gl.postalCode),
      "is_active" := Text(ActiveLabel(gl.isActive)),
      "total_visits" := Num(m.visits),
      "display_count" := Num(m.displays),
      "kartonware_count" := Num(m.kartonware),
      "paletten_value" := Num(m.paletten),
      "schuetten_value" := Num(m.schuetten),
      "created_at" := Nullable(gl.createdAt),
      "profile_picture_url" := Text(gl.profilePictureUrl)]
  }

  /** The inputs of one call: the (filtered, name-ordered) active managers and whether
      that unpaged query failed, and the market and submission tables with the offsets
      at which their paged reads fail. */
  datatype Sources = Sources(
    gls: seq<ManagerRecord>,
    glReadFails: bool,
    markets: seq<MarketVisits>,
    marketFailing: set<nat>,
    submissions: seq<WaveEntry>,
    submissionFailing: set<nat>)

  /** One manager's exported row: the requested manager columns. */
  function ManagerRow(columns: seq<string>, gl: ManagerRecord, ms: seq<MarketVisits>, subs: seq<WaveEntry>): Row
  {
    SelectColumns(columns, ManagerFields(gl, MetricsOf(gl.id, ms, subs)))
  }

  /** What `transformGebietsleiter` returns. Only the manager query's error is
      rethrown; a failing market or submission page only ends that read. */
  function ManagerExport(src: Sources, columns: seq<string>): (r: Result<seq<Row>>)
    ensures r.Failure? <==> src.glReadFails
    ensures r.Success? ==>
              |r.value| == |src.gls| &&
              forall i :: 0 <= i < |src.gls| ==>
                r.value[i].Keys == (set c | c in columns && c in ManagerColumns) &&
                forall c | c in r.value[i] ::
                  r.value[i][c] == ManagerFields(src.gls[i], MetricsOf(src.gls[i].id,
                                     Paging.FetchedUntilError(src.markets, src.marketFailing),
                                     Paging.FetchedUntilError(src.submissions, src.submissionFailing)))[c]
  {
    if src.glReadFails then Failure(DataSourceError(0))
    else
      var ms := Paging.FetchedUntilError(src.markets, src.marketFailing);
      var subs := Paging.FetchedUntilError(src.submissions, src.submissionFailing);
      Success(seq(|src.gls|, i requires 0 <= i < |src.gls| => ManagerRow(columns, src.gls[i], ms, subs)))
  }

  /** src/utils/exportTransformers.ts:597-725. */
  method TransformGebietsleiter(src: Sources, columns: seq<string>) returns (r: Result<seq<Row>>)
    ensures r == ManagerExport(src, columns)
  {
    if src.glReadFails {
      return Failure(DataSourceError(0));
    }
    if |src.gls| == 0 {
      assert ManagerExport(src, columns).value == [];
      return Success([]);
    }
    var ms := Paging.FetchUntilError(src.markets, src.marketFailing);
    var visits := Accumulate(VisitEntries(ms));
    var subs := Paging.FetchUntilError(src.submissions, src.submissionFailing);
    var displays, kartonware, paletten, schuetten := SubmissionMetrics(subs);
    var rows: seq<Row> := [];
    for i := 0 to |src.gls|
      invariant |rows| == i
      invariant forall j :: 0 <= j < i ==> rows[j] == ManagerRow(columns, src.gls[j], ms, subs)
    {
      var id := src.gls[i].id;
      var m := Metrics(GetOr(visits, id, 0), GetOr(displays, id, 0), GetOr(kartonware, id, 0),
                       GetOr(paletten, id, 0), GetOr(schuetten, id, 0));
      assert m == MetricsOf(id, ms, subs);
      rows := rows + [SelectColumns(columns, ManagerFields(src.gls[i], m))];
    }
    ghost var expected := ManagerExport(src, columns).value;
    assert rows == expected;
    return Success(rows);
  }

  /** The managers' ids, in list order. */
  function ManagerIds(gls: seq<ManagerRecord>): (ids: seq<Id>)
    ensures |ids| == |gls|
    ensures forall i :: 0 <= i < |gls| ==> ids[i] == gls[i].id
  {
    seq(|gls|, i requires 0 <= i < |gls| => gls[i].id)
  }

  /** Nothing is lost between the submissions and the rows: when the manager ids are
      distinct and every read submission belongs to one of them, the rows' metric of
      one item type adds up to that type's total over all submissions. */
  lemma {:induction false} MetricsConserved(gls: seq<ManagerRecord>, ms: seq<MarketVisits>,
                                            subs: seq<WaveEntry>, t: ItemType)
    requires Distinct(ManagerIds(gls))
    requires forall j :: 0 <= j < |subs| ==> subs[j].glId in ManagerIds(gls)
    ensures Sum(TotalsAt(MetricEntries(subs, t), ManagerIds(gls)))
            == Total(MetricEntries(subs, t))
  {
    var ids := ManagerIds(gls);
    MetricKeys(subs, t, ids);
    TotalsAtConserve(MetricEntries(subs, t), ids);
  }

  /** The same for the visit counts: with distinct manager ids covering every read
      market, the rows' `total_visits` add up to the visits of all markets. */
  lemma {:induction false} VisitsConserved(gls: seq<ManagerRecord>, ms: seq<MarketVisits>)
    requires Distinct(ManagerIds(gls))
    requires forall j :: 0 <= j < |ms| ==> ms[j].glId in ManagerIds(gls)
    ensures Sum(TotalsAt(VisitEntries(ms), ManagerIds(gls)))
            == Total(VisitEntries(ms))
  {
    TotalsAtConserve(VisitEntries(ms), ManagerIds(gls));
  }

  /** The column that shows one item type's metric. */
  function MetricColumn(t: ItemType): string
  {
    match t
    case Display => "display_count"
    case Kartonware => "kartonware_count"
    case Palette => "paletten_value"
    case _ => "schuetten_value"
  }

  /** The number a cell holds (0 for a cell that holds none). */
  function CellNumber(c: Cell): int
  {
    if c.Num? then c.n else 0
  }

  /** The numbers one column shows over all rows (0 where a row lacks the column). */
  function ColumnNumbers(rows: seq<Row>, col: string): seq<int>
  {
    seq(|rows|, i requires 0 <= i < |rows| => if col in rows[i] then CellNumber(rows[i][col]) else 0)
  }

  /** The metric of one item type among a manager's numbers. */
  function MetricValue(m: Metrics, t: ItemType): int
  {
    match t
    case Display => m.displays
    case Kartonware => m.kartonware
    case Palette => m.paletten
    case _ => m.schuetten
  }

  /** A requested metric column shows that metric. */
  lemma MetricCell(columns: seq<string>, gl: ManagerRecord, m: Metrics, t: ItemType)
    requires t == Display || t == Kartonware || t == Palette || t == Schuette
    requires MetricColumn(t) in columns
    ensures var row := SelectColumns(columns, ManagerFields(gl, m));
            MetricColumn(t) in row && CellNumber(row[MetricColumn(t)]) == MetricValue(m, t)
  {
    var fields := ManagerFields(gl, m);
    match t
    case Display => assert fields["display_count"] == Num(m.displays);
    case Kartonware => assert fields["kartonware_count"] == Num(m.kartonware);
    case Palette => assert fields["paletten_value"] == Num(m.paletten);
    case Schuette => assert fields["schuetten_value"] == Num(m.schuetten);
  }

  /** A manager's metric of one item type is that manager's total of the type. */
  lemma MetricIsTotal(id: Id, ms: seq<MarketVisits>, subs: seq<WaveEntry>, t: ItemType)
    requires t == Display || t == Kartonware || t == Palette || t == Schuette
    ensures MetricValue(MetricsOf(id, ms, subs), t) == KeyTotal(MetricEntries(subs, t), id)
  {
    match t
    case Display =>
    case Kartonware =>
    case Palette =>
    case Schuette =>
  }

  /** The rows of a successful export, one per manager. */
  lemma ExportRows(src: Sources, columns: seq<string>)
    requires ManagerExport(src, columns).Success?
    ensures var rows := ManagerExport(src, columns).value;
            var ms := Paging.FetchedUntilError(src.markets, src.marketFailing);
            var subs := Paging.FetchedUntilError(src.submissions, src.submissionFailing);
            |rows| == |src.gls| && forall i :: 0 <= i < |rows| ==> rows[i] == ManagerRow(columns, src.gls[i], ms, subs)
  {
  }

  /** Nothing read is lost at the level of the export: with distinct manager ids and
      every submission read before the first failing page belonging to a listed
      manager, a metric column adds up over the rows to that item type's total over
      those submissions. */
  lemma ExportMetricConserved(src: Sources, columns: seq<string>, t: ItemType)
    requires t == Display || t == Kartonware || t == Palette || t == Schuette
    requires ManagerExport(src, columns).Success? && MetricColumn(t) in columns
    requires Distinct(ManagerIds(src.gls))
    requires var subs := Paging.FetchedUntilError(src.submissions, src.submissionFailing);
             forall j :: 0 <= j < |subs| ==> subs[j].glId in ManagerIds(src.gls)
    ensures Sum(ColumnNumbers(ManagerExport(src, columns).value, MetricColumn(t)))
            == Total(MetricEntries(Paging.FetchedUntilError(src.submissions, src.submissionFailing), t))
  {
    var ms := Paging.FetchedUntilError(src.markets, src.marketFailing);
    var subs := Paging.FetchedUntilError(src.submissions, src.submissionFailing);
    var ids := ManagerIds(src.gls);
    var rows := ManagerExport(src, columns).value;
    ExportRows(src, columns);
    var col := MetricColumn(t);
    var totals := TotalsAt(MetricEntries(subs, t), ids);
    forall i | 0 <= i < |rows| ensures ColumnNumbers(rows, col)[i] == totals[i] {
      var m := MetricsOf(src.gls[i].id, ms, subs);
      MetricCell(columns, src.gls[i], m, t);
      MetricIsTotal(src.gls[i].id, ms, subs, t);
    }
    assert ColumnNumbers(rows, col) == totals;
    MetricsConserved(src.gls, ms, subs, t);
  }

  /** A requested `total_visits` column shows the visits. */
  lemma VisitsCell(columns: seq<string>, gl: ManagerRecord, m: Metrics)
    requires "total_visits" in columns
    ensures var row := SelectColumns(columns, ManagerFields(gl, m));
            "total_visits" in row && CellNumber(row["total_visits"]) == m.visits
  {
    assert ManagerFields(gl, m)["total_visits"] == Num(m.visits);
  }

  /** The same for `total_visits` and the markets read before the first failing page. */
  lemma ExportVisitsConserved(src: Sources, columns: seq<string>)
    requires ManagerExport(src, columns).Success? && "total_visits" in columns
    requires Distinct(ManagerIds(src.gls))
    requires var ms := Paging.FetchedUntilError(src.markets, src.marketFailing);
             forall j :: 0 <= j < |ms| ==> ms[j].glId in ManagerIds(src.gls)
    ensures Sum(ColumnNumbers(ManagerExport(src, columns).value, "total_visits"))
            == Total(VisitEntries(Paging.FetchedUntilError(src.markets, src.marketFailing)))
  {
    var ms := Paging.FetchedUntilError(src.markets, src.marketFailing);
    var subs := Paging.FetchedUntilError(src.submissions, src.submissionFailing);
    var ids := ManagerIds(src.gls);
    var rows := ManagerExport(src, columns).value;
    ExportRows(src, columns);
    var totals := TotalsAt(VisitEntries(ms), ids);
    forall i | 0 <= i < |rows| ensures ColumnNumbers(rows, "total_visits")[i] == totals[i] {
      VisitsCell(columns, src.gls[i], MetricsOf(src.gls[i].id, ms, subs));
    }
    assert ColumnNumbers(rows, "total_visits") == totals;
    VisitsConserved(src.gls, ms);
  }
}
