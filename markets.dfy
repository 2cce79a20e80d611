/** The markets dataset (`transformMarkets`): every market read page by page, one
    row each with text fallbacks and the activity label, reduced to the requested
    columns. */
module MarketsExport {
  import opened Common
  import Paging

  /** A row of `markets`. `internalId`, `name` and `createdAt` are copied without a
      fallback, so a null stays null. */
  datatype MarketRecord = MarketRecord(
    id: Id,
    internalId: Option<string>,
    name: Option<string>,
    chain: string,
    address: string,
    city: string,
    postalCode: string,
    glName: string,
    glEmail: string,
    glId: string,
    frequency: int,
    currentVisits: int,
    lastVisitDate: string,
    isActive: bool,
    phone: string,
    email: string,
    channel: string,
    banner: string,
    subgroup: string,
    createdAt: Option<string>)

  const MarketColumns: seq<string> := [
    "id", "internal_id", "name", "chain", "address", "city", "postal_code", "gebietsleiter_name",
    "gebietsleiter_email", "gebietsleiter_id", "frequency", "current_visits", "last_visit_date",
    "is_active", "phone", "email", "channel", "banner", "subgroup", "created_at"]

  /** The built row of one market (src/utils/exportTransformers.ts:399-420). */
  function MarketFields(m: MarketRecord): (row: Row)
    ensures row.Keys == set c | c in MarketColumns
  {
    map[
      "id" := Text(m.id),
      "internal_id" := Nullable(m.internalId),
      "name" := Nullable(m.name),
      "chain" := Text(m.chain),
      "address" := Text(m.address),
      "city" := Text(m.city),
      "postal_code" := Text(m.postalCode),
      "gebietsleiter_name" := Text(m.glName),
      "gebietsleiter_email" := Text(m.glEmail),
      "gebietsleiter_id" := Text(m.glId),
      "frequency" := Num(m.frequency),
      "current_visits" := Num(m.currentVisits),
      "last_visit_date" := Text(m.lastVisitDate),
      "is_active" := Text(ActiveLabel(m.isActive)),
      "phone" := Text(m.phone),
      "email" := Text(m.email),
      "channel" := Text(m.channel),
      "banner" := Text(m.banner),
      "subgroup" := Text(m.subgroup),
      "created_at" := Nullable(m.createdAt)]
  }

  /** What `transformMarkets` returns for the (filtered, name-ordered) market table:
      a read error when a visited page fails, otherwise one row per market, in table
      order, holding exactly the requested market columns with the built values. */
  function MarketsExport(table: seq<MarketRecord>, failing: set<nat>, columns: seq<string>): (r: Result<seq<Row>>)
    ensures r.Success? <==> forall o | o in failing :: !Paging.Visited(|table|, o)
    ensures r.Failure? ==> r.error.DataSourceError? && Paging.FirstFailing(|table|, failing, r.error.offset)
    ensures r.Success? ==>
              |r.value| == |table| &&
              forall i :: 0 <= i < |table| ==>
                r.value[i].Keys == (set c | c in columns && c in MarketColumns) &&
                forall c | c in r.value[i] :: r.value[i][c] == MarketFields(table[i])[c]
  {
    match Paging.Fetched(table, failing)
    case Failure(e) => Failure(e)
    case Success(ms) => Success(seq(|ms|, i requires 0 <= i < |ms| => SelectColumns(columns, MarketFields(ms[i]))))
  }

  /** src/utils/exportTransformers.ts:359-431. */
  method TransformMarkets(table: seq<MarketRecord>, failing: set<nat>, columns: seq<string>)
    returns (r: Result<seq<Row>>)
    ensures r == MarketsExport(table, failing, columns)
  {
    var fetched := Paging.FetchAll(table, failing);
    if fetched.Failure? {
      return Failure(fetched.error);
    }
    var ms := fetched.value;
    if |ms| == 0 {
      assert seq(|ms|, i requires 0 <= i < |ms| => SelectColumns(columns, MarketFields(ms[i]))) == [];
      return Success([]);
    }
    return Success(seq(|ms|, i requires 0 <= i < |ms| => SelectColumns(columns, MarketFields(ms[i]))));
  }
}
