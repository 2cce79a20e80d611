/** The pre-sale dataset (`transformVorverkaufEntries`): every pre-sale entry read
    page by page, with its manager and market looked up and its items gathered per
    entry into a readable summary and a JSON list, reduced to the requested columns. */
module PreSaleExport {
  import opened Common
  import opened Records
  import opened Grouping
  import Paging

  /** A row of `vorverkauf_entries`. `createdAt` and `reason` are copied without a
      fallback. */
  datatype PreSaleEntry = PreSaleEntry(
    id: Id,
    createdAt: Option<string>,
    glId: Id,
    marketId: Id,
    reason: Option<string>,
    status: string,
    notes: string)

  /** A row of `vorverkauf_items` with its product's name ("" when the product is
      missing). */
  datatype PreSaleItem = PreSaleItem(entryId: Id, productName: string, quantity: int, itemType: string)

  /** What the manager, market and item queries returned. */
  datatype Related = Related(gls: seq<Gebietsleiter>, markets: seq<Market>, items: seq<PreSaleItem>)

  function EntryKey(): PreSaleItem -> Option<Id>
  {
    (it: PreSaleItem) => Some(it.entryId)
  }

  /** The items of one entry, in the order the item query returned them. */
  function ItemsOf(items: seq<PreSaleItem>, entryId: Id): (its: seq<PreSaleItem>)
    ensures forall it | it in its :: it in items && it.entryId == entryId
    ensures forall i | 0 <= i < |items| && items[i].entryId == entryId :: items[i] in its
  {
    Bucket(items, EntryKey(), entryId)
  }

  function TypeLabel(itemType: string): string
  {
    if itemType == "replace" then "Ersatz" else "Entnahme"
  }

  /** `<name> (<quantity>× <Ersatz|Entnahme>)`. */
  function ItemText(it: PreSaleItem): (text: string)
    ensures text != ""
  {
    OrText(it.productName, Unknown) + " (" + DecimalText(it.quantity) + "× " + TypeLabel(it.itemType) + ")"
  }

  /** The `products_summary` column: the item texts joined with ", ". An entry without
      items has an empty summary. */
  function Summary(items: seq<PreSaleItem>): (text: string)
    ensures text == "" <==> items == []
  {
    var parts := seq(|items|, i requires 0 <= i < |items| => ItemText(items[i]));
    JoinEmpty(parts, ", ");
    Join(parts, ", ")
  }

  /** The `products_json` column as the list it serialises: one line per item, in
      order, with the name fallback, the quantity and the raw item type. */
  function JsonLines(items: seq<PreSaleItem>): (lines: seq<PreSaleLine>)
    ensures |lines| == |items|
    ensures forall i :: 0 <= i < |items| ==>
              lines[i] == PreSaleLine(OrText(items[i].productName, Unknown), items[i].quantity, items[i].itemType)
  {
    seq(|items|, i requires 0 <= i < |items| =>
      PreSaleLine(OrText(items[i].productName, Unknown), items[i].quantity, items[i].itemType))
  }

  /** The summary text of one serialised line. */
  function LineText(l: PreSaleLine): string
  {
    l.name + " (" + DecimalText(l.quantity) + "× " + TypeLabel(l.itemType) + ")"
  }

  /** `products_summary` and `products_json` describe the same items in the same
      order: the summary is the JSON list's lines rendered as text and joined. */
  lemma SummaryFromJson(items: seq<PreSaleItem>)
    ensures var lines := JsonLines(items);
            |lines| == |items| &&
            Summary(items) == Join(seq(|lines|, i requires 0 <= i < |lines| => LineText(lines[i])), ", ")
  {
    var lines := JsonLines(items);
    var parts := seq(|items|, i requires 0 <= i < |items| => ItemText(items[i]));
    assert parts == seq(|lines|, i requires 0 <= i < |lines| => LineText(lines[i]));
  }

  /** "Abgeschlossen" for a completed entry, "Ausstehend" for every other status. */
  function StatusLabel(status: string): (text: string)
    ensures status == "completed" ==> text == "Abgeschlossen"
    ensures status != "completed" ==> text == "Ausstehend"
  {
    if status == "completed" then "Abgeschlossen" else "Ausstehend"
  }

  const EntryColumns: seq<string> := [
    "id", "created_at", "gl_name", "gl_email", "market_name", "market_chain", "market_address",
    "market_postal_code", "market_city", "reason", "status", "notes", "products_summary", "products_json"]

  /** The built row of one entry (src/utils/exportTransformers.ts:500-530). */
  function EntryFields(e: PreSaleEntry, gls: map<Id, Gebietsleiter>, markets: map<Id, Market>,
                       items: seq<PreSaleItem>): (row: Row)
    ensures row.Keys == set c | c in EntryColumns
  {
    var gl := GetOr(gls, e.glId, Gebietsleiter("", "", ""));
    var m := GetOr(markets, e.marketId, Market("", "", "", "", "", ""));
    map[
      "id" := Text(e.id),
      "created_at" := Nullable(e.createdAt),
      "gl_name" := Text(OrText(gl.name, Unknown)),
      "gl_email" := Text(gl.email),
      "market_name" := Text(OrText(m.name, Unknown)),
      "market_chain" := Text(m.chain),
      "market_address" := Text(m.address),
      "market_postal_code" := Text(m.postalCode),
      "market_city" := Text(m.city),
      "reason" := Nullable(e.reason),
      "status" := Text(StatusLabel(e.status)),
      "notes" := Text(e.notes),
      "products_summary" := Text(Summary(items)),
      "products_json" := PreSaleJson(JsonLines(items))]
  }

  function GlsById(gs: seq<Gebietsleiter>): map<Id, Gebietsleiter>
  {
    ToMap(seq(|gs|, i requires 0 <= i < |gs| => (gs[i].id, gs[i])))
  }

  function MarketsById(ms: seq<Market>): map<Id, Market>
  {
    ToMap(seq(|ms|, i requires 0 <= i < |ms| => (ms[i].id, ms[i])))
  }

  function EntryRow(columns: seq<string>, e: PreSaleEntry, rel: Related): Row
  {
    SelectColumns(columns, EntryFields(e, GlsById(rel.gls), MarketsById(rel.markets), ItemsOf(rel.items, e.id)))
  }

  /** What `transformVorverkaufEntries` returns for the (filtered, ordered) entry table. */
  function PreSaleExport(table: seq<PreSaleEntry>, failing: set<nat>, rel: Related, columns: seq<string>)
    : (r: Result<seq<Row>>)
    ensures r.Success? <==> forall o | o in failing :: !Paging.Visited(|table|, o)
    ensures r.Failure? ==> r.error.DataSourceError? && Paging.FirstFailing(|table|, failing, r.error.offset)
    ensures r.Success? ==>
              |r.value| == |table| &&
              forall i :: 0 <= i < |table| ==>
                r.value[i].Keys == (set c | c in columns && c in EntryColumns) &&
                forall c | c in r.value[i] ::
                  r.value[i][c] == EntryFields(table[i], GlsById(rel.gls), MarketsById(rel.markets), ItemsOf(rel.items, table[i].id))[c]
  {
    match Paging.Fetched(table, failing)
    case Failure(e) => Failure(e)
    case Success(es) => Success(seq(|es|, i requires 0 <= i < |es| => EntryRow(columns, es[i], rel)))
  }

  /** The body of the `entries.map` callback: look the entry's manager, market and
      items up in the Maps built beforehand. */
  method BuildEntryRow(columns: seq<string>, e: PreSaleEntry, rel: Related, glMap: map<Id, Gebietsleiter>,
                       marketMap: map<Id, Market>, itemsByEntry: map<Id, seq<PreSaleItem>>)
    returns (row: Row)
    requires glMap == GlsById(rel.gls) && marketMap == MarketsById(rel.markets)
    requires forall k :: k in itemsByEntry <==> Bucket(rel.items, EntryKey(), k) != []
    requires forall k | k in itemsByEntry :: itemsByEntry[k] == Bucket(rel.items, EntryKey(), k)
    ensures row == EntryRow(columns, e, rel)
  {
    var items := if e.id in itemsByEntry then itemsByEntry[e.id] else [];
    assert items == ItemsOf(rel.items, e.id);
    row := SelectColumns(columns, EntryFields(e, glMap, marketMap, items));
  }

  /** src/utils/exportTransformers.ts:437-543: read the entries, gather the items per
      entry in a Map, then build one row per entry. */
  method TransformPreSaleEntries(table: seq<PreSaleEntry>, failing: set<nat>, rel: Related, columns: seq<string>)
    returns (r: Result<seq<Row>>)
    ensures r == PreSaleExport(table, failing, rel, columns)
  {
    var fetched := Paging.FetchAll(table, failing);
    if fetched.Failure? {
      return Failure(fetched.error);
    }
    var es := fetched.value;
    if |es| == 0 {
      assert seq(|es|, i requires 0 <= i < |es| => EntryRow(columns, es[i], rel)) == [];
      return Success([]);
    }
    var glMap := GlsById(rel.gls);
    var marketMap := MarketsById(rel.markets);
    var itemsByEntry := GroupBy(rel.items, EntryKey());
    var rows: seq<Row> := [];
    for i := 0 to |es|
      invariant |rows| == i && forall j :: 0 <= j < i ==> rows[j] == EntryRow(columns, es[j], rel)
    {
      var row := BuildEntryRow(columns, es[i], rel, glMap, marketMap, itemsByEntry);
      rows := rows + [row];
    }
    assert rows == seq(|es|, i requires 0 <= i < |es| => EntryRow(columns, es[i], rel));
    return Success(rows);
  }

  /** An entry's `products_summary` is empty exactly when the item query returned no
      item for that entry, and its `products_json` list has one line per such item. */
  lemma {:induction false} SummaryEmptyIffNoItems(e: PreSaleEntry, rel: Related)
    ensures var row := EntryFields(e, GlsById(rel.gls), MarketsById(rel.markets), ItemsOf(rel.items, e.id));
            row["products_summary"] == Text("") <==> forall it | it in rel.items :: it.entryId != e.id
  {
    var its := ItemsOf(rel.items, e.id);
    if its != [] {
      assert its[0] in its;
    } else {
      forall it | it in rel.items ensures it.entryId != e.id {
        var i :| 0 <= i < |rel.items| && rel.items[i] == it;
      }
    }
  }

  /** In a successful export, a row that shows `products_summary` shows an empty
      summary exactly when no item of the item query belongs to the row's entry. */
  lemma ExportSummaryEmpty(table: seq<PreSaleEntry>, failing: set<nat>, rel: Related, columns: seq<string>, i: nat)
    requires PreSaleExport(table, failing, rel, columns).Success?
    requires i < |table| && "products_summary" in columns
    ensures var row := PreSaleExport(table, failing, rel, columns).value[i];
            "products_summary" in row &&
            (row["products_summary"] == Text("") <==> forall it | it in rel.items :: it.entryId != table[i].id)
  {
    SummaryEmptyIffNoItems(table[i], rel);
    assert "products_summary" in EntryColumns;
  }
}
