# Export transformation engine, modelled in Dafny

This project models the export engine of a field-sales back end
(`src/utils/exportTransformers.ts`). The engine turns database tables into
spreadsheet rows. It covers:

- **Wave submission report** (`transformWellenSubmissions`). Each submitted item is
  resolved to a name, a container and a catalog value. Palette and schuette
  submissions entered in the same minute at the same market for the same container
  are grouped. Groups are emitted as a parent row plus child rows (expanded) or as one
  multiline row with `_productDetails` (compact). Every other submission gets a plain
  row. The requested columns are then kept, plus five metadata fields.
- **Row mappers with fallbacks and label translation** for markets, pre-sale entries
  (`vorverkauf`) and the action log.
- **Per-manager (Gebietsleiter) export.** It adds visit and sales metrics folded from
  two paged reads.
- **Single-wave matrix export.** It computes:
  - colour groups from one counter over paletten, schuetten, displays and kartonware;
  - the item list and the container list;
  - quantity and value matrices per item and market;
  - recovery of orphaned item ids;
  - a matrix of distinct "drops" (minutes) per container and market.
- **Paged read loop** shared by the transformers (pages of 1000 rows).
- **Dataset dispatcher** (`transformDataset`).

## How the model is built

- **Reads.**
  - Every query becomes an input value. A paged table is a sequence plus the set of
    row offsets whose page read fails.
  - `Paging.FetchAll` is the loop that rethrows errors. `Paging.FetchUntilError` is
    the manager export's loop: it never looks at the error, so a failing page just
    ends the read.
  - Lookups whose errors the code ignores (`data || []`) are plain sequences; a
    failed lookup is an empty one.
- **Loops and in-place updates.** These become methods with loop invariants. Each
  method is proved equal to a recursive specification function. The properties are
  proved about those functions:
  - the paged loops, the `grouped` map and the `processedIds` pass;
  - the colour counter and the `items.push` sequence;
  - the matrix accumulation, the orphan set and the container drop sets.
- **Row constructors, the column filter and the dispatcher** are functions.
- **Values.**
  - Money is integer cents.
  - A nullable text or number that the code only reads through `||` is `""` or `0`
    for null.
  - In the market, pre-sale, action-log and manager rows a column copied without a
    fallback is an `Option` (`Nullable`).
  - The submission columns the report copies without a fallback are plain values
    (see "Report columns copied from the submission" below).
  - In the single-wave export every name and the wave's goal type is a plain string.
  - The minute of a submission (`toISOString().slice(0, 16)`) is an opaque field.
- **`new Map(entries)`** is `Common.ToMap`: the last entry with a key wins.

### Which read errors abort an export

Only these reads rethrow their error (`src/utils/exportTransformers.ts`):

- the paged submission read of the report (line 76);
- the paged market read (line 387);
- the paged pre-sale read (line 465);
- the action-log query (line 565);
- the manager query (line 619);
- the wave query: a missing wave fails with "Welle nicht gefunden" (line 779);
- the single wave's paged submission read (line 841).

Every other read ignores its error:

- the lookup queries of the report and of the pre-sale export;
- the manager export's market and submission pages, which just end the read;
- the single wave's catalog, container product, market and orphan queries.

## Model

| member | source | states |
|---|---|---|
| Paging.Fetched | src/utils/exportTransformers.ts:55-84 | the paged read succeeds exactly when no visited page fails, then returns the whole table in order; otherwise it fails at the first failing page offset |
| Paging.FetchAll | src/utils/exportTransformers.ts:55-84 | the `while` loop that appends 1000-row pages and stops after an empty or short page returns exactly `Fetched` |
| Paging.FetchedUntilError | src/utils/exportTransformers.ts:629-642 | when no visited page fails the rows are the whole table; otherwise they are the rows before the first failing page |
| Paging.FetchUntilError | src/utils/exportTransformers.ts:654-667 | the loop that never checks the read error returns exactly `FetchedUntilError` |
| Common.ToMapKeys | src/utils/exportTransformers.ts:143-147 | the keys of `new Map(entries)` are exactly the entries' keys |
| Common.ToMapWitness | src/utils/exportTransformers.ts:143-147 | every key's value comes from an entry with that key, and no later entry has the key |
| Common.ToMapLastWins | src/utils/exportTransformers.ts:153-158 | an entry with no later entry of the same key determines the key's value |
| Common.SelectColumns | src/utils/exportTransformers.ts:423-428 | the filtered row holds exactly the requested columns the built row has, with unchanged values |
| Common.JoinEmpty | src/utils/exportTransformers.ts:505-507 | `join` gives the empty text exactly for an empty list of non-empty parts |
| Grouping.Bucket | src/utils/exportTransformers.ts:492-498 | a bucket holds exactly the elements with its key |
| Grouping.BucketSelects | src/utils/exportTransformers.ts:492-498 | a bucket is the elements with its key taken in input order, each matching element exactly once |
| Grouping.GroupBy | src/utils/exportTransformers.ts:492-498 | the grouping loop creates a key exactly for the non-empty buckets, each mapped to its bucket |
| Totals.Tally | src/utils/exportTransformers.ts:644-648 | the `get(k) \|\| 0` accumulation has a key exactly for the keys that occur, each mapped to the sum of that key's amounts |
| Totals.Accumulate | src/utils/exportTransformers.ts:644-648 | the accumulation loop returns exactly `Tally` |
| Totals.TallyConserves | src/utils/exportTransformers.ts:644-648 | the values of the accumulated map add up to the sum of all amounts |
| Totals.TallyLookup | src/utils/exportTransformers.ts:706-710 | `map.get(id) \|\| 0` is the total of that id's amounts, 0 for an id never seen |
| Totals.TallyAppend | src/utils/exportTransformers.ts:646-647 | one more entry adds its amount to its key only |
| Totals.TotalsAtConserve | src/utils/exportTransformers.ts:696-710 | with distinct ids covering every entry key, the per-id totals add up to the sum of all amounts |
| SubmissionReport.ItemNameMap | src/utils/exportTransformers.ts:143-158 | `itemNameMap` has exactly the ids of the catalog rows read, and no entry that names a container carries a catalog value |
| SubmissionReport.SchuetteProductResolves | src/utils/exportTransformers.ts:156-158 | a schuette product not overwritten later resolves to its name, to its schuette's name or "Unbekannte Schütte", and to no value |
| SubmissionReport.PaletteProductResolves | src/utils/exportTransformers.ts:153-155 | a palette product not overwritten later resolves to its name, to its palette's name or "Unbekannte Palette", and to no value |
| SubmissionReport.Members | src/utils/exportTransformers.ts:161-174 | a group holds exactly the submissions that have its key |
| SubmissionReport.GroupSubmissions | src/utils/exportTransformers.ts:161-174 | the loop that fills `grouped` has a key exactly for the non-empty groups, each mapped to its members in submission order |
| ReportProofs.KeyTextInjective | src/utils/exportTransformers.ts:166-167 | equal group keys have equal minute, market and container |
| ReportProofs.GroupMembersAgree | src/utils/exportTransformers.ts:164-173 | all members of a group are palette or schuette submissions with the same minute, the same market and the same non-empty container |
| ReportProofs.MembersCount | src/utils/exportTransformers.ts:161-174 | with distinct submission ids, a group's ids hold an id once when the submission with that id has the group's key, and never otherwise |
| SubmissionReport.PlainRowOf | src/utils/exportTransformers.ts:309-337 | a plain row is priced at the catalog value when it is non-zero, else at the submission's value; its total is quantity × price; a missing wave, manager, market or item renders as "Unbekannt" or "" |
| SubmissionReport.EmitChildren | src/utils/exportTransformers.ts:225-252 | the child-row loop appends one child row per member and marks every member processed |
| SubmissionReport.EmitGroup | src/utils/exportTransformers.ts:194-307 | a group's rows are appended in expanded or compact form, and all its members are marked processed |
| SubmissionReport.PassStep | src/utils/exportTransformers.ts:180-338 | one iteration keeps "rows so far + rows of the rest of the pass" equal to the report |
| SubmissionReport.BuildRows | src/utils/exportTransformers.ts:161-338 | the two loops (grouping, then the `processedIds` pass) return exactly the specified report rows |
| ReportProofs.ExactlyOnce | src/utils/exportTransformers.ts:178-336 | with distinct submission ids, every submission is represented by exactly one row (a plain, child or compact row) |
| ReportProofs.UnitsCount | src/utils/exportTransformers.ts:180-338 | from any point of the pass, every still-unprocessed submission is covered once and nothing else is covered |
| ReportProofs.GroupTotalIsSum | src/utils/exportTransformers.ts:195 | the `reduce` is the sum of `quantity × (value_per_unit \|\| 0)` over the members |
| ReportProofs.ExpandedGroupRows | src/utils/exportTransformers.ts:197-252 | expanded mode gives one parent row (quantity 1, value per unit = total = sum of the child totals) and then one child row per member, in order, each with its own quantity × value |
| ReportProofs.CompactGroupRow | src/utils/exportTransformers.ts:253-306 | compact mode gives one multiline row (quantity 1, value per unit = total) with one product detail per member, whose totals add up to the row's total |
| ReportProofs.DetailLines | src/utils/exportTransformers.ts:288-303 | a compact row has one product detail per member, carrying the member's product name, quantity, price and quantity × price |
| SubmissionReport.Fields | src/utils/exportTransformers.ts:199-333 | a built row has exactly the 19 report columns |
| SubmissionReport.MetadataWins | src/utils/exportTransformers.ts:349-353 | the metadata is written last: its five keys take their values from the row's kind and group id, and every other key keeps its value |
| SubmissionReport.ExportRow | src/utils/exportTransformers.ts:341-355 | an exported row holds exactly the requested columns the row has, unchanged, plus the five metadata fields with their false/null defaults |
| SubmissionReport.SubmissionsExport | src/utils/exportTransformers.ts:44-356 | the report fails exactly when a visited submission page fails; otherwise it is one exported row per report row |
| SubmissionReport.TransformWellenSubmissions | src/utils/exportTransformers.ts:44-356 | the transformer returns exactly `SubmissionsExport` |
| MarketsExport.MarketFields | src/utils/exportTransformers.ts:399-421 | the built market row has exactly the 20 market columns |
| MarketsExport.MarketsExport | src/utils/exportTransformers.ts:359-434 | the export fails exactly when a visited page fails; otherwise it has one row per market holding exactly the requested market columns with the built values |
| MarketsExport.TransformMarkets | src/utils/exportTransformers.ts:359-434 | the transformer returns exactly `MarketsExport` |
| PreSaleExport.ItemsOf | src/utils/exportTransformers.ts:492-503 | an entry's items are exactly the items that name it |
| PreSaleExport.ItemText | src/utils/exportTransformers.ts:506 | an item's summary text is never empty |
| PreSaleExport.Summary | src/utils/exportTransformers.ts:505-507 | the products summary is empty exactly when the entry has no items |
| PreSaleExport.SummaryFromJson | src/utils/exportTransformers.ts:505-513 | `products_summary` and `products_json` describe the same items in the same order: the summary is the JSON lines, each rendered as "name (quantity× type)", joined by ", " |
| PreSaleExport.StatusLabel | src/utils/exportTransformers.ts:526 | the status reads "Abgeschlossen" when the status is "completed" and "Ausstehend" for every other status |
| PreSaleExport.EntryFields | src/utils/exportTransformers.ts:515-530 | the built entry row has exactly the 14 entry columns |
| PreSaleExport.SummaryEmptyIffNoItems | src/utils/exportTransformers.ts:503-528 | an entry's `products_summary` is empty exactly when no item belongs to it |
| PreSaleExport.PreSaleExport | src/utils/exportTransformers.ts:437-543 | the export fails exactly when a visited page fails; otherwise it has one row per entry holding exactly the requested entry columns, each with the value built from that entry, its manager, its market and its items |
| PreSaleExport.ExportSummaryEmpty | src/utils/exportTransformers.ts:492-528 | in a successful export, an entry's requested `products_summary` is empty exactly when no item read belongs to it |
| PreSaleExport.BuildEntryRow | src/utils/exportTransformers.ts:500-540 | the `map` callback builds exactly the entry's row from the lookup maps |
| PreSaleExport.TransformPreSaleEntries | src/utils/exportTransformers.ts:437-543 | the transformer returns exactly `PreSaleExport` |
| ActionHistoryExport.ActionLabel | src/utils/exportTransformers.ts:571-572 | "Zuweisen" exactly for assign, "Tauschen" exactly for swap, "Entfernen" exactly for anything else |
| ActionHistoryExport.ActionFields | src/utils/exportTransformers.ts:569-582 | the built action row has exactly the 11 action columns |
| ActionHistoryExport.ActionHistoryExport | src/utils/exportTransformers.ts:546-595 | the export fails exactly when the query fails; otherwise it has one row per action holding exactly the requested columns with the built values |
| ManagerExport.MetricKeys | src/utils/exportTransformers.ts:675-694 | every metric entry is booked under a manager id of the submissions |
| ManagerExport.AddAmount | src/utils/exportTransformers.ts:677-692 | one `switch` case adds the submission's amount to its manager's total for that type |
| ManagerExport.SubmissionMetrics | src/utils/exportTransformers.ts:670-694 | the four metric maps are the per-manager totals of display and kartonware quantities and of palette and schuette values |
| ManagerExport.MetricsOf | src/utils/exportTransformers.ts:706-710 | each metric column of a manager is the total of that manager's amounts, 0 when there are none |
| ManagerExport.ManagerFields | src/utils/exportTransformers.ts:697-713 | the built manager row has exactly the 15 manager columns |
| ManagerExport.ManagerExport | src/utils/exportTransformers.ts:598-726 | the export fails exactly when the manager query fails; otherwise it has one row per manager holding exactly the requested columns, valued from the markets and submissions read up to the first failing page (lines 629-667) |
| ManagerExport.TransformGebietsleiter | src/utils/exportTransformers.ts:598-726 | the transformer returns exactly `ManagerExport` |
| ManagerExport.MetricsConserved | src/utils/exportTransformers.ts:675-710 | with distinct manager ids covering every submission, the managers' metric columns add up to the whole metric total |
| ManagerExport.VisitsConserved | src/utils/exportTransformers.ts:644-706 | with distinct manager ids covering every market, the managers' visit totals add up to all visits |
| ManagerExport.ExportMetricConserved | src/utils/exportTransformers.ts:629-713 | in a successful export with distinct manager ids covering every submission read, a requested metric column adds up over the rows to that item type's total over the submissions read |
| ManagerExport.ExportVisitsConserved | src/utils/exportTransformers.ts:629-713 | in a successful export with distinct manager ids covering every market read, the requested `total_visits` column adds up over the rows to all visits of the markets read |
| WaveItems.NumberFrom | src/utils/exportTransformers.ts:856-859 | one `forEach` gives each id the next counter value and advances the counter by the number of ids |
| WaveItems.AssignColors | src/utils/exportTransformers.ts:853-859 | the colour map is the counter walked over paletten, schuetten, displays and kartonware |
| WaveItems.ColorsInRange | src/utils/exportTransformers.ts:853-859 | every colour is one of 0 .. n-1 |
| WaveItems.ColorsAreIndices | src/utils/exportTransformers.ts:853-859 | with distinct ids, exactly the walked ids have a colour, the i-th walked id having colour i |
| WaveItems.CategoryColors | src/utils/exportTransformers.ts:853-859 | with distinct ids, paletten take 0.., then schuetten, displays and kartonware, each in catalog order |
| WaveItems.ContainerItemsParents | src/utils/exportTransformers.ts:865-898 | every product item names one of the containers as its parent, carries that container's colour and is one of its products |
| WaveItems.ChildItemsOfContainer | src/utils/exportTransformers.ts:865-898 | the items built for one container name it as their parent, carry its colour and copy one of its products |
| WaveItems.ContainerItemsComplete | src/utils/exportTransformers.ts:865-898 | every product of a listed container has an item |
| WaveItems.PushContainerItems | src/utils/exportTransformers.ts:865-898 | the nested `forEach` appends exactly the containers' product items |
| WaveItems.PushStandaloneItems | src/utils/exportTransformers.ts:901-943 | the `forEach` appends exactly the standalone items |
| WaveItems.BuildCatalogItems | src/utils/exportTransformers.ts:862-943 | the push sequence builds exactly the catalog items in category order |
| WaveItems.StandaloneColors | src/utils/exportTransformers.ts:901-943 | with distinct ids the catalog items end with one item per display, coloured after the containers, one per kartonware, coloured after the displays, and one per einzelprodukt with colour -1, each in catalog order |
| WaveItems.ParentItemColors | src/utils/exportTransformers.ts:945-953 | with distinct ids the container list (`ParentItems`: the paletten, then the schuetten) carries the colours 0, 1, 2, … in order |
| WaveItems.ContainerProductColors | src/utils/exportTransformers.ts:865-898 | with distinct ids a palette product's item has its palette's index, a schuette product's item its schuette's |
| WaveMatrix.MatrixKeys | src/utils/exportTransformers.ts:985-990 | the matrix has a row exactly for the items that occur |
| WaveMatrix.MatrixRow | src/utils/exportTransformers.ts:985-990 | an item's row is the per-market total of that item's amounts |
| WaveMatrix.QuantityConserved | src/utils/exportTransformers.ts:973-991 | the quantity matrix has a row exactly for the submitted items, and each row adds up to the item's submitted quantity |
| WaveMatrix.ValueConserved | src/utils/exportTransformers.ts:973-991 | the value matrix has a row exactly for the submitted items, and each row adds up to the item's Σ quantity × unit price (`UnitPrice`: the catalog price for display, kartonware and einzelprodukt; a positive submission value, else the catalog price, for palette and schuette; 0 otherwise) |
| WaveMatrix.AddToCell | src/utils/exportTransformers.ts:987-990 | one cell update adds to that item and market only |
| WaveMatrix.BuildMatrices | src/utils/exportTransformers.ts:973-991 | the `forEach` builds exactly the quantity and value matrices |
| WaveOrphans.Orphans | src/utils/exportTransformers.ts:994-998 | the orphans are distinct, and exactly the submitted ids without an item |
| WaveOrphans.CollectOrphans | src/utils/exportTransformers.ts:994-998 | the loop collects exactly the orphans, in first-submission order |
| WaveOrphans.Placeholder | src/utils/exportTransformers.ts:1017 | the placeholder name is never empty |
| WaveOrphans.OrphanItem | src/utils/exportTransformers.ts:1014-1027 | an orphan becomes an einzelprodukt without parent, with colour -1; it takes the recovered name or the placeholder, and the recovered price or 0 |
| WaveOrphans.PushOrphanItems | src/utils/exportTransformers.ts:1000-1031 | one item per orphan is appended, in order |
| WaveOrphans.OrphansComplete | src/utils/exportTransformers.ts:994-1031 | after recovery every submitted item id has an item; the recovered ids are distinct and were missing before |
| WaveOrphans.OrphansFresh | src/utils/exportTransformers.ts:994-1031 | recovery keeps the earlier items and adds ids distinct from each other and from every earlier item |
| WaveDrops.ParentOf | src/utils/exportTransformers.ts:1036-1041 | a drop counts for a container only for a palette or schuette submission whose product is linked to that non-empty container id |
| WaveDrops.DropsPresent | src/utils/exportTransformers.ts:1035-1050 | `containerCounts` has a set for a container and market exactly when the container's products were submitted there |
| WaveDrops.DropsCell | src/utils/exportTransformers.ts:1035-1050 | a set in `containerCounts` holds the keys of the minutes at which the container's products were submitted at the market |
| WaveDrops.DropsAt | src/utils/exportTransformers.ts:1035-1050 | `containerCounts` has a set for a container and market exactly when the container's products were submitted there; the set is the keys of the minutes at which that happened |
| WaveDrops.DropKeyInjective | src/utils/exportTransformers.ts:1043-1044 | for one container, equal group keys have equal minutes |
| WaveDrops.TaggedSize | src/utils/exportTransformers.ts:1043-1049 | there are as many group keys as minutes |
| WaveDrops.ParentMatrix | src/utils/exportTransformers.ts:1034 | the drop matrix is empty without palette and schuette products |
| WaveDrops.DropCounts | src/utils/exportTransformers.ts:1034-1057 | with container products, a cell exists exactly when the container's products were submitted at the market, and it counts the distinct minutes |
| WaveDrops.AddDropKey | src/utils/exportTransformers.ts:1046-1049 | one update adds the key to that container and market only |
| WaveDrops.CountDrops | src/utils/exportTransformers.ts:1034-1057 | the loop and the copy-out build exactly the drop matrix |
| SingleWave.SingleWaveExport | src/utils/exportTransformers.ts:768-1070 | a missing wave fails with NotFound; otherwise the export fails exactly when a visited submission page fails, and carries the wave's name and goal type |
| SingleWave.TransformSingleWaveExport | src/utils/exportTransformers.ts:768-1070 | the transformer returns exactly `SingleWaveExport` |
| SingleWave.ExportAccountsForSubmissions | src/utils/exportTransformers.ts:973-1031 | every submitted item id has an item; the matrices have a row exactly for the submitted items; each quantity row adds up to the submitted quantity |
| SingleWave.ExportParentColors | src/utils/exportTransformers.ts:945-953 | with distinct ids the container list of the export carries the colours 0, 1, 2, … |
| SingleWave.ExportOrphansFresh | src/utils/exportTransformers.ts:994-1031 | the export's items are the catalog items followed by distinct orphan ids that no catalog item has |
| SingleWave.ExportDrops | src/utils/exportTransformers.ts:1033-1058 | the export's drop matrix counts distinct minutes per container and market, and is empty without container products |
| Dispatch.ParseDataset | src/utils/exportTransformers.ts:1078-1091 | an identifier is recognised exactly when it is one of the five dataset names, and then names that dataset |
| Dispatch.ParseDatasetExact | src/utils/exportTransformers.ts:1078-1091 | a name is parsed to a dataset exactly when that dataset bears the name |
| Dispatch.DatasetNameRoundTrip | src/utils/exportTransformers.ts:1078-1091 | parsing a dataset's name gives back that dataset |
| Dispatch.ExportErrors | src/utils/exportTransformers.ts:1078-1089 | a known dataset's transformer fails only with a data-source error, never with "Unknown dataset" |
| Dispatch.TransformDataset | src/utils/exportTransformers.ts:1073-1093 | exactly the unknown identifiers fail with "Unknown dataset"; a known one gives its transformer's result |

## Left out

- **I/O, concurrency and query options.** Database queries, `Promise.all` and `await`
  are inputs here. So are the query filters (date ranges, `is_active`, wave ids, id
  lists) and the `order` clauses. Every transformer receives its tables already
  filtered and ordered.
- **Dates.** Date parsing (`new Date(...).toISOString().slice(0, 16)`) and the
  `T23:59:59` filter suffix are left out; the minute of a submission is an opaque
  field.
- **Formatting.**
  - `toFixed(2)` and the exact text of the compact multiline `item_name`: the cell
    holds the structured product lines and the total.
  - `JSON.stringify` in `products_json`: the cell holds the structured list.
  - JavaScript floating-point arithmetic: money is integer cents.
- **Logging and unused values.** `console.log` diagnostics, and `PASTEL_COLORS`,
  which is never used.
- **Other files.** src/routes/*, src/index.ts, src/middleware/auth.ts, src/config/*,
  src/utils/registerUser.ts, src/utils/hashPassword.ts and src/utils/generateHash.ts
  are HTTP, authentication, configuration and script code and are not part of this
  model.
- **Null versus empty.** The distinction between `null` and `""` or `0` is not kept
  where the code reads a value through `||`. Both behave alike there.
- **Key order.** The iteration order of JavaScript objects and Maps (row keys, matrix
  keys) is not modelled; rows and matrices are Dafny maps.
- **The orphan query's id filter.** The by-id queries for orphaned items are taken
  as returning rows. Their `in('id', orphanIds)` filter is not applied: a row for
  another id is never looked up, so it does not change the result.
- **Report columns copied from the submission.** The report rows copy `created_at`
  (src/utils/exportTransformers.ts:201, 229, 269, 289, 316), `market_id` (210, 278,
  325), `item_type` (211, 279, 326), `quantity` (242, 300, 329) and the submission id
  (228, 315) with no fallback, so a null there stays null in the source's row. The
  model holds these submission fields as plain text and numbers, so a null one
  reads as `""` or `0`.
- **Null names in the single-wave export.** Item, container and market names and the
  wave's name and goal type (src/utils/exportTransformers.ts:827, 870-952,
  1061-1062) are copied as they are, so a null name stays null in the export. The
  model holds these as plain strings and cannot express a null one; read a null name
  as `""`.
- **Unread fields.** The `isParent` field of a single-wave item is always false and
  is not kept. The catalog `size` and `*_order` columns are not read by the engine.
- ReportProofs.ExactlyOnce: assumes distinct submission ids, as the table's primary
  key guarantees. With a repeated id, `processedIds` would drop the later rows.
- ReportProofs.KeyTextInjective: proved only for minute keys and market ids without
  '|'. A '|' inside them could make two different (minute, market, container)
  triples produce the same key text.
- WaveItems.CategoryColors: assumes distinct ids across paletten, schuetten, displays
  and kartonware. With a repeated id the later colour overwrites the earlier one,
  which `Colors` models but the index statement does not cover.
- ManagerExport.MetricEntries: its own contract states only a length bound. Its
  content is stated through `SubmissionMetrics`, `MetricsOf` and `MetricsConserved`.
