/** The action-history dataset (`transformActionHistory`): the assignment log read in
    one query, one row per action with the action type translated to German and text
    fallbacks, reduced to the requested columns. */
module ActionHistoryExport {
  import opened Common

  /** A row of `action_history`. `timestamp`, `marketChain`, `marketAddress` and
      `targetGl` are copied without a fallback; the other text columns fall back to "". */
  datatype ActionRecord = ActionRecord(
    timestamp: Option<string>,
    actionType: string,
    marketId: string,
    marketChain: Option<string>,
    marketAddress: Option<string>,
    marketCity: string,
    marketPostalCode: string,
    targetGl: Option<string>,
    previousGl: string,
    performedBy: string,
    notes: string)

  /** The German label of an action type: only "assign" and "swap" are recognised,
      every other type reads as a removal. */
  function ActionLabel(actionType: string): (text: string)
    ensures text == "Zuweisen" <==> actionType == "assign"
    ensures text == "Tauschen" <==> actionType == "swap"
    ensures text == "Entfernen" <==> actionType != "assign" && actionType != "swap"
  {
    if actionType == "assign" then "Zuweisen"
    else if actionType == "swap" then "Tauschen"
    else "Entfernen"
  }

  const ActionColumns: seq<string> := [
    "timestamp", "action_type", "market_id", "market_chain", "market_address", "market_city",
    "market_postal_code", "target_gl", "previous_gl", "performed_by", "notes"]

  /** The built row of one action (src/utils/exportTransformers.ts:569-581). */
  function ActionFields(a: ActionRecord): (row: Row)
    ensures row.Keys == set c | c in ActionColumns
  {
    map[
      "timestamp" := Nullable(a.timestamp),
      "action_type" := Text(ActionLabel(a.actionType)),
      "market_id" := Text(a.marketId),
      "market_chain" := Nullable(a.marketChain),
      "market_address" := Nullable(a.marketAddress),
      "market_city" := Text(a.marketCity),
      "market_postal_code" := Text(a.marketPostalCode),
      "target_gl" := Nullable(a.targetGl),
      "previous_gl" := Text(a.previousGl),
      "performed_by" := Text(a.performedBy),
      "notes" := Text(a.notes)]
  }

  /** What `transformActionHistory` returns for the (filtered, newest-first) action log.
      The log is read in a single unpaged query; `readFails` says that query failed. */
  function ActionHistoryExport(actions: seq<ActionRecord>, readFails: bool, columns: seq<string>)
    : (r: Result<seq<Row>>)
    ensures r.Failure? <==> readFails
    ensures r.Success? ==>
              |r.value| == |actions| &&
              forall i :: 0 <= i < |actions| ==>
                r.value[i].Keys == (set c | c in columns && c in ActionColumns) &&
                forall c | c in r.value[i] :: r.value[i][c] == ActionFields(actions[i])[c]
  {
    if readFails then Failure(DataSourceError(0))
    else Success(seq(|actions|, i requires 0 <= i < |actions| => SelectColumns(columns, ActionFields(actions[i]))))
  }
}
