/** `transformDataset`: route a dataset identifier to its transformer; an unknown
    identifier fails with "Unknown dataset". */
module Dispatch {
  import opened Common
  import Records
  import SubmissionReport
  import MarketsExport
  import PreSaleExport
  import ActionHistoryExport
  import ManagerExport

  /** The five dataset identifiers the engine knows. */
  datatype Dataset = WellenSubmissions | Markets | VorverkaufEntries | ActionHistory | Gebietsleiter

  function DatasetName(d: Dataset): string
  {
    match d
    case WellenSubmissions => "wellen_submissions"
    case Markets => "markets"
    case VorverkaufEntries => "vorverkauf_entries"
    case ActionHistory => "action_history"
    case Gebietsleiter => "gebietsleiter"
  }

  /** The `switch (datasetId)`: a name is recognised exactly when it is the name of a
      dataset, and then names that dataset. */
  function ParseDataset(name: string): (d: Option<Dataset>)
    ensures d.Some? ==> DatasetName(d.value) == name
    ensures d.None? ==> forall x: Dataset :: DatasetName(x) != name
  {
    if name == "wellen_submissions" then Some(WellenSubmissions)
    else if name == "markets" then Some(Markets)
    else if name == "vorverkauf_entries" then Some(VorverkaufEntries)
    else if name == "action_history" then Some(ActionHistory)
    else if name == "gebietsleiter" then Some(Gebietsleiter)
    else None
  }

  /** Names and datasets correspond one to one. */
  lemma DatasetNameRoundTrip(d: Dataset)
    ensures ParseDataset(DatasetName(d)) == Some(d)
  {
    match d
    case WellenSubmissions =>
    case Markets =>
    case VorverkaufEntries =>
    case ActionHistory =>
    case Gebietsleiter =>
  }

  /** A name is parsed to exactly the datasets that bear it. */
  lemma ParseDatasetExact(name: string)
    ensures forall d: Dataset :: DatasetName(d) == name <==> ParseDataset(name) == Some(d)
  {
    forall d: Dataset ensures DatasetName(d) == name <==> ParseDataset(name) == Some(d) {
      DatasetNameRoundTrip(d);
    }
  }

  /** What each transformer reads, and the options (`columns`,
      `expandPaletteProducts`, default false) of the call. */
  datatype DataSources = DataSources(
    submissions: seq<Records.Submission>,
    submissionFailing: set<nat>,
    submissionRelated: SubmissionReport.Related,
    markets: seq<MarketsExport.MarketRecord>,
    marketFailing: set<nat>,
    entries: seq<PreSaleExport.PreSaleEntry>,
    entryFailing: set<nat>,
    entryRelated: PreSaleExport.Related,
    actions: seq<ActionHistoryExport.ActionRecord>,
    actionReadFails: bool,
    managers: ManagerExport.Sources)

  datatype Options = Options(columns: seq<string>, expandPaletteProducts: bool)

  /** The rows of a known dataset. */
  function Export(d: Dataset, src: DataSources, opts: Options): Result<seq<Row>>
  {
    match d
    case WellenSubmissions =>
      SubmissionReport.SubmissionsExport(src.submissions, src.submissionFailing, src.submissionRelated,
                                         opts.columns, opts.expandPaletteProducts)
    case Markets => MarketsExport.MarketsExport(src.markets, src.marketFailing, opts.columns)
    case VorverkaufEntries => PreSaleExport.PreSaleExport(src.entries, src.entryFailing, src.entryRelated, opts.columns)
    case ActionHistory => ActionHistoryExport.ActionHistoryExport(src.actions, src.actionReadFails, opts.columns)
    case Gebietsleiter => ManagerExport.ManagerExport(src.managers, opts.columns)
  }

  /** A transformer fails only with a data-source error, never with "Unknown dataset". */
  lemma ExportErrors(d: Dataset, src: DataSources, opts: Options)
    ensures Export(d, src, opts).Failure? ==> Export(d, src, opts).error.DataSourceError?
  {
    match d
    case WellenSubmissions =>
    case Markets =>
    case VorverkaufEntries =>
    case ActionHistory =>
    case Gebietsleiter =>
  }

  /** src/utils/exportTransformers.ts:1073-1093: exactly the unknown identifiers fail
      with "Unknown dataset", and a known identifier gives its transformer's result. */
  function TransformDataset(datasetId: string, src: DataSources, opts: Options): (r: Result<seq<Row>>)
    ensures r == Failure(UnknownDataset(datasetId)) <==> forall d: Dataset :: DatasetName(d) != datasetId
    ensures forall d: Dataset | DatasetName(d) == datasetId :: r == Export(d, src, opts)
  {
    match ParseDataset(datasetId)
    case None => Failure(UnknownDataset(datasetId))
    case Some(d) =>
      ParseDatasetExact(datasetId);
      ExportErrors(d, src, opts);
      Export(d, src, opts)
  }
}
