/** `ClickHouseClient`: the connection to the trace warehouse and its six
    queries. The warehouse is a value: the trace table under its full name,
    whether the server answers, and which statements it rejects. */
module ClickHouse {
  import opened Outcomes
  import opened Ordering
  import opened Config
  import opened Telemetry
  import opened Aggregates
  import opened QueryText

  /** The statements the client sends, one per method. */
  datatype QueryKind = Ping | PredictionsQuery | ReferenceQuery | CurrentQuery | SummaryQuery | DistributionQuery

  /** The warehouse as the client sees it; `fault` is the driver's error text. */
  datatype Warehouse = Warehouse(
    tableName: string,
    spans: seq<Span>,
    reachable: bool,
    rejected: set<QueryKind>,
    fault: string)

  /** `SELECT 1` fails. */
  predicate PingFails(w: Warehouse)
  {
    !w.reachable || Ping in w.rejected
  }

  /** A query over the configured table fails: the server is down, rejects
      the statement, or has no such table. */
  predicate QueryFails(w: Warehouse, s: Settings, k: QueryKind)
  {
    !w.reachable || k in w.rejected || TableName(s.clickhouseDatabase, s.clickhouseTable) != w.tableName
  }

  function QueryFailure(w: Warehouse): Failure
  {
    Failure(QueryError, w.fault)
  }

  /** The warehouse runs a predictions query text: the plan the text
      encodes over the table it names. */
  function ExecutePredictions(w: Warehouse, s: Settings, query: string, now: int): Result<seq<RawRow>>
  {
    if QueryFails(w, s, PredictionsQuery) then Err(QueryFailure(w))
    else
      match ParsePredictionsQuery(w.tableName, query)
      case None => Err(Failure(QueryError, "Syntax error"))
      case Some(plan) => Ok(RunPredictionsQuery(w.spans, plan, now))
  }

  /** What `get_yolo_predictions_data` returns or raises. */
  function PredictionsOutcome(w: Warehouse, s: Settings, hoursAgo: Option<int>, limit: Option<nat>, now: int): Result<seq<Prediction>>
  {
    if QueryFails(w, s, PredictionsQuery) then Err(QueryFailure(w))
    else Ok(PredictionsData(w.spans, PlanFor(hoursAgo, limit), now))
  }

  /** What `get_reference_dataset` returns or raises. */
  function ReferenceOutcome(w: Warehouse, s: Settings): Result<seq<Prediction>>
  {
    if QueryFails(w, s, ReferenceQuery) then Err(QueryFailure(w))
    else Ok(ReferenceData(w.spans, s.referenceClassName, s.referenceMinConfidence, s.referenceLimit))
  }

  /** What `get_current_dataset` returns or raises. */
  function CurrentOutcome(w: Warehouse, s: Settings, now: int): Result<seq<Prediction>>
  {
    if QueryFails(w, s, CurrentQuery) then Err(QueryFailure(w))
    else Ok(CurrentData(w.spans, s.currentDaysAgo, now))
  }

  /** What `get_predictions_summary` returns: None is the empty dictionary
      it returns when the query fails. */
  function SummaryOutcome(w: Warehouse, s: Settings): Option<Summary>
  {
    if QueryFails(w, s, SummaryQuery) then None else Some(SummaryOf(w.spans))
  }

  /** What `get_class_distribution` returns: an empty table when the query
      fails. */
  function DistributionOutcome(w: Warehouse, s: Settings, hoursAgo: Option<int>, now: int): seq<ClassCount>
  {
    if QueryFails(w, s, DistributionQuery) then [] else ClassDistribution(w.spans, hoursAgo, now)
  }

  /** The warehouse runs the text of a plan as that very plan. */
  lemma ExecuteRendered(w: Warehouse, s: Settings, plan: PredictionsPlan, now: int)
    ensures ExecutePredictions(w, s, Render(TableName(s.clickhouseDatabase, s.clickhouseTable), plan), now)
            == if QueryFails(w, s, PredictionsQuery) then Err(QueryFailure(w))
               else Ok(RunPredictionsQuery(w.spans, plan, now))
  {
    if !QueryFails(w, s, PredictionsQuery) {
      ParseOfRender(w.tableName, plan);
    }
  }

  class ClickHouseClient {
    const settings: Settings
    const warehouse: Warehouse

    /** The driver connects lazily: construction cannot fail. */
    constructor(settings: Settings, warehouse: Warehouse)
      ensures this.settings == settings && this.warehouse == warehouse
    {
      this.settings := settings;
      this.warehouse := warehouse;
    }

    /** `test_connection`: whether `SELECT 1` succeeds; a failure is
        reported as false, never raised. */
    method TestConnection() returns (ok: bool)
      ensures ok <==> warehouse.reachable && Ping !in warehouse.rejected
    {
      ok := !PingFails(warehouse);
    }

    /** `get_yolo_predictions_data(hours_ago, limit)`: builds the query text
        clause by clause, has the warehouse run it, and coerces the numeric
        columns; a query failure is re-raised. */
    method GetYoloPredictionsData(hoursAgo: Option<int>, limit: Option<nat>, now: int)
      returns (r: Result<seq<Prediction>>)
      ensures r == PredictionsOutcome(warehouse, settings, hoursAgo, limit, now)
    {
      var query := BuildPredictionsQuery(settings.clickhouseDatabase, settings.clickhouseTable, hoursAgo, limit);
      ExecuteRendered(warehouse, settings, PlanFor(hoursAgo, limit), now);
      var result := ExecutePredictions(warehouse, settings, query, now);
      if result.Err? {
        r := Err(result.error);
        return;
      }
      r := Ok(CoerceAll(result.value));
    }

    /** `get_reference_dataset()`: the conversions and the curation run
        only on a non-empty result. */
    method GetReferenceDataset() returns (r: Result<seq<Prediction>>)
      ensures r == ReferenceOutcome(warehouse, settings)
    {
      if QueryFails(warehouse, settings, ReferenceQuery) {
        r := Err(QueryFailure(warehouse));
        return;
      }
      var rows := NewestFirst(Select(warehouse.spans, AnyTime));
      if rows == [] {
        r := Ok([]);
        return;
      }
      var df := CoerceAll(rows);
      var curated := Filter(df, p => IsReferenceRow(p, settings.referenceClassName, settings.referenceMinConfidence));
      r := Ok(Head(curated, settings.referenceLimit));
    }

    /** `get_current_dataset()`: the last `CURRENT_DAYS_AGO` days, newest
        first; a query failure is re-raised. */
    method GetCurrentDataset(now: int) returns (r: Result<seq<Prediction>>)
      ensures r == CurrentOutcome(warehouse, settings, now)
    {
      if QueryFails(warehouse, settings, CurrentQuery) {
        r := Err(QueryFailure(warehouse));
        return;
      }
      var rows := NewestFirst(Select(warehouse.spans, CurrentWindow(settings.currentDaysAgo, now)));
      r := Ok(CoerceAll(rows));
    }

    /** `get_predictions_summary()`: a query failure is swallowed. */
    method GetPredictionsSummary() returns (r: Option<Summary>)
      ensures r == SummaryOutcome(warehouse, settings)
    {
      if QueryFails(warehouse, settings, SummaryQuery) {
        r := None;
      } else {
        r := Some(SummaryOf(warehouse.spans));
      }
    }

    /** `get_class_distribution(hours_ago)`: a query failure is swallowed. */
    method GetClassDistribution(hoursAgo: Option<int>, now: int) returns (r: seq<ClassCount>)
      ensures r == DistributionOutcome(warehouse, settings, hoursAgo, now)
    {
      if QueryFails(warehouse, settings, DistributionQuery) {
        r := [];
      } else {
        r := ClassDistribution(warehouse.spans, hoursAgo, now);
      }
    }
  }

  /** The three row-extraction queries re-raise a query failure unchanged,
      and succeed otherwise. */
  lemma ExtractionsReraise(w: Warehouse, s: Settings, hoursAgo: Option<int>, limit: Option<nat>, now: int)
    ensures PredictionsOutcome(w, s, hoursAgo, limit, now).Err? <==> QueryFails(w, s, PredictionsQuery)
    ensures ReferenceOutcome(w, s).Err? <==> QueryFails(w, s, ReferenceQuery)
    ensures CurrentOutcome(w, s, now).Err? <==> QueryFails(w, s, CurrentQuery)
    ensures PredictionsOutcome(w, s, hoursAgo, limit, now).Err? ==>
              PredictionsOutcome(w, s, hoursAgo, limit, now).error == Failure(QueryError, w.fault)
    ensures ReferenceOutcome(w, s).Err? ==> ReferenceOutcome(w, s).error == Failure(QueryError, w.fault)
    ensures CurrentOutcome(w, s, now).Err? ==> CurrentOutcome(w, s, now).error == Failure(QueryError, w.fault)
  {
  }

  /** The summary and the distribution never raise. A failed summary is the
      empty dictionary, which no successful query gives; a failed
      distribution is an empty table, which is also what a warehouse
      without any detected object gives, so that emptiness does not tell a
      failure from an absence of data. */
  lemma AggregatesSwallowFailures(w: Warehouse, s: Settings, hoursAgo: Option<int>, now: int)
    requires !w.reachable
    ensures SummaryOutcome(w, s) == None
    ensures DistributionOutcome(w, s, hoursAgo, now) == []
    ensures Select(w.spans, DistributionWindow(hoursAgo, now)) == [] ==>
              DistributionOutcome(w.(reachable := true), s, hoursAgo, now) == []
  {
    var names := ClassNames(Select(w.spans, DistributionWindow(hoursAgo, now)));
    assert SummaryOutcome(w, s) == None;
    if names == [] {
      assert Distinct(names) == [];
    }
  }

  /** A successful summary counts the prediction spans and bounds their
      times; see `Aggregates.SummaryFacts`. */
  lemma SummaryOnSuccess(w: Warehouse, s: Settings)
    requires !QueryFails(w, s, SummaryQuery)
    ensures SummaryOutcome(w, s).Some?
    ensures SummaryOutcome(w, s).value.uniquePredictions <= SummaryOutcome(w, s).value.totalPredictions
    ensures forall sp :: sp in w.spans && sp.name == PredictionSpanName ==>
              SummaryOutcome(w, s).value.earliestPrediction <= sp.timestamp <= SummaryOutcome(w, s).value.latestPrediction
  {
    SummaryFacts(w.spans);
  }
}
