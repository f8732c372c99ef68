/** What the extraction queries of `ClickHouseClient` return, as functions of
    the trace table's content.

    The trace table holds one row per span: a timestamp, a span name, the
    span's attribute map and the attribute maps of its events. The detection
    service writes one `yolo_prediction` span per request, with the request's
    scalar facts as span attributes and one event per detected object. */
module Telemetry {
  import opened Outcomes
  import opened Text
  import opened Ordering

  /** The span name the detection service gives every prediction. */
  const PredictionSpanName := "yolo_prediction"

  const HourSeconds := 3600
  const DaySeconds := 86400

  type Attributes = map<string, string>

  /** One row of the trace table. Timestamps are in seconds. */
  datatype Span = Span(timestamp: int, name: string, attributes: Attributes, events: seq<Attributes>)

  /** A lookup in a ClickHouse `Map(String, String)`: a missing key yields the
      empty string, not an error. */
  function Attr(m: Attributes, key: string): string
  {
    if key in m then m[key] else ""
  }

  /** A result row of the extraction SELECT, before any type conversion. */
  datatype RawRow = RawRow(
    timestamp: int,
    predictionId: string,
    processingTime: string,
    filename: string,
    modelName: string,
    className: string,
    confidence: string,
    objectIndex: string)

  /** The row for event `e` of span `s`: the span's scalar columns, then the
      event's. */
  function EventRow(s: Span, e: Attributes): RawRow
  {
    RawRow(
      s.timestamp,
      Attr(s.attributes, "prediction_id"),
      Attr(s.attributes, "processing_time_seconds"),
      Attr(s.attributes, "filename"),
      Attr(s.attributes, "model_name"),
      Attr(e, "class_name"),
      Attr(e, "confidence"),
      Attr(e, "object_index"))
  }

  /** `arrayJoin(Events.Attributes)`: one row per event, in event order. The
      three `arrayJoin` calls of the SELECT are the same expression and so
      expand the array once. */
  function Unnest(s: Span): seq<RawRow>
  {
    seq(|s.events|, i requires 0 <= i < |s.events| => EventRow(s, s.events[i]))
  }

  /** The time predicates a query can add to `WHERE SpanName = ...`. */
  datatype TimeFilter =
    | AnyTime
    | Since(lower: int)               // Timestamp >= lower
    | Between(lower: int, upper: int) // Timestamp <= upper AND Timestamp >= lower

  predicate InWindow(t: int, f: TimeFilter)
  {
    match f
    case AnyTime => true
    case Since(lo) => lo <= t
    case Between(lo, hi) => lo <= t <= hi
  }

  /** The WHERE clause: a prediction span inside the time window. */
  predicate Selected(s: Span, f: TimeFilter)
  {
    s.name == PredictionSpanName && InWindow(s.timestamp, f)
  }

  /** SELECT ... FROM table WHERE SpanName = 'yolo_prediction' [AND window],
      events unnested; spans in table order. */
  function Select(spans: seq<Span>, f: TimeFilter): seq<RawRow>
  {
    if spans == [] then []
    else (if Selected(spans[0], f) then Unnest(spans[0]) else []) + Select(spans[1..], f)
  }

  /** The number of events carried by the spans the WHERE clause keeps. */
  function EventCount(spans: seq<Span>, f: TimeFilter): nat
  {
    if spans == [] then 0
    else (if Selected(spans[0], f) then |spans[0].events| else 0) + EventCount(spans[1..], f)
  }

  function RowTime(r: RawRow): int { r.timestamp }

  /** ORDER BY Timestamp DESC. */
  function NewestFirst(rows: seq<RawRow>): seq<RawRow>
  {
    SortDesc(rows, RowTime)
  }

  // ---------------------------------------------------------------------
  // Numeric coercion

  /** A row after `pd.to_numeric(..., errors='coerce')` on the confidence,
      processing-time and object-index columns: None is NaN. */
  datatype Prediction = Prediction(
    timestamp: int,
    predictionId: string,
    processingTime: Option<real>,
    filename: string,
    modelName: string,
    className: string,
    confidence: Option<real>,
    objectIndex: Option<real>)

  function Coerce(r: RawRow): Prediction
  {
    Prediction(
      r.timestamp, r.predictionId, ToNumeric(r.processingTime), r.filename,
      r.modelName, r.className, ToNumeric(r.confidence), ToNumeric(r.objectIndex))
  }

  /** The three column conversions, applied to every row. */
  function CoerceAll(rows: seq<RawRow>): seq<Prediction>
  {
    seq(|rows|, i requires 0 <= i < |rows| => Coerce(rows[i]))
  }

  function PredictionTime(p: Prediction): int { p.timestamp }

  // ---------------------------------------------------------------------
  // get_yolo_predictions_data

  /** A Python `int` argument that may be None is truthy when set and non-zero. */
  predicate Truthy(o: Option<int>)
  {
    o.Some? && o.value != 0
  }

  /** The clauses `get_yolo_predictions_data` appends: a time slice when
      `hours_ago` is truthy, a LIMIT when `limit` is truthy. */
  datatype PredictionsPlan = PredictionsPlan(hoursAgo: Option<int>, limit: Option<nat>)

  function PlanFor(hoursAgo: Option<int>, limit: Option<nat>): PredictionsPlan
  {
    PredictionsPlan(
      if Truthy(hoursAgo) then hoursAgo else None,
      if limit.Some? && limit.value != 0 then limit else None)
  }

  /** `Timestamp <= now() - h HOUR AND Timestamp >= now() - (h + 24) HOUR`. */
  function PlanWindow(plan: PredictionsPlan, now: int): TimeFilter
  {
    match plan.hoursAgo
    case None => AnyTime
    case Some(h) => Between(now - (h + 24) * HourSeconds, now - h * HourSeconds)
  }

  /** The rows the predictions query returns. */
  function RunPredictionsQuery(spans: seq<Span>, plan: PredictionsPlan, now: int): seq<RawRow>
  {
    var ordered := NewestFirst(Select(spans, PlanWindow(plan, now)));
    match plan.limit
    case None => ordered
    case Some(n) => Take(ordered, n)
  }

  /** `get_yolo_predictions_data(hours_ago, limit)` when the query succeeds. */
  function PredictionsData(spans: seq<Span>, plan: PredictionsPlan, now: int): seq<Prediction>
  {
    CoerceAll(RunPredictionsQuery(spans, plan, now))
  }

  // ---------------------------------------------------------------------
  // get_reference_dataset

  /** The curation filter: the configured class, and a confidence strictly
      above the threshold (a NaN confidence never passes). */
  predicate IsReferenceRow(p: Prediction, className: string, minConfidence: real)
  {
    p.className == className && p.confidence.Some? && p.confidence.value > minConfidence
  }

  /** The rows of the reference query, in query order, before curation. */
  function ReferenceCandidates(spans: seq<Span>): seq<Prediction>
  {
    CoerceAll(NewestFirst(Select(spans, AnyTime)))
  }

  /** `get_reference_dataset()` when the query succeeds:
      `df[(class_name == C) & (confidence > T)].head(N)`. */
  function ReferenceData(spans: seq<Span>, className: string, minConfidence: real, limit: int): seq<Prediction>
  {
    Head(Filter(ReferenceCandidates(spans), p => IsReferenceRow(p, className, minConfidence)), limit)
  }

  // ---------------------------------------------------------------------
  // get_current_dataset

  /** `Timestamp >= now() - INTERVAL days DAY`. */
  function CurrentWindow(days: int, now: int): TimeFilter
  {
    Since(now - days * DaySeconds)
  }

  /** `get_current_dataset()` when the query succeeds. */
  function CurrentData(spans: seq<Span>, days: int, now: int): seq<Prediction>
  {
    CoerceAll(NewestFirst(Select(spans, CurrentWindow(days, now))))
  }

  // ---------------------------------------------------------------------
  // Properties of the SELECT

  /** A span yields one row per event; each repeats the span's timestamp,
      prediction id, processing time, filename and model name, and carries its
      own event's class name, confidence and object index. */
  lemma UnnestRepeatsSpanColumns(s: Span)
    ensures |Unnest(s)| == |s.events|
    ensures forall i :: 0 <= i < |s.events| ==>
              var r := Unnest(s)[i];
              && r.timestamp == s.timestamp
              && r.predictionId == Attr(s.attributes, "prediction_id")
              && r.processingTime == Attr(s.attributes, "processing_time_seconds")
              && r.filename == Attr(s.attributes, "filename")
              && r.modelName == Attr(s.attributes, "model_name")
              && r.className == Attr(s.events[i], "class_name")
              && r.confidence == Attr(s.events[i], "confidence")
              && r.objectIndex == Attr(s.events[i], "object_index")
  {
  }

  /** The SELECT distributes over the table: the rows of two runs of spans
      are the rows of the first followed by those of the second. */
  lemma {:induction false} SelectAppend(a: seq<Span>, b: seq<Span>, f: TimeFilter)
    ensures Select(a + b, f) == Select(a, f) + Select(b, f)
  {
    if a == [] {
      assert a + b == b;
    } else {
      assert (a + b)[1..] == a[1..] + b;
      SelectAppend(a[1..], b, f);
    }
  }

  /** Exactly one row per event of every span the WHERE clause keeps: a span
      with k events yields k rows, one with no event yields none. */
  lemma {:induction false} SelectCount(spans: seq<Span>, f: TimeFilter)
    ensures |Select(spans, f)| == EventCount(spans, f)
  {
    if spans != [] {
      SelectCount(spans[1..], f);
    }
  }

  /** A row is returned exactly when it is the row of some event of some
      kept span: only `yolo_prediction` spans inside the window contribute,
      and each of their events does. */
  lemma SelectRowIff(spans: seq<Span>, f: TimeFilter, r: RawRow)
    ensures r in Select(spans, f) <==> FromKeptSpan(spans, f, r)
  {
    if r in Select(spans, f) {
      SelectRowSound(spans, f, r);
    }
    if FromKeptSpan(spans, f, r) {
      var i, j :| 0 <= i < |spans| && 0 <= j < |spans[i].events|
                  && Selected(spans[i], f) && r == EventRow(spans[i], spans[i].events[j]);
      SelectRowComplete(spans, f, i, j);
    }
  }

  /** `r` is the row of an event of a span the WHERE clause keeps. */
  predicate FromKeptSpan(spans: seq<Span>, f: TimeFilter, r: RawRow)
  {
    exists i, j :: 0 <= i < |spans| && 0 <= j < |spans[i].events|
                   && Selected(spans[i], f) && r == EventRow(spans[i], spans[i].events[j])
  }

  lemma {:induction false} SelectRowSound(spans: seq<Span>, f: TimeFilter, r: RawRow)
    requires r in Select(spans, f)
    ensures FromKeptSpan(spans, f, r)
  {
    var head := if Selected(spans[0], f) then Unnest(spans[0]) else [];
    if r in head {
      var j :| 0 <= j < |head| && head[j] == r;
      assert Selected(spans[0], f) && r == EventRow(spans[0], spans[0].events[j]);
    } else {
      SelectRowSound(spans[1..], f, r);
      var i, j :| 0 <= i < |spans[1..]| && 0 <= j < |spans[1..][i].events|
                  && Selected(spans[1..][i], f) && r == EventRow(spans[1..][i], spans[1..][i].events[j]);
      assert spans[i + 1] == spans[1..][i];
    }
  }

  lemma {:induction false} SelectRowComplete(spans: seq<Span>, f: TimeFilter, i: nat, j: nat)
    requires i < |spans| && j < |spans[i].events| && Selected(spans[i], f)
    ensures EventRow(spans[i], spans[i].events[j]) in Select(spans, f)
  {
    if i == 0 {
      assert Unnest(spans[0])[j] == EventRow(spans[0], spans[0].events[j]);
    } else {
      assert spans[1..][i - 1] == spans[i];
      SelectRowComplete(spans[1..], f, i - 1, j);
    }
  }

  /** Every row of the SELECT lies inside the query's time window. */
  lemma SelectInWindow(spans: seq<Span>, f: TimeFilter, r: RawRow)
    requires r in Select(spans, f)
    ensures InWindow(r.timestamp, f)
  {
    SelectRowIff(spans, f, r);
  }

  // ---------------------------------------------------------------------
  // Properties of ordering and coercion

  /** Sorting keeps every row and only those rows. */
  lemma NewestFirstSameRows(rows: seq<RawRow>, r: RawRow)
    ensures r in NewestFirst(rows) <==> r in rows
    ensures |NewestFirst(rows)| == |rows|
  {
    assert r in NewestFirst(rows) <==> r in multiset(NewestFirst(rows));
    assert r in rows <==> r in multiset(rows);
    assert |multiset(NewestFirst(rows))| == |multiset(rows)|;
  }

  /** Coercion keeps the number of rows, their order and their non-numeric
      columns: an unparseable value becomes None instead of dropping or
      failing the row. */
  lemma CoercionKeepsRows(rows: seq<RawRow>)
    ensures |CoerceAll(rows)| == |rows|
    ensures forall i :: 0 <= i < |rows| ==>
              var p := CoerceAll(rows)[i];
              && p.timestamp == rows[i].timestamp
              && p.predictionId == rows[i].predictionId
              && p.filename == rows[i].filename
              && p.modelName == rows[i].modelName
              && p.className == rows[i].className
              && p.confidence == ToNumeric(rows[i].confidence)
              && p.processingTime == ToNumeric(rows[i].processingTime)
              && p.objectIndex == ToNumeric(rows[i].objectIndex)
  {
  }

  /** Coercion keeps the rows ordered newest first. */
  lemma CoercionKeepsOrder(rows: seq<RawRow>)
    requires SortedDesc(rows, RowTime)
    ensures SortedDesc(CoerceAll(rows), PredictionTime)
  {
    var ps := CoerceAll(rows);
    forall i, j | 0 <= i < j < |ps| ensures PredictionTime(ps[i]) >= PredictionTime(ps[j]) {
      assert PredictionTime(ps[i]) == RowTime(rows[i]);
      assert PredictionTime(ps[j]) == RowTime(rows[j]);
    }
  }

  // ---------------------------------------------------------------------
  // Properties of get_yolo_predictions_data

  /** With a truthy `hours_ago` = h, every row lies in the 24-hour slice
      [now - (h + 24) hours, now - h hours]. */
  lemma PredictionsInOffsetWindow(spans: seq<Span>, hoursAgo: Option<int>, limit: Option<nat>, now: int)
    requires Truthy(hoursAgo)
    ensures forall p :: p in PredictionsData(spans, PlanFor(hoursAgo, limit), now) ==>
              now - (hoursAgo.value + 24) * HourSeconds <= p.timestamp <= now - hoursAgo.value * HourSeconds
  {
    var plan := PlanFor(hoursAgo, limit);
    var selected := Select(spans, PlanWindow(plan, now));
    var rows := RunPredictionsQuery(spans, plan, now);
    forall p | p in PredictionsData(spans, plan, now)
      ensures now - (hoursAgo.value + 24) * HourSeconds <= p.timestamp <= now - hoursAgo.value * HourSeconds
    {
      var i :| 0 <= i < |rows| && CoerceAll(rows)[i] == p;
      assert rows[i] in NewestFirst(selected);
      NewestFirstSameRows(selected, rows[i]);
      SelectInWindow(spans, PlanWindow(plan, now), rows[i]);
    }
  }

  /** Without a truthy `hours_ago` no time predicate applies: every event of
      every prediction span is eligible. */
  lemma PredictionsWithoutOffsetAreUnwindowed(hoursAgo: Option<int>, limit: Option<nat>, now: int)
    requires !Truthy(hoursAgo)
    ensures PlanWindow(PlanFor(hoursAgo, limit), now) == AnyTime
  {
  }

  /** Rows come out newest first. */
  lemma PredictionsNewestFirst(spans: seq<Span>, plan: PredictionsPlan, now: int)
    ensures SortedDesc(PredictionsData(spans, plan, now), PredictionTime)
  {
    var ordered := NewestFirst(Select(spans, PlanWindow(plan, now)));
    var rows := RunPredictionsQuery(spans, plan, now);
    if plan.limit.Some? {
      SortedDescPrefix(ordered, RowTime, |rows|);
    }
    CoercionKeepsOrder(rows);
  }

  /** With a truthy `limit` = n at most n rows come back; otherwise one row
      per event of every prediction span in the window. */
  lemma PredictionsRowCount(spans: seq<Span>, hoursAgo: Option<int>, limit: Option<nat>, now: int)
    ensures limit.Some? && limit.value != 0 ==>
              |PredictionsData(spans, PlanFor(hoursAgo, limit), now)| <= limit.value
    ensures !(limit.Some? && limit.value != 0) ==>
              |PredictionsData(spans, PlanFor(hoursAgo, limit), now)|
              == EventCount(spans, PlanWindow(PlanFor(hoursAgo, limit), now))
  {
    var plan := PlanFor(hoursAgo, limit);
    var selected := Select(spans, PlanWindow(plan, now));
    SelectCount(spans, PlanWindow(plan, now));
    if selected != [] {
      NewestFirstSameRows(selected, selected[0]);
    } else {
      assert |NewestFirst(selected)| == 0;
    }
  }

  /** Every row is the row of an event of a `yolo_prediction` span. */
  lemma PredictionsFromPredictionSpans(spans: seq<Span>, plan: PredictionsPlan, now: int)
    ensures forall k :: 0 <= k < |RunPredictionsQuery(spans, plan, now)| ==>
              exists i, j :: 0 <= i < |spans| && 0 <= j < |spans[i].events|
                             && spans[i].name == PredictionSpanName
                             && RunPredictionsQuery(spans, plan, now)[k] == EventRow(spans[i], spans[i].events[j])
  {
    var f := PlanWindow(plan, now);
    var rows := RunPredictionsQuery(spans, plan, now);
    forall k | 0 <= k < |rows|
      ensures exists i, j :: 0 <= i < |spans| && 0 <= j < |spans[i].events|
                             && spans[i].name == PredictionSpanName
                             && rows[k] == EventRow(spans[i], spans[i].events[j])
    {
      assert rows[k] in NewestFirst(Select(spans, f));
      NewestFirstSameRows(Select(spans, f), rows[k]);
      SelectRowIff(spans, f, rows[k]);
    }
  }

  // ---------------------------------------------------------------------
  // Properties of get_reference_dataset

  /** Every reference row has the configured class and a confidence strictly
      above the threshold. */
  lemma ReferenceRowsMatch(spans: seq<Span>, className: string, minConfidence: real, limit: int)
    ensures forall p :: p in ReferenceData(spans, className, minConfidence, limit) ==>
              p.className == className && p.confidence.Some? && p.confidence.value > minConfidence
  {
    var matching := Filter(ReferenceCandidates(spans), p => IsReferenceRow(p, className, minConfidence));
    forall p | p in ReferenceData(spans, className, minConfidence, limit)
      ensures IsReferenceRow(p, className, minConfidence)
    {
      var i :| 0 <= i < |ReferenceData(spans, className, minConfidence, limit)|
               && ReferenceData(spans, className, minConfidence, limit)[i] == p;
      assert p == matching[i];
    }
  }

  /** A non-negative limit bounds the row count; and the rows are exactly the
      matches among some first k rows of the query (newest first), stopping
      once `limit` matches are found. */
  lemma ReferenceIsFirstMatches(spans: seq<Span>, className: string, minConfidence: real, limit: int)
    requires limit >= 0
    ensures |ReferenceData(spans, className, minConfidence, limit)| <= limit
    ensures exists k :: 0 <= k <= |ReferenceCandidates(spans)|
              && ReferenceData(spans, className, minConfidence, limit)
                 == Filter(ReferenceCandidates(spans)[..k], p => IsReferenceRow(p, className, minConfidence))
              && (|ReferenceData(spans, className, minConfidence, limit)| == limit
                  || k == |ReferenceCandidates(spans)|)
  {
    var isRef := p => IsReferenceRow(p, className, minConfidence);
    var all := ReferenceCandidates(spans);
    assert Head(Filter(all, isRef), limit) == Take(Filter(all, isRef), limit);
    TakeOfFilterIsFilterOfPrefix(all, isRef, limit);
  }

  /** Reference rows come out newest first. */
  lemma ReferenceNewestFirst(spans: seq<Span>, className: string, minConfidence: real, limit: int)
    ensures SortedDesc(ReferenceData(spans, className, minConfidence, limit), PredictionTime)
  {
    var isRef := p => IsReferenceRow(p, className, minConfidence);
    var all := ReferenceCandidates(spans);
    CoercionKeepsOrder(NewestFirst(Select(spans, AnyTime)));
    FilterKeepsOrder(all, isRef);
    SortedDescPrefix(Filter(all, isRef), PredictionTime, |ReferenceData(spans, className, minConfidence, limit)|);
  }

  /** Filtering keeps a newest-first order. */
  lemma {:induction false} FilterKeepsOrder(ps: seq<Prediction>, keep: Prediction -> bool)
    requires SortedDesc(ps, PredictionTime)
    ensures SortedDesc(Filter(ps, keep), PredictionTime)
  {
    if ps != [] {
      FilterKeepsOrder(ps[1..], keep);
      var rest := Filter(ps[1..], keep);
      forall k | 0 <= k < |rest| ensures PredictionTime(ps[0]) >= PredictionTime(rest[k]) {
        assert rest[k] in rest;
        FilterMembers(ps[1..], keep, rest[k]);
      }
    }
  }

  // ---------------------------------------------------------------------
  // Properties of get_current_dataset

  /** Every current row lies within the last `days` days, rows come newest
      first, and every event of every prediction span in that window is
      there. */
  lemma CurrentWithinDays(spans: seq<Span>, days: int, now: int)
    ensures forall p :: p in CurrentData(spans, days, now) ==> p.timestamp >= now - days * DaySeconds
    ensures SortedDesc(CurrentData(spans, days, now), PredictionTime)
    ensures |CurrentData(spans, days, now)| == EventCount(spans, CurrentWindow(days, now))
  {
    var f := CurrentWindow(days, now);
    var rows := NewestFirst(Select(spans, f));
    forall p | p in CurrentData(spans, days, now) ensures p.timestamp >= now - days * DaySeconds {
      var i :| 0 <= i < |rows| && CoerceAll(rows)[i] == p;
      NewestFirstSameRows(Select(spans, f), rows[i]);
      SelectInWindow(spans, f, rows[i]);
    }
    CoercionKeepsOrder(rows);
    SelectCount(spans, f);
    if Select(spans, f) != [] {
      NewestFirstSameRows(Select(spans, f), Select(spans, f)[0]);
    } else {
      assert |rows| == 0;
    }
  }
}
