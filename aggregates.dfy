/** What the two aggregate queries of `ClickHouseClient` return when they
    succeed: the prediction summary and the per-class distribution of
    detected objects. */
module Aggregates {
  import opened Outcomes
  import opened Ordering
  import opened Telemetry

  predicate IsPredictionSpan(s: Span)
  {
    s.name == PredictionSpanName
  }

  /** The spans `WHERE SpanName = 'yolo_prediction'` keeps. The summary query
      has no `arrayJoin`, so it counts spans, not detected objects. */
  function PredictionSpans(spans: seq<Span>): seq<Span>
  {
    Filter(spans, IsPredictionSpan)
  }

  function PredictionId(s: Span): string
  {
    Attr(s.attributes, "prediction_id")
  }

  /** The prediction ids carried by `spans` (a missing id counts as ""). */
  function Ids(spans: seq<Span>): set<string>
  {
    if spans == [] then {} else {PredictionId(spans[0])} + Ids(spans[1..])
  }

  /** `min(Timestamp)` over a non-empty set of rows. */
  function EarliestOf(spans: seq<Span>): (t: int)
    requires spans != []
    ensures forall i :: 0 <= i < |spans| ==> t <= spans[i].timestamp
    ensures exists i :: 0 <= i < |spans| && t == spans[i].timestamp
  {
    if |spans| == 1 then spans[0].timestamp
    else
      var rest := EarliestOf(spans[1..]);
      assert forall i :: 1 <= i < |spans| ==> spans[i] == spans[1..][i - 1];
      if spans[0].timestamp <= rest then spans[0].timestamp else rest
  }

  /** `max(Timestamp)` over a non-empty set of rows. */
  function LatestOf(spans: seq<Span>): (t: int)
    requires spans != []
    ensures forall i :: 0 <= i < |spans| ==> t >= spans[i].timestamp
    ensures exists i :: 0 <= i < |spans| && t == spans[i].timestamp
  {
    if |spans| == 1 then spans[0].timestamp
    else
      var rest := LatestOf(spans[1..]);
      assert forall i :: 1 <= i < |spans| ==> spans[i] == spans[1..][i - 1];
      if spans[0].timestamp >= rest then spans[0].timestamp else rest
  }

  /** The dictionary `get_predictions_summary` builds from the single result
      row (the average processing time is not modelled). Over no rows,
      `min` and `max` of a DateTime give its default value, the epoch. */
  datatype Summary = Summary(
    totalPredictions: nat,
    uniquePredictions: nat,
    earliestPrediction: int,
    latestPrediction: int)

  function SummaryOf(spans: seq<Span>): Summary
  {
    var kept := PredictionSpans(spans);
    Summary(
      |kept|,
      |Ids(kept)|,
      if kept == [] then 0 else EarliestOf(kept),
      if kept == [] then 0 else LatestOf(kept))
  }

  /** No more distinct ids than rows. */
  lemma {:induction false} IdsBound(spans: seq<Span>)
    ensures |Ids(spans)| <= |spans|
  {
    if spans != [] {
      IdsBound(spans[1..]);
    }
  }

  /** An id is counted iff some row carries it. */
  lemma {:induction false} IdsMembers(spans: seq<Span>, id: string)
    ensures id in Ids(spans) <==> exists i :: 0 <= i < |spans| && PredictionId(spans[i]) == id
  {
    if spans != [] {
      IdsMembers(spans[1..], id);
      if exists i :: 0 <= i < |spans[1..]| && PredictionId(spans[1..][i]) == id {
        var i :| 0 <= i < |spans[1..]| && PredictionId(spans[1..][i]) == id;
        assert PredictionId(spans[i + 1]) == id;
      }
      if exists i :: 0 <= i < |spans| && PredictionId(spans[i]) == id {
        var i :| 0 <= i < |spans| && PredictionId(spans[i]) == id;
        if i > 0 {
          assert PredictionId(spans[1..][i - 1]) == id;
        }
      }
    }
  }

  /** The summary counts prediction spans: at most as many distinct ids as
      spans; with no prediction span every figure is zero; otherwise the
      earliest and latest times are times of prediction spans and bound the
      time of every prediction span. */
  lemma SummaryFacts(spans: seq<Span>)
    ensures SummaryOf(spans).uniquePredictions <= SummaryOf(spans).totalPredictions
    ensures SummaryOf(spans).totalPredictions == 0 ==>
              SummaryOf(spans) == Summary(0, 0, 0, 0)
    ensures SummaryOf(spans).totalPredictions > 0 ==>
              SummaryOf(spans).earliestPrediction <= SummaryOf(spans).latestPrediction
    ensures forall s :: s in spans && IsPredictionSpan(s) ==>
              SummaryOf(spans).earliestPrediction <= s.timestamp <= SummaryOf(spans).latestPrediction
    ensures SummaryOf(spans).totalPredictions > 0 ==>
              exists s :: s in spans && IsPredictionSpan(s) && s.timestamp == SummaryOf(spans).earliestPrediction
    ensures SummaryOf(spans).totalPredictions > 0 ==>
              exists s :: s in spans && IsPredictionSpan(s) && s.timestamp == SummaryOf(spans).latestPrediction
  {
    var kept := PredictionSpans(spans);
    IdsBound(kept);
    forall s | s in spans && IsPredictionSpan(s)
      ensures SummaryOf(spans).earliestPrediction <= s.timestamp <= SummaryOf(spans).latestPrediction
    {
      FilterMembers(spans, IsPredictionSpan, s);
      var i :| 0 <= i < |kept| && kept[i] == s;
    }
    if kept != [] {
      var i :| 0 <= i < |kept| && kept[i].timestamp == EarliestOf(kept);
      var j :| 0 <= j < |kept| && kept[j].timestamp == LatestOf(kept);
      assert kept[i] in kept && kept[j] in kept;
      FilterMembers(spans, IsPredictionSpan, kept[i]);
      FilterMembers(spans, IsPredictionSpan, kept[j]);
    }
  }

  /** The summary ignores every span that is not a prediction span: adding
      or removing other spans changes nothing. */
  lemma SummaryIgnoresOtherSpans(spans: seq<Span>, other: Span)
    requires !IsPredictionSpan(other)
    ensures SummaryOf([other] + spans) == SummaryOf(spans)
  {
    var all := [other] + spans;
    assert all[1..] == spans;
    assert PredictionSpans(all) == [] + PredictionSpans(spans);
    assert [] + PredictionSpans(spans) == PredictionSpans(spans);
  }

  // ---------------------------------------------------------------------
  // get_class_distribution

  /** One row of the distribution: a class and how many detected objects
      carry it (the average confidence is not modelled). */
  datatype ClassCount = ClassCount(className: string, count: nat)

  function CountOf(g: ClassCount): int { g.count }

  /** The `class_name` column of the unnested rows. */
  function ClassNames(rows: seq<RawRow>): (names: seq<string>)
    ensures |names| == |rows|
    ensures forall i :: 0 <= i < |rows| ==> names[i] == rows[i].className
  {
    seq(|rows|, i requires 0 <= i < |rows| => rows[i].className)
  }

  /** `count()` within the group of class `c`. */
  function Occurrences(names: seq<string>, c: string): nat
  {
    if names == [] then 0
    else Occurrences(names[..|names| - 1], c) + (if names[|names| - 1] == c then 1 else 0)
  }

  /** The groups of GROUP BY class_name: each class once, in order of first
      appearance. */
  function Distinct(names: seq<string>): (d: seq<string>)
    ensures NoDuplicates(d)
    ensures forall c :: c in d <==> c in names
  {
    if names == [] then []
    else
      var prefix := names[..|names| - 1];
      var last := names[|names| - 1];
      assert names == prefix + [last];
      Distinct(prefix) + (if last in prefix then [] else [last])
  }

  function Groups(names: seq<string>): seq<ClassCount>
  {
    var d := Distinct(names);
    seq(|d|, i requires 0 <= i < |d| => ClassCount(d[i], Occurrences(names, d[i])))
  }

  /** `AND Timestamp >= now() - INTERVAL h HOUR` when `hours_ago` is truthy. */
  function DistributionWindow(hoursAgo: Option<int>, now: int): TimeFilter
  {
    if Truthy(hoursAgo) then Since(now - hoursAgo.value * HourSeconds) else AnyTime
  }

  /** `get_class_distribution(hours_ago)` when the query succeeds:
      GROUP BY class_name ORDER BY count DESC. */
  function ClassDistribution(spans: seq<Span>, hoursAgo: Option<int>, now: int): seq<ClassCount>
  {
    SortDesc(Groups(ClassNames(Select(spans, DistributionWindow(hoursAgo, now)))), CountOf)
  }

  /** A class has a positive count iff it occurs. */
  lemma {:induction false} OccurrencesPositive(names: seq<string>, c: string)
    ensures Occurrences(names, c) > 0 <==> c in names
  {
    if names != [] {
      var prefix := names[..|names| - 1];
      assert names == prefix + [names[|names| - 1]];
      OccurrencesPositive(prefix, c);
    }
  }

  /** No more objects of one class than objects. */
  lemma {:induction false} OccurrencesBound(names: seq<string>, c: string)
    ensures Occurrences(names, c) <= |names|
  {
    if names != [] {
      OccurrencesBound(names[..|names| - 1], c);
    }
  }

  /** The distribution has exactly one row per class that occurs among the
      unnested rows of the window, carrying the number of such rows, and the
      rows come in non-increasing count. */
  lemma DistributionFacts(spans: seq<Span>, hoursAgo: Option<int>, now: int)
    ensures SortedDesc(ClassDistribution(spans, hoursAgo, now), CountOf)
    ensures forall g :: g in ClassDistribution(spans, hoursAgo, now) ==>
              0 < g.count == Occurrences(ClassNames(Select(spans, DistributionWindow(hoursAgo, now))), g.className)
    ensures forall r :: r in Select(spans, DistributionWindow(hoursAgo, now)) ==>
              exists g :: g in ClassDistribution(spans, hoursAgo, now) && g.className == r.className
    ensures forall i, j :: 0 <= i < j < |ClassDistribution(spans, hoursAgo, now)| ==>
              ClassDistribution(spans, hoursAgo, now)[i].className
              != ClassDistribution(spans, hoursAgo, now)[j].className
  {
    var names := ClassNames(Select(spans, DistributionWindow(hoursAgo, now)));
    var groups := Groups(names);
    var dist := ClassDistribution(spans, hoursAgo, now);
    var d := Distinct(names);
    assert forall g :: g in dist <==> g in groups by {
      forall g ensures g in dist <==> g in groups {
        assert g in dist <==> g in multiset(dist);
        assert g in groups <==> g in multiset(groups);
      }
    }
    forall g | g in dist
      ensures 0 < g.count == Occurrences(names, g.className)
    {
      var i :| 0 <= i < |groups| && groups[i] == g;
      assert d[i] in d;
      OccurrencesPositive(names, d[i]);
    }
    forall r | r in Select(spans, DistributionWindow(hoursAgo, now))
      ensures exists g :: g in dist && g.className == r.className
    {
      var k :| 0 <= k < |Select(spans, DistributionWindow(hoursAgo, now))|
               && Select(spans, DistributionWindow(hoursAgo, now))[k] == r;
      assert names[k] in names;
      var i :| 0 <= i < |d| && d[i] == r.className;
      assert groups[i] in groups;
    }
    GroupsDistinct(names);
    PermutationKeepsNoDuplicates(groups, dist);
    forall i, j | 0 <= i < j < |dist| ensures dist[i].className != dist[j].className {
      assert dist[i] in dist && dist[j] in dist;
    }
  }

  /** Each class forms one group. */
  lemma GroupsDistinct(names: seq<string>)
    ensures NoDuplicates(Groups(names))
  {
    var d := Distinct(names);
    var groups := Groups(names);
    forall i, j | 0 <= i < j < |groups| ensures groups[i] != groups[j] {
      assert groups[i].className == d[i] && groups[j].className == d[j];
    }
  }
}
