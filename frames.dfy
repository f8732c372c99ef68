/** DataFrames as the drift-service client handles them, and
    `prepare_dataset_for_evidently`: the emptiness guard, the null drop and
    the projection to the three drift features. */
module Frames {
  import opened Outcomes
  import opened Ordering
  import opened Telemetry

  /** A cell: null (None or NaN), text, a number, or a timestamp in seconds. */
  datatype Value = Null | Text(text: string) | Number(number: real) | Time(seconds: int)

  type Row = map<string, Value>

  /** Column labels in order, and the rows, each a map from label to cell. */
  datatype Frame = Frame(columns: seq<string>, rows: seq<Row>)

  /** `df.empty`: no rows, or no columns. */
  predicate IsEmpty(f: Frame)
  {
    |f.rows| == 0 || |f.columns| == 0
  }

  /** The columns of every frame the warehouse queries return. */
  const PredictionColumns: seq<string> :=
    ["timestamp", "prediction_id", "processing_time", "filename", "model_name",
     "class_name", "confidence", "object_index"]

  /** The basic features the drift analysis keeps. */
  const FeatureColumns: seq<string> := ["class_name", "confidence", "processing_time"]

  function NumberOrNull(o: Option<real>): Value
  {
    match o
    case None => Null
    case Some(x) => Number(x)
  }

  function PredictionRow(p: Prediction): Row
  {
    map[
      "timestamp" := Time(p.timestamp),
      "prediction_id" := Text(p.predictionId),
      "processing_time" := NumberOrNull(p.processingTime),
      "filename" := Text(p.filename),
      "model_name" := Text(p.modelName),
      "class_name" := Text(p.className),
      "confidence" := NumberOrNull(p.confidence),
      "object_index" := NumberOrNull(p.objectIndex)]
  }

  /** `pd.DataFrame(result, columns=columns)` after the numeric conversions. */
  function ToFrame(ps: seq<Prediction>): Frame
  {
    Frame(PredictionColumns, seq(|ps|, i requires 0 <= i < |ps| => PredictionRow(ps[i])))
  }

  /** The cell of column `c`; a row without it reads as null. */
  function Cell(r: Row, c: string): Value
  {
    if c in r then r[c] else Null
  }

  /** `dropna(subset=['class_name', 'confidence'])` keeps the row. */
  predicate HasFeatures(r: Row)
  {
    Cell(r, "class_name") != Null && Cell(r, "confidence") != Null
  }

  /** The row restricted to the three feature columns. */
  function Project(r: Row): Row
  {
    map[
      "class_name" := Cell(r, "class_name"),
      "confidence" := Cell(r, "confidence"),
      "processing_time" := Cell(r, "processing_time")]
  }

  function ProjectAll(rows: seq<Row>): seq<Row>
  {
    seq(|rows|, i requires 0 <= i < |rows| => Project(rows[i]))
  }

  /** The first of the feature columns `f` lacks, in the order pandas looks
      them up: the `dropna` subset, then the projection. */
  function MissingFeature(f: Frame): Option<string>
  {
    if "class_name" !in f.columns then Some("class_name")
    else if "confidence" !in f.columns then Some("confidence")
    else if "processing_time" !in f.columns then Some("processing_time")
    else None
  }

  function EmptyMessage(datasetName: string): string
  {
    "DataFrame is empty for dataset: " + datasetName
  }

  /** `prepare_dataset_for_evidently(df, dataset_name)`; the Dataset it wraps
      is the prepared frame. */
  function Prepare(f: Frame, datasetName: string): Result<Frame>
  {
    if IsEmpty(f) then Err(Failure(ValueError, EmptyMessage(datasetName)))
    else
      match MissingFeature(f)
      case Some(c) => Err(Failure(KeyError, c))
      case None => Ok(Frame(FeatureColumns, ProjectAll(Filter(f.rows, HasFeatures))))
  }

  /** An empty frame is rejected with the dataset's name, whatever its
      columns. */
  lemma PrepareRejectsEmpty(f: Frame, datasetName: string)
    requires IsEmpty(f)
    ensures Prepare(f, datasetName) == Err(Failure(ValueError, "DataFrame is empty for dataset: " + datasetName))
  {
  }

  /** The emptiness check comes before the null drop: a non-empty frame
      whose rows all lack a class or a confidence yields a prepared frame
      with no rows, not an error. */
  lemma PrepareAfterDropMayBeEmpty(f: Frame, datasetName: string)
    requires !IsEmpty(f) && MissingFeature(f) == None
    requires forall i :: 0 <= i < |f.rows| ==> !HasFeatures(f.rows[i])
    ensures Prepare(f, datasetName).Ok?
    ensures Prepare(f, datasetName).value.rows == []
  {
    if Filter(f.rows, HasFeatures) != [] {
      var r := Filter(f.rows, HasFeatures)[0];
      assert r in Filter(f.rows, HasFeatures);
      FilterMembers(f.rows, HasFeatures, r);
    }
  }

  /** A prepared frame has exactly the three feature columns; its rows are
      the projections onto the features of the input rows with a class and
      a confidence; a null processing time does not drop a row. */
  lemma PrepareProjects(f: Frame, datasetName: string)
    requires Prepare(f, datasetName).Ok?
    ensures Prepare(f, datasetName).value.columns == ["class_name", "confidence", "processing_time"]
    ensures forall r :: r in Prepare(f, datasetName).value.rows <==>
              exists k :: 0 <= k < |f.rows| && HasFeatures(f.rows[k]) && r == Project(f.rows[k])
    ensures forall r :: r in Prepare(f, datasetName).value.rows ==>
              r.Keys == {"class_name", "confidence", "processing_time"}
              && r["class_name"] != Null && r["confidence"] != Null
  {
    var kept := Filter(f.rows, HasFeatures);
    var out := Prepare(f, datasetName).value.rows;
    forall r ensures r in out <==> exists k :: 0 <= k < |f.rows| && HasFeatures(f.rows[k]) && r == Project(f.rows[k]) {
      if r in out {
        var i :| 0 <= i < |out| && out[i] == r;
        assert kept[i] in kept;
        FilterMembers(f.rows, HasFeatures, kept[i]);
        var k :| 0 <= k < |f.rows| && f.rows[k] == kept[i];
      }
      if exists k :: 0 <= k < |f.rows| && HasFeatures(f.rows[k]) && r == Project(f.rows[k]) {
        var k :| 0 <= k < |f.rows| && HasFeatures(f.rows[k]) && r == Project(f.rows[k]);
        FilterMembers(f.rows, HasFeatures, f.rows[k]);
        var i :| 0 <= i < |kept| && kept[i] == f.rows[k];
        assert out[i] == r;
      }
    }
    PreparedRowShape(f, datasetName);
  }

  lemma PreparedRowShape(f: Frame, datasetName: string)
    requires Prepare(f, datasetName).Ok?
    ensures forall r :: r in Prepare(f, datasetName).value.rows ==>
              r.Keys == {"class_name", "confidence", "processing_time"}
              && r["class_name"] != Null && r["confidence"] != Null
  {
    var kept := Filter(f.rows, HasFeatures);
    var out := Prepare(f, datasetName).value.rows;
    forall r | r in out
      ensures r.Keys == {"class_name", "confidence", "processing_time"}
      ensures r["class_name"] != Null && r["confidence"] != Null
    {
      var i :| 0 <= i < |out| && out[i] == r;
      assert HasFeatures(kept[i]);
    }
  }

  /** A frame of predictions has every feature column, so preparing one that
      is not empty never fails; it keeps exactly the predictions whose
      confidence parsed, in their order. A missing class attribute reads as "", which is not
      null, so such rows stay. */
  lemma PreparePredictions(ps: seq<Prediction>, datasetName: string)
    requires ps != []
    ensures Prepare(ToFrame(ps), datasetName).Ok?
    ensures Prepare(ToFrame(ps), datasetName).value.rows
            == ProjectAll(ToFrame(Filter(ps, HasConfidence)).rows)
  {
    var f := ToFrame(ps);
    assert f.columns[5] == "class_name" && f.columns[6] == "confidence" && f.columns[2] == "processing_time";
    FilterCorresponds(ps);
  }

  predicate HasConfidence(p: Prediction)
  {
    p.confidence.Some?
  }

  /** Dropping null rows from a frame of predictions is filtering the
      predictions on a parsed confidence. */
  lemma {:induction false} FilterCorresponds(ps: seq<Prediction>)
    ensures Filter(ToFrame(ps).rows, HasFeatures) == ToFrame(Filter(ps, HasConfidence)).rows
  {
    if ps != [] {
      FilterCorresponds(ps[1..]);
      assert ToFrame(ps).rows[1..] == ToFrame(ps[1..]).rows;
      var head := if HasConfidence(ps[0]) then [ps[0]] else [];
      assert Filter(ps, HasConfidence) == head + Filter(ps[1..], HasConfidence);
      assert ToFrame(head + Filter(ps[1..], HasConfidence)).rows
             == ToFrame(head).rows + ToFrame(Filter(ps[1..], HasConfidence)).rows;
      assert HasFeatures(PredictionRow(ps[0])) <==> HasConfidence(ps[0]);
    } else {
      assert ToFrame(ps).rows == [];
    }
  }
}
