/** The settings of the drift pipeline and their validation.

    In the Python code these are class attributes of `Config`, read once from
    the environment; here they are one value that every component is given. */
module Config {

  datatype Settings = Settings(
    evidentlyApiKey: string,
    evidentlyUrl: string,
    evidentlyProjectId: string,
    evidentlyProjectName: string,
    clickhouseHost: string,
    clickhousePort: int,
    clickhouseUser: string,
    clickhousePassword: string,
    clickhouseDatabase: string,
    clickhouseTable: string,
    referenceClassName: string,
    referenceMinConfidence: real,
    referenceLimit: int,
    currentDaysAgo: int,
    referenceDatasetId: string)

  /** The value of every setting when its environment variable is unset. */
  const Defaults := Settings(
    evidentlyApiKey := "",
    evidentlyUrl := "https://app.evidently.cloud",
    evidentlyProjectId := "",
    evidentlyProjectName := "",
    clickhouseHost := "localhost",
    clickhousePort := 30900,
    clickhouseUser := "default",
    clickhousePassword := "",
    clickhouseDatabase := "yolo_analytics",
    clickhouseTable := "otel_traces",
    referenceClassName := "book",
    referenceMinConfidence := 0.8,
    referenceLimit := 10,
    currentDaysAgo := 7,
    referenceDatasetId := "")

  /** The rules `validate` checks, one per `if`; each stands for the message
      that `validate` appends when the rule is violated. */
  datatype Rule = ApiKeyRequired | DatasetIdRequired | ConfidenceInRange | LimitPositive | DaysPositive

  /** The rules in the order `validate` checks them. */
  const Rules: seq<Rule> := [ApiKeyRequired, DatasetIdRequired, ConfidenceInRange, LimitPositive, DaysPositive]

  function Message(r: Rule): string
  {
    match r
    case ApiKeyRequired => "EVIDENTLY_API_KEY is required"
    case DatasetIdRequired => "REFERENCE_DATASET_ID is required (run create_reference_dataset.py first)"
    case ConfidenceInRange => "REFERENCE_MIN_CONFIDENCE must be between 0 and 1"
    case LimitPositive => "REFERENCE_LIMIT must be positive"
    case DaysPositive => "CURRENT_DAYS_AGO must be positive"
  }

  /** The five messages have five different lengths, so a message names
      its rule. */
  lemma MessageLengthDeterminesRule(a: Rule, b: Rule)
    requires |Message(a)| == |Message(b)|
    ensures a == b
  {
    MessageLength(a);
    MessageLength(b);
  }

  lemma MessageLength(r: Rule)
    ensures |Message(r)| == match r
      case ApiKeyRequired => 29
      case DatasetIdRequired => 72
      case ConfidenceInRange => 48
      case LimitPositive => 32
      case DaysPositive => 33
  {
    match r
    case ApiKeyRequired =>
    case DatasetIdRequired =>
    case ConfidenceInRange =>
    case LimitPositive =>
    case DaysPositive =>
  }

  predicate Violates(s: Settings, r: Rule)
  {
    match r
    case ApiKeyRequired => s.evidentlyApiKey == ""
    case DatasetIdRequired => s.referenceDatasetId == ""
    case ConfidenceInRange => s.referenceMinConfidence < 0.0 || s.referenceMinConfidence > 1.0
    case LimitPositive => s.referenceLimit <= 0
    case DaysPositive => s.currentDaysAgo <= 0
  }

  /** The settings satisfy every rule. */
  predicate IsValid(s: Settings)
  {
    forall r: Rule :: !Violates(s, r)
  }

  /** Where a rule stands in the order `validate` checks the rules. */
  function Rank(r: Rule): nat
  {
    match r
    case ApiKeyRequired => 0
    case DatasetIdRequired => 1
    case ConfidenceInRange => 2
    case LimitPositive => 3
    case DaysPositive => 4
  }

  /** The rule `r` if `s` violates it, else nothing. */
  function Reported(s: Settings, r: Rule): seq<Rule>
  {
    if Violates(s, r) then [r] else []
  }

  /** Each rule of `rules` that `s` violates, in the order of `rules`. */
  function Violations(s: Settings, rules: seq<Rule>): seq<Rule>
  {
    if rules == [] then [] else Violations(s, rules[..|rules| - 1]) + Reported(s, rules[|rules| - 1])
  }

  /** `Config.validate`: every violated rule, in the order the rules are
      checked. A rule stands for its message, `Message(r)`. */
  method Validate(s: Settings) returns (errors: seq<Rule>)
    ensures errors == Violations(s, Rules)
    ensures ApiKeyRequired in errors <==> s.evidentlyApiKey == ""
    ensures DatasetIdRequired in errors <==> s.referenceDatasetId == ""
    ensures ConfidenceInRange in errors <==> s.referenceMinConfidence < 0.0 || s.referenceMinConfidence > 1.0
    ensures LimitPositive in errors <==> s.referenceLimit <= 0
    ensures DaysPositive in errors <==> s.currentDaysAgo <= 0
  {
    errors := [];
    assert Rules[..1][..0] == [];
    if s.evidentlyApiKey == "" {
      errors := errors + [ApiKeyRequired];
    }
    assert errors == Violations(s, Rules[..1]);
    assert Rules[..2][..1] == Rules[..1];
    if s.referenceDatasetId == "" {
      errors := errors + [DatasetIdRequired];
    }
    assert errors == Violations(s, Rules[..2]);
    assert Rules[..3][..2] == Rules[..2];
    if s.referenceMinConfidence < 0.0 || s.referenceMinConfidence > 1.0 {
      errors := errors + [ConfidenceInRange];
    }
    assert errors == Violations(s, Rules[..3]);
    assert Rules[..4][..3] == Rules[..3];
    if s.referenceLimit <= 0 {
      errors := errors + [LimitPositive];
    }
    assert errors == Violations(s, Rules[..4]);
    assert Rules[..4] == Rules[..5][..4] && Rules[..5] == Rules;
    if s.currentDaysAgo <= 0 {
      errors := errors + [DaysPositive];
    }
    assert errors == Violations(s, Rules);
    ValidationFacts(s);
  }

  /** What `validate` reports says about the settings: each rule is reported
      iff violated, in rule order and at most once, and nothing is reported
      iff the settings are valid. */
  lemma ValidationFacts(s: Settings)
    ensures ApiKeyRequired in Violations(s, Rules) <==> s.evidentlyApiKey == ""
    ensures DatasetIdRequired in Violations(s, Rules) <==> s.referenceDatasetId == ""
    ensures ConfidenceInRange in Violations(s, Rules) <==>
              s.referenceMinConfidence < 0.0 || s.referenceMinConfidence > 1.0
    ensures LimitPositive in Violations(s, Rules) <==> s.referenceLimit <= 0
    ensures DaysPositive in Violations(s, Rules) <==> s.currentDaysAgo <= 0
    ensures forall i, j :: 0 <= i < j < |Violations(s, Rules)| ==>
              Rank(Violations(s, Rules)[i]) < Rank(Violations(s, Rules)[j])
    ensures |Violations(s, Rules)| <= |Rules|
    ensures Violations(s, Rules) == [] <==> IsValid(s)
  {
    ReportedIffViolated(s, ApiKeyRequired);
    ReportedIffViolated(s, DatasetIdRequired);
    ReportedIffViolated(s, ConfidenceInRange);
    ReportedIffViolated(s, LimitPositive);
    ReportedIffViolated(s, DaysPositive);
    RulesInRankOrder();
    ViolationsKeepRank(s, Rules);
    ViolationsLength(s, Rules);
    EmptyIffValid(s);
  }

  /** `Rules` lists the rules by rank. */
  lemma RulesInRankOrder()
    ensures forall i, j :: 0 <= i < j < |Rules| ==> Rank(Rules[i]) < Rank(Rules[j])
  {
    assert forall k :: 0 <= k < |Rules| ==> Rank(Rules[k]) == k;
  }

  /** A rule is reported exactly when it is among those checked and the
      settings violate it. */
  lemma {:induction false} ReportedIffViolatedAmong(s: Settings, rules: seq<Rule>, r: Rule)
    ensures r in Violations(s, rules) <==> r in rules && Violates(s, r)
  {
    if rules != [] {
      var n := |rules| - 1;
      ReportedIffViolatedAmong(s, rules[..n], r);
      assert rules == rules[..n] + [rules[n]];
    }
  }

  /** Every rule is checked: it is reported iff it is violated. */
  lemma ReportedIffViolated(s: Settings, r: Rule)
    ensures r in Violations(s, Rules) <==> Violates(s, r)
  {
    ReportedIffViolatedAmong(s, Rules, r);
  }

  /** Reporting keeps the order of the rules checked: if they are listed by
      increasing rank, so are the reports (and none is reported twice). */
  lemma {:induction false} ViolationsKeepRank(s: Settings, rules: seq<Rule>)
    requires forall i, j :: 0 <= i < j < |rules| ==> Rank(rules[i]) < Rank(rules[j])
    ensures forall i, j :: 0 <= i < j < |Violations(s, rules)| ==>
              Rank(Violations(s, rules)[i]) < Rank(Violations(s, rules)[j])
  {
    if rules != [] {
      var n := |rules| - 1;
      ViolationsKeepRank(s, rules[..n]);
      var before := Violations(s, rules[..n]);
      forall k | 0 <= k < |before| ensures Rank(before[k]) < Rank(rules[n]) {
        assert before[k] in before;
        ReportedIffViolatedAmong(s, rules[..n], before[k]);
        var m :| 0 <= m < n && rules[..n][m] == before[k];
        assert rules[m] == before[k];
      }
    }
  }

  /** At most one report per rule checked. */
  lemma {:induction false} ViolationsLength(s: Settings, rules: seq<Rule>)
    ensures |Violations(s, rules)| <= |rules|
  {
    if rules != [] {
      ViolationsLength(s, rules[..|rules| - 1]);
    }
  }

  /** Nothing is reported exactly when every rule holds. */
  lemma EmptyIffValid(s: Settings)
    ensures Violations(s, Rules) == [] <==> IsValid(s)
  {
    if Violations(s, Rules) == [] {
      forall r: Rule ensures !Violates(s, r) {
        ReportedIffViolated(s, r);
      }
    } else {
      var r := Violations(s, Rules)[0];
      ReportedIffViolated(s, r);
    }
  }

  /** With the API key and the reference dataset id set, the defaults
      (minimum confidence 0.8, limit 10, 7 days) pass validation. */
  lemma DefaultsAreValid(apiKey: string, datasetId: string)
    requires apiKey != "" && datasetId != ""
    ensures IsValid(Defaults.(evidentlyApiKey := apiKey, referenceDatasetId := datasetId))
  {
  }

  /** With nothing set, exactly the two required settings are reported, API key first. */
  lemma UnsetDefaultsReportBothRequired()
    ensures Violations(Defaults, Rules) == [ApiKeyRequired, DatasetIdRequired]
  {
    assert Rules[..4][..3] == Rules[..3] && Rules[..3][..2] == Rules[..2];
    assert Rules[..2][..1] == Rules[..1] && Rules[..1][..0] == [];
    assert Violations(Defaults, Rules[..1]) == [ApiKeyRequired];
    assert Violations(Defaults, Rules[..2]) == [ApiKeyRequired, DatasetIdRequired];
    assert Rules[..5] == Rules && Rules[..5][..4] == Rules[..4];
  }

  /** The confidence rule accepts its bounds 0 and 1 themselves. */
  lemma ConfidenceBoundsAccepted(s: Settings)
    requires s.referenceMinConfidence == 0.0 || s.referenceMinConfidence == 1.0
    ensures ConfidenceInRange !in Violations(s, Rules)
  {
    ReportedIffViolated(s, ConfidenceInRange);
  }
}
