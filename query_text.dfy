/** The SQL text `get_yolo_predictions_data` sends to the warehouse: the
    fixed SELECT, then the clauses appended one at a time. Reading the text
    back recovers the clauses, so the warehouse runs exactly the plan the
    arguments asked for. */
module QueryText {
  import opened Outcomes
  import opened Text
  import opened Telemetry

  /** The SELECT list and FROM keyword, with the source's indentation. */
  const SelectHead: string :=
    "\n        SELECT \n            Timestamp,\n"
    + "            SpanAttributes['prediction_id'] as prediction_id,\n"
    + "            SpanAttributes['processing_time_seconds'] as processing_time,\n"
    + "            SpanAttributes['filename'] as filename,\n"
    + "            SpanAttributes['model_name'] as model_name,\n"
    + "            arrayJoin(Events.Attributes)['class_name'] as class_name,\n"
    + "            arrayJoin(Events.Attributes)['confidence'] as confidence,\n"
    + "            arrayJoin(Events.Attributes)['object_index'] as object_index\n"
    + "        FROM "

  const WhereTail: string := "\n        WHERE SpanName = 'yolo_prediction'\n        "

  const UpperBoundHead: string := " AND Timestamp <= now() - INTERVAL "
  const LowerBoundHead: string := " AND Timestamp >= now() - INTERVAL "
  const HourWord: string := " HOUR"
  const OrderClause: string := " ORDER BY Timestamp DESC"
  const LimitHead: string := " LIMIT "

  /** `f"{database}.{table}"`. */
  function TableName(database: string, table: string): string
  {
    database + "." + table
  }

  function BaseQuery(tableName: string): string
  {
    SelectHead + tableName + WhereTail
  }

  /** The query with the two bounds of the 24-hour slice ending `h` hours
      ago appended. */
  function WithWindow(query: string, h: int): string
  {
    query + UpperBoundHead + IntToString(h) + HourWord + LowerBoundHead + IntToString(h + 24) + HourWord
  }

  function WithLimit(query: string, n: nat): string
  {
    query + LimitHead + NatToString(n)
  }

  /** The query text for a plan. */
  function Render(tableName: string, plan: PredictionsPlan): string
  {
    var base := BaseQuery(tableName);
    var windowed := if plan.hoursAgo.Some? then WithWindow(base, plan.hoursAgo.value) else base;
    var ordered := windowed + OrderClause;
    if plan.limit.Some? then WithLimit(ordered, plan.limit.value) else ordered
  }

  /** The query text `get_yolo_predictions_data` builds, appended clause by
      clause as the source does: the window only for a truthy `hours_ago`,
      ORDER BY always and before the LIMIT, the LIMIT only for a truthy
      `limit`. */
  method BuildPredictionsQuery(database: string, table: string, hoursAgo: Option<int>, limit: Option<nat>)
    returns (query: string)
    ensures query == Render(TableName(database, table), PlanFor(hoursAgo, limit))
  {
    var tableName := database + "." + table;
    query := SelectHead + tableName + WhereTail;
    if hoursAgo.Some? && hoursAgo.value != 0 {
      query := query + UpperBoundHead + IntToString(hoursAgo.value) + HourWord;
      query := query + LowerBoundHead + IntToString(hoursAgo.value + 24) + HourWord;
    }
    query := query + OrderClause;
    if limit.Some? && limit.value != 0 {
      query := query + LimitHead + NatToString(limit.value);
    }
  }

  // ---------------------------------------------------------------------
  // Reading the text back

  /** The text after `prefix`, if `s` starts with it. */
  function After(prefix: string, s: string): (r: Option<string>)
    ensures r.Some? ==> s == prefix + r.value
  {
    if |prefix| <= |s| && s[..|prefix|] == prefix then Some(s[|prefix|..]) else None
  }

  /** The optional time slice at the front of `s`, and the text after it. */
  function ParseWindow(s: string): Option<(Option<int>, string)>
  {
    match After(UpperBoundHead, s)
    case None => Some((None, s))
    case Some(t1) =>
      match ReadInt(t1)
      case None => None
      case Some((h, t2)) =>
        match After(HourWord, t2)
        case None => None
        case Some(t3) =>
          match After(LowerBoundHead, t3)
          case None => None
          case Some(t4) =>
            match ReadInt(t4)
            case None => None
            case Some((lower, t5)) =>
              if lower != h + 24 then None
              else
                match After(HourWord, t5)
                case None => None
                case Some(t6) => Some((Some(h), t6))
  }

  /** The optional LIMIT, which must end the text. */
  function ParseLimit(s: string): Option<Option<nat>>
  {
    if s == [] then Some(None)
    else
      match After(LimitHead, s)
      case None => None
      case Some(t) =>
        match ReadInt(t)
        case None => None
        case Some((n, rest)) => if rest == [] && n >= 0 then Some(Some(n as nat)) else None
  }

  /** The plan a predictions query over `tableName` encodes, if the text has
      that shape. */
  function ParsePredictionsQuery(tableName: string, q: string): Option<PredictionsPlan>
  {
    match After(BaseQuery(tableName), q)
    case None => None
    case Some(s1) =>
      match ParseWindow(s1)
      case None => None
      case Some((hoursAgo, s2)) =>
        match After(OrderClause, s2)
        case None => None
        case Some(s3) =>
          match ParseLimit(s3)
          case None => None
          case Some(limit) => Some(PredictionsPlan(hoursAgo, limit))
  }

  lemma AfterPrefix(prefix: string, rest: string)
    ensures After(prefix, prefix + rest) == Some(rest)
  {
    assert (prefix + rest)[..|prefix|] == prefix;
    assert (prefix + rest)[|prefix|..] == rest;
  }

  lemma Regroup(a: string, b: string, c: string)
    ensures a + b + c == a + (b + c)
  {
  }

  /** The first characters the proofs rely on: every clause starts with a
      blank, and ORDER BY differs from the window's first clause at once. */
  lemma ClauseLetters()
    ensures HourWord[0] == ' ' && OrderClause[0] == ' '
    ensures OrderClause[1] == 'O' && UpperBoundHead[1] == 'A'
  {
  }

  /** Text that starts with the ORDER BY clause has no time slice. */
  lemma ParseWindowOfOrder(rest: string)
    ensures ParseWindow(OrderClause + rest) == Some((None, OrderClause + rest))
  {
    var s := OrderClause + rest;
    ClauseLetters();
    if |UpperBoundHead| <= |s| {
      assert s[..|UpperBoundHead|][1] == s[1] == OrderClause[1];
    }
  }

  /** The time slice is read back with its hour count. */
  lemma ParseWindowOfClauses(h: int, rest: string)
    ensures ParseWindow(WithWindow([], h) + rest) == Some((Some(h), rest))
  {
    var a := IntToString(h);
    var b := IntToString(h + 24);
    var t6 := rest;
    var t5 := HourWord + t6;
    var t4 := b + t5;
    var t3 := LowerBoundHead + t4;
    var t2 := HourWord + t3;
    var t1 := a + t2;
    WindowRegroup(h, rest);
    ClauseLetters();
    AfterPrefix(UpperBoundHead, t1);
    ReadIntOfIntToString(h, t2);
    AfterPrefix(HourWord, t3);
    AfterPrefix(LowerBoundHead, t4);
    ReadIntOfIntToString(h + 24, t5);
    AfterPrefix(HourWord, t6);
  }

  lemma WindowRegroup(h: int, rest: string)
    ensures WithWindow([], h) + rest
            == UpperBoundHead + (IntToString(h) + (HourWord + (LowerBoundHead + (IntToString(h + 24) + (HourWord + rest)))))
  {
    var a := IntToString(h);
    var b := IntToString(h + 24);
    assert [] + UpperBoundHead == UpperBoundHead;
    Regroup(UpperBoundHead + a + HourWord + LowerBoundHead + b, HourWord, rest);
    Regroup(UpperBoundHead + a + HourWord + LowerBoundHead, b, HourWord + rest);
    Regroup(UpperBoundHead + a + HourWord, LowerBoundHead, b + (HourWord + rest));
    Regroup(UpperBoundHead + a, HourWord, LowerBoundHead + (b + (HourWord + rest)));
    Regroup(UpperBoundHead, a, HourWord + (LowerBoundHead + (b + (HourWord + rest))));
  }

  /** Appending the window to a query is appending its text. */
  lemma WithWindowAppends(query: string, h: int)
    ensures WithWindow(query, h) == query + WithWindow([], h)
  {
    var a := IntToString(h);
    var b := IntToString(h + 24);
    assert [] + UpperBoundHead == UpperBoundHead;
    Regroup(query, UpperBoundHead, a);
    Regroup(query, UpperBoundHead + a, HourWord);
    Regroup(query, UpperBoundHead + a + HourWord, LowerBoundHead);
    Regroup(query, UpperBoundHead + a + HourWord + LowerBoundHead, b);
    Regroup(query, UpperBoundHead + a + HourWord + LowerBoundHead + b, HourWord);
  }

  /** The LIMIT clause is read back with its count. */
  lemma ParseLimitOfClause(n: nat)
    ensures ParseLimit(LimitHead + NatToString(n)) == Some(Some(n))
  {
    AfterPrefix(LimitHead, NatToString(n));
    ReadIntOfIntToString(n, []);
    assert NatToString(n) + [] == NatToString(n);
  }

  /** Reading back the text of a plan gives the plan: the text encodes the
      time slice and the LIMIT exactly, and nothing else. */
  lemma ParseOfRender(tableName: string, plan: PredictionsPlan)
    ensures ParsePredictionsQuery(tableName, Render(tableName, plan)) == Some(plan)
  {
    var base := BaseQuery(tableName);
    var window := if plan.hoursAgo.Some? then WithWindow([], plan.hoursAgo.value) else [];
    var limit := if plan.limit.Some? then LimitHead + NatToString(plan.limit.value) else [];
    var s2 := OrderClause + limit;
    var s1 := window + s2;
    RenderSplits(tableName, plan);
    AfterPrefix(base, s1);
    assert After(base, Render(tableName, plan)) == Some(s1);
    if plan.hoursAgo.Some? {
      ParseWindowOfClauses(plan.hoursAgo.value, s2);
    } else {
      assert s1 == s2;
      ParseWindowOfOrder(limit);
    }
    assert ParseWindow(s1) == Some((plan.hoursAgo, s2));
    AfterPrefix(OrderClause, limit);
    assert After(OrderClause, s2) == Some(limit);
    if plan.limit.Some? {
      ParseLimitOfClause(plan.limit.value);
    }
    assert ParseLimit(limit) == Some(plan.limit);
  }

  /** The text of a plan is the base query, the window, ORDER BY and the
      LIMIT, one after the other. */
  lemma RenderSplits(tableName: string, plan: PredictionsPlan)
    ensures Render(tableName, plan)
            == BaseQuery(tableName)
               + ((if plan.hoursAgo.Some? then WithWindow([], plan.hoursAgo.value) else [])
                  + (OrderClause + (if plan.limit.Some? then LimitHead + NatToString(plan.limit.value) else [])))
  {
    var base := BaseQuery(tableName);
    var window := if plan.hoursAgo.Some? then WithWindow([], plan.hoursAgo.value) else [];
    var limit := if plan.limit.Some? then LimitHead + NatToString(plan.limit.value) else [];
    if plan.hoursAgo.Some? {
      WithWindowAppends(base, plan.hoursAgo.value);
    } else {
      assert base + window == base;
    }
    Regroup(base + window, OrderClause, limit);
    if plan.limit.Some? {
      Regroup(base + window + OrderClause, LimitHead, NatToString(plan.limit.value));
    } else {
      assert base + window + OrderClause + limit == base + window + OrderClause;
    }
    Regroup(base, window, OrderClause + limit);
  }

  /** The built text carries a time slice iff `hours_ago` is truthy and a
      LIMIT iff `limit` is truthy, with the very values given. */
  lemma BuiltQueryEncodesArguments(database: string, table: string, hoursAgo: Option<int>, limit: Option<nat>)
    ensures ParsePredictionsQuery(TableName(database, table), Render(TableName(database, table), PlanFor(hoursAgo, limit)))
            == Some(PredictionsPlan(
                 if Truthy(hoursAgo) then hoursAgo else None,
                 if limit.Some? && limit.value != 0 then limit else None))
  {
    ParseOfRender(TableName(database, table), PlanFor(hoursAgo, limit));
  }
}
