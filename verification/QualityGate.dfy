/** Schema and completeness gates of a deal pack
    (examples/pe_risk_platform/quality_gates.py). */
module QualityGate {
  import opened Wrappers
  import opened Json
  import opened Rounding

  type Dict = map<string, Value>

  const REQUIRED_TOP_LEVEL := [
    "deal_id", "deal_name", "sponsor", "strategy", "sector", "transaction", "metrics", "diligence_flags",
    "open_diligence_questions"]

  const REQUIRED_DEBT_FIELDS := [
    "total_leverage_x", "cash_interest_rate_pct", "minimum_interest_coverage_x", "covenant_headroom_x"]

  const REQUIRED_METRICS := [
    "interest_coverage_x", "recurring_revenue_pct", "net_revenue_retention_pct", "top_customer_pct",
    "customer_churn_pct", "qoe_adjustments_pct_ebitda", "free_cash_flow_conversion_pct",
    "working_capital_volatility_pct_sales", "capex_pct_revenue", "end_market_cyclicality_1_to_5",
    "supplier_concentration_pct", "pricing_power_1_to_5", "regulatory_complexity_1_to_5", "open_litigation_count",
    "management_turnover_3y", "finance_team_depth_1_to_5", "board_reporting_maturity_1_to_5",
    "value_creation_dependency_1_to_5", "execution_complexity_1_to_5", "integration_risk_1_to_5"]

  const CRITICAL_FIELDS: seq<seq<string>> := [
    ["transaction", "debt_package", "total_leverage_x"],
    ["metrics", "interest_coverage_x"],
    ["metrics", "recurring_revenue_pct"],
    ["metrics", "net_revenue_retention_pct"],
    ["metrics", "top_customer_pct"],
    ["metrics", "qoe_adjustments_pct_ebitda"],
    ["metrics", "free_cash_flow_conversion_pct"],
    ["metrics", "regulatory_complexity_1_to_5"]]

  /** `dict.get`: an absent key reads like null. */
  function Get(d: Dict, key: string): Value {
    if key in d then d[key] else Null
  }

  function Truthy(v: Value): bool {
    match v
    case Null => false
    case Bool(flag) => flag
    case Num(number) => number != 0.0
    case Str(text) => text != ""
    case Arr(items) => items != []
    case Obj(fields) => fields != map[]
  }

  function PathValue(v: Value, path: seq<string>): Value {
    if path == [] then v
    else if !v.Obj? || path[0] !in v.fields then Null
    else PathValue(v.fields[path[0]], path[1..])
  }

  method GetPath(pack: Dict, path: seq<string>) returns (current: Value)
    ensures current == PathValue(Obj(pack), path)
  {
    current := Obj(pack);
    assert path[0..] == path;
    for i := 0 to |path|
      invariant PathValue(current, path[i..]) == PathValue(Obj(pack), path)
    {
      assert path[i..][1..] == path[i + 1..];
      if !current.Obj? || path[i] !in current.fields {
        return Null;
      }
      current := current.fields[path[i]];
    }
  }

  // ----- Schema -----

  function Absent(prefix: string, fields: seq<string>, d: Dict): seq<string> {
    if fields == [] then []
    else
      var front, last := Absent(prefix, fields[..|fields| - 1], d), fields[|fields| - 1];
      if last in d then front else front + [prefix + last]
  }

  method CollectAbsent(prefix: string, fields: seq<string>, d: Dict) returns (errors: seq<string>)
    ensures errors == Absent(prefix, fields, d)
  {
    errors := [];
    for i := 0 to |fields|
      invariant errors == Absent(prefix, fields[..i], d)
    {
      assert fields[..i + 1][..i] == fields[..i];
      if fields[i] !in d {
        errors := errors + [prefix + fields[i]];
      }
    }
    assert fields[..|fields|] == fields;
  }

  /** The debt package, if the transaction is an object. */
  function DebtOf(pack: Dict): Value {
    var tx := Get(pack, "transaction");
    if tx.Obj? then Get(tx.fields, "debt_package") else Null
  }

  function ListError(pack: Dict, key: string): seq<string> {
    var v := Get(pack, key);
    if v.Null? || v.Arr? then [] else [key + " must be a list"]
  }

  function SchemaErrors(pack: Dict): seq<string> {
    Absent("Missing top-level field: ", REQUIRED_TOP_LEVEL, pack)
    + (match DebtOf(pack)
       case Obj(debt) => Absent("Missing debt field: transaction.debt_package.", REQUIRED_DEBT_FIELDS, debt)
       case _ => ["Missing object: transaction.debt_package"])
    + (match Get(pack, "metrics")
       case Obj(metrics) => Absent("Missing metric field: metrics.", REQUIRED_METRICS, metrics)
       case _ => ["Missing object: metrics"])
    + ListError(pack, "diligence_flags")
    + ListError(pack, "open_diligence_questions")
  }

  /** A message names an absent field, and every absent field is named. */
  lemma {:induction false} AbsentNames(prefix: string, fields: seq<string>, d: Dict, f: string)
    ensures prefix + f in Absent(prefix, fields, d) <==> f in fields && f !in d
    ensures Absent(prefix, fields, d) == [] <==> forall g :: g in fields ==> g in d
  {
    if fields != [] {
      var front, last := fields[..|fields| - 1], fields[|fields| - 1];
      assert fields == front + [last];
      AbsentNames(prefix, front, d, f);
      if prefix + f == prefix + last { assert f == (prefix + f)[|prefix|..] == (prefix + last)[|prefix|..] == last; }
    }
  }

  predicate HasAll(d: Dict, fields: seq<string>) {
    forall f :: f in fields ==> f in d
  }

  /** The key holds a list, or nothing. */
  predicate ListOrNothing(pack: Dict, key: string) {
    key in pack ==> pack[key].Null? || pack[key].Arr?
  }

  /** A pack is valid exactly when every required field is there: at the top, in the debt
      package inside the transaction and in the metrics, both objects, and the two lists are
      lists. */
  lemma ValidIff(pack: Dict)
    ensures SchemaErrors(pack) == [] <==>
              && HasAll(pack, REQUIRED_TOP_LEVEL)
              && "transaction" in pack && pack["transaction"].Obj?
              && "debt_package" in pack["transaction"].fields && pack["transaction"].fields["debt_package"].Obj?
              && HasAll(pack["transaction"].fields["debt_package"].fields, REQUIRED_DEBT_FIELDS)
              && "metrics" in pack && pack["metrics"].Obj? && HasAll(pack["metrics"].fields, REQUIRED_METRICS)
              && ListOrNothing(pack, "diligence_flags") && ListOrNothing(pack, "open_diligence_questions")
  {
    AbsentNames("Missing top-level field: ", REQUIRED_TOP_LEVEL, pack, "");
    var debt, metrics := DebtOf(pack), Get(pack, "metrics");
    if debt.Obj? { AbsentNames("Missing debt field: transaction.debt_package.", REQUIRED_DEBT_FIELDS, debt.fields, ""); }
    if metrics.Obj? { AbsentNames("Missing metric field: metrics.", REQUIRED_METRICS, metrics.fields, ""); }
  }

  method ValidateSchema(pack: Dict) returns (errors: seq<string>)
    ensures errors == SchemaErrors(pack)
  {
    errors := CollectAbsent("Missing top-level field: ", REQUIRED_TOP_LEVEL, pack);
    var debt := DebtOf(pack);
    var more: seq<string>;
    if !debt.Obj? {
      more := ["Missing object: transaction.debt_package"];
    } else {
      more := CollectAbsent("Missing debt field: transaction.debt_package.", REQUIRED_DEBT_FIELDS, debt.fields);
    }
    errors := errors + more;
    var metrics := Get(pack, "metrics");
    if !metrics.Obj? {
      more := ["Missing object: metrics"];
    } else {
      more := CollectAbsent("Missing metric field: metrics.", REQUIRED_METRICS, metrics.fields);
    }
    errors := errors + more;
    errors := errors + ListError(pack, "diligence_flags") + ListError(pack, "open_diligence_questions");
  }

  // ----- Completeness -----

  function Missing(fields: seq<string>, d: Dict): (missing: seq<string>)
    ensures |missing| <= |fields|
  {
    if fields == [] then []
    else
      var front, last := Missing(fields[..|fields| - 1], d), fields[|fields| - 1];
      if Get(d, last).Num? then front else front + [last]
  }

  function MissingPaths(paths: seq<seq<string>>, pack: Dict): (missing: seq<seq<string>>)
    ensures |missing| <= |paths|
  {
    if paths == [] then []
    else
      var front, last := MissingPaths(paths[..|paths| - 1], pack), paths[|paths| - 1];
      if PathValue(Obj(pack), last).Num? then front else front + [last]
  }

  method CollectMissing(fields: seq<string>, d: Dict) returns (present: seq<string>, missing: seq<string>)
    ensures missing == Missing(fields, d) && |present| + |missing| == |fields|
    ensures forall f :: f in present ==> f in fields && Get(d, f).Num?
  {
    present, missing := [], [];
    for i := 0 to |fields|
      invariant missing == Missing(fields[..i], d) && |present| + |missing| == i
      invariant forall f :: f in present ==> f in fields && Get(d, f).Num?
    {
      assert fields[..i + 1][..i] == fields[..i];
      if Get(d, fields[i]).Num? {
        present := present + [fields[i]];
      } else {
        missing := missing + [fields[i]];
      }
    }
    assert fields[..|fields|] == fields;
  }

  method CollectMissingPaths(paths: seq<seq<string>>, pack: Dict) returns (present: seq<seq<string>>, missing: seq<seq<string>>)
    ensures missing == MissingPaths(paths, pack) && |present| + |missing| == |paths|
  {
    present, missing := [], [];
    for i := 0 to |paths|
      invariant missing == MissingPaths(paths[..i], pack) && |present| + |missing| == i
    {
      assert paths[..i + 1][..i] == paths[..i];
      var value := GetPath(pack, paths[i]);
      if value.Num? {
        present := present + [paths[i]];
      } else {
        missing := missing + [paths[i]];
      }
    }
    assert paths[..|paths|] == paths;
  }

  datatype Completeness = Completeness(
    overall: real,
    missingDebt: seq<string>,
    missingMetrics: seq<string>,
    missingCritical: seq<seq<string>>)

  /** `value or {}` followed by `.get`: a truthy value that is no dictionary raises. */
  function Defaulted(v: Value): Result<Dict, string> {
    if !Truthy(v) then Ok(map[])
    else if v.Obj? then Ok(v.fields)
    else Err("AttributeError")
  }

  function Coverage(missing: nat, total: nat): real
    requires missing <= total && total > 0
  {
    (total - missing) as real / total as real
  }

  function Overall(debt: nat, metrics: nat, critical: nat): real
    requires debt <= 4 && metrics <= 20 && critical <= 8
  {
    0.35 * Coverage(debt, 4) + 0.45 * Coverage(metrics, 20) + 0.20 * Coverage(critical, 8)
  }

  function CompletenessOf(pack: Dict): Result<Completeness, string> {
    match Defaulted(Get(pack, "transaction"))
    case Err(e) => Err(e)
    case Ok(tx) =>
      match Defaulted(Get(tx, "debt_package"))
      case Err(e) => Err(e)
      case Ok(debt) =>
        match Defaulted(Get(pack, "metrics"))
        case Err(e) => Err(e)
        case Ok(metrics) =>
          var d, m := Missing(REQUIRED_DEBT_FIELDS, debt), Missing(REQUIRED_METRICS, metrics);
          var c := MissingPaths(CRITICAL_FIELDS, pack);
          Ok(Completeness(Round3(Overall(|d|, |m|, |c|)), d, m, c))
  }

  /** The weighted coverage, from the fields that are there. */
  function OverallOf(debt: nat, metrics: nat, critical: nat): real {
    0.35 * (debt as real / 4.0) + 0.45 * (metrics as real / 20.0) + 0.20 * (critical as real / 8.0)
  }

  lemma OverallFromMissing(debt: nat, metrics: nat, critical: nat)
    requires debt <= 4 && metrics <= 20 && critical <= 8
    ensures OverallOf(debt, metrics, critical) == Overall(4 - debt, 20 - metrics, 8 - critical)
    ensures |REQUIRED_DEBT_FIELDS| == 4 && |REQUIRED_METRICS| == 20 && |CRITICAL_FIELDS| == 8
  {
  }

  method ComputeCompleteness(pack: Dict) returns (r: Result<Completeness, string>)
    ensures r == CompletenessOf(pack)
  {
    var tx := Defaulted(Get(pack, "transaction"));
    if tx.Err? {
      return Err(tx.error);
    }
    var debt := Defaulted(Get(tx.value, "debt_package"));
    if debt.Err? {
      return Err(debt.error);
    }
    var metrics := Defaulted(Get(pack, "metrics"));
    if metrics.Err? {
      return Err(metrics.error);
    }
    var presentDebt, missingDebt := CollectMissing(REQUIRED_DEBT_FIELDS, debt.value);
    var presentMetrics, missingMetrics := CollectMissing(REQUIRED_METRICS, metrics.value);
    var presentCritical, missingCritical := CollectMissingPaths(CRITICAL_FIELDS, pack);
    var overall := OverallOf(|presentDebt|, |presentMetrics|, |presentCritical|);
    OverallFromMissing(|presentDebt|, |presentMetrics|, |presentCritical|);
    return Ok(Completeness(Round3(overall), missingDebt, missingMetrics, missingCritical));
  }

  // ----- The gate -----

  datatype GateError =
    | Schema(text: string)
    | CoverageBelow(overall: real, threshold: real)
    | CriticalMissing(paths: seq<seq<string>>)

  function SchemaGateErrors(errors: seq<string>): (r: seq<GateError>)
    ensures |r| == |errors|
  {
    seq(|errors|, i requires 0 <= i < |errors| => Schema(errors[i]))
  }

  function CompletenessErrors(c: Completeness, threshold: real, requireCritical: bool): seq<GateError> {
    (if c.overall < threshold then [CoverageBelow(c.overall, threshold)] else [])
    + (if requireCritical && c.missingCritical != [] then [CriticalMissing(c.missingCritical)] else [])
  }

  /** The gate errors; none means passed. The completeness check may raise. */
  function Gate(pack: Dict, threshold: real, requireCritical: bool): Result<seq<GateError>, string> {
    match CompletenessOf(pack)
    case Err(e) => Err(e)
    case Ok(c) =>
      Ok(SchemaGateErrors(SchemaErrors(pack)) + CompletenessErrors(c, threshold, requireCritical))
  }

  predicate Passes(pack: Dict, threshold: real, requireCritical: bool) {
    Gate(pack, threshold, requireCritical) == Ok([])
  }

  method CollectGateErrors(pack: Dict, threshold: real, requireCritical: bool) returns (r: Result<seq<GateError>, string>)
    ensures r == Gate(pack, threshold, requireCritical)
  {
    var schema := ValidateSchema(pack);
    var completeness := ComputeCompleteness(pack);
    if completeness.Err? {
      return Err(completeness.error);
    }
    var c := completeness.value;
    var errors: seq<GateError> := [];
    if c.overall < threshold {
      errors := errors + [CoverageBelow(c.overall, threshold)];
    }
    if requireCritical && c.missingCritical != [] {
      errors := errors + [CriticalMissing(c.missingCritical)];
    }
    assert errors == CompletenessErrors(c, threshold, requireCritical);
    return Ok(SchemaGateErrors(schema) + errors);
  }

  // ----- What passing means -----

  /** Every required field of the debt package and of the metrics is a number. */
  predicate AllNumbers(pack: Dict) {
    && DebtOf(pack).Obj? && Get(pack, "metrics").Obj?
    && (forall f :: f in REQUIRED_DEBT_FIELDS ==> Get(DebtOf(pack).fields, f).Num?)
    && (forall f :: f in REQUIRED_METRICS ==> Get(Get(pack, "metrics").fields, f).Num?)
  }

  lemma {:induction false} MissingPathMembers(paths: seq<seq<string>>, pack: Dict)
    ensures forall p :: p in MissingPaths(paths, pack) <==> p in paths && !PathValue(Obj(pack), p).Num?
  {
    if paths != [] {
      var front, last := paths[..|paths| - 1], paths[|paths| - 1];
      MissingPathMembers(front, pack);
      assert paths == front + [last];
    }
  }

  lemma NoneMissing(fields: seq<string>, d: Dict)
    ensures Missing(fields, d) == [] <==> forall f :: f in fields ==> Get(d, f).Num?
  {
  }

  /** A valid schema rules out the exceptions of the completeness check. */
  lemma SchemaRulesOutErrors(pack: Dict)
    requires SchemaErrors(pack) == []
    ensures DebtOf(pack).Obj? && Get(pack, "metrics").Obj?
    ensures var d, m := Missing(REQUIRED_DEBT_FIELDS, DebtOf(pack).fields), Missing(REQUIRED_METRICS, Get(pack, "metrics").fields);
            var c := MissingPaths(CRITICAL_FIELDS, pack);
            CompletenessOf(pack) == Ok(Completeness(Round3(Overall(|d|, |m|, |c|)), d, m, c))
  {
  }

  /** The critical fields are among the required ones. */
  lemma CriticalIsRequired(p: seq<string>)
    requires p in CRITICAL_FIELDS
    ensures (|p| == 2 && p[0] == "metrics" && p[1] in REQUIRED_METRICS)
         || (|p| == 3 && p[0] == "transaction" && p[1] == "debt_package" && p[2] in REQUIRED_DEBT_FIELDS)
  {
  }

  lemma PathOfOne(d: Dict, p: seq<string>)
    requires p != []
    ensures |p| == 1 ==> PathValue(Obj(d), p) == Get(d, p[0])
    ensures |p| > 1 && Get(d, p[0]).Obj? ==> PathValue(Obj(d), p) == PathValue(Get(d, p[0]), p[1..])
  {
  }

  lemma CriticalValue(pack: Dict, p: seq<string>)
    requires |p| == 2 || |p| == 3
    ensures |p| == 2 && p[0] == "metrics" && Get(pack, "metrics").Obj? ==>
              PathValue(Obj(pack), p) == Get(Get(pack, "metrics").fields, p[1])
    ensures |p| == 3 && p[0] == "transaction" && p[1] == "debt_package" && DebtOf(pack).Obj? ==>
              PathValue(Obj(pack), p) == Get(DebtOf(pack).fields, p[2])
  {
    PathOfOne(pack, p);
    if Get(pack, p[0]).Obj? {
      var d := Get(pack, p[0]).fields;
      PathOfOne(d, p[1..]);
      if |p| == 3 && Get(d, p[1]).Obj? { PathOfOne(Get(d, p[1]).fields, p[1..][1..]); }
    }
  }

  lemma NoCriticalMissing(pack: Dict)
    requires AllNumbers(pack)
    ensures MissingPaths(CRITICAL_FIELDS, pack) == []
  {
    MissingPathMembers(CRITICAL_FIELDS, pack);
    var missing := MissingPaths(CRITICAL_FIELDS, pack);
    if missing != [] {
      var p := missing[0];
      assert p in missing;
      CriticalIsRequired(p);
      CriticalValue(pack, p);
      assert false;
    }
  }

  /** One missing field costs more than rounding to three places can give back. */
  lemma MissingIsNotRoundedAway(debt: nat, metrics: nat, critical: nat)
    requires debt <= 4 && metrics <= 20 && critical <= 8
    ensures debt + metrics > 0 ==> Round3(Overall(debt, metrics, critical)) <= 0.978
    ensures debt + metrics + critical == 0 ==> Round3(Overall(debt, metrics, critical)) == 1.0
  {
  }

  lemma PassesIffNoErrors(pack: Dict, threshold: real, requireCritical: bool)
    ensures Passes(pack, threshold, requireCritical) <==>
              && SchemaErrors(pack) == [] && CompletenessOf(pack).Ok?
              && CompletenessOf(pack).value.overall >= threshold
              && (requireCritical ==> CompletenessOf(pack).value.missingCritical == [])
  {
  }

  /** At threshold one, and at every threshold above 0.978, the gate passes exactly when the
      schema is valid and every required debt and metric field is a number. */
  lemma PassesIffComplete(pack: Dict, threshold: real, requireCritical: bool)
    requires 0.978 < threshold <= 1.0
    ensures Passes(pack, threshold, requireCritical) <==> SchemaErrors(pack) == [] && AllNumbers(pack)
  {
    PassesIffNoErrors(pack, threshold, requireCritical);
    if SchemaErrors(pack) == [] { ValidPackComplete(pack); }
  }

  lemma NoNumberMissing(pack: Dict)
    requires DebtOf(pack).Obj? && Get(pack, "metrics").Obj?
    ensures AllNumbers(pack) <==>
              Missing(REQUIRED_DEBT_FIELDS, DebtOf(pack).fields) == [] && Missing(REQUIRED_METRICS, Get(pack, "metrics").fields) == []
  {
    NoneMissing(REQUIRED_DEBT_FIELDS, DebtOf(pack).fields);
    NoneMissing(REQUIRED_METRICS, Get(pack, "metrics").fields);
  }

  /** With a valid schema the coverage tells whether a required number is missing. */
  lemma ValidPackComplete(pack: Dict)
    requires SchemaErrors(pack) == []
    ensures CompletenessOf(pack).Ok?
    ensures AllNumbers(pack) ==> CompletenessOf(pack).value.overall == 1.0 && CompletenessOf(pack).value.missingCritical == []
    ensures !AllNumbers(pack) ==> CompletenessOf(pack).value.overall <= 0.978
  {
    SchemaRulesOutErrors(pack);
    var debt, metrics := Missing(REQUIRED_DEBT_FIELDS, DebtOf(pack).fields), Missing(REQUIRED_METRICS, Get(pack, "metrics").fields);
    NoNumberMissing(pack);
    if AllNumbers(pack) { NoCriticalMissing(pack); }
    MissingIsNotRoundedAway(|debt|, |metrics|, |MissingPaths(CRITICAL_FIELDS, pack)|);
  }

  // ----- Filling in a field -----

  /** The pack with one more number among its metrics, or in its debt package. */
  function FillMetric(pack: Dict, field: string, number: real): Dict
    requires Get(pack, "metrics").Obj?
  {
    pack["metrics" := Obj(pack["metrics"].fields[field := Num(number)])]
  }

  function FillDebt(pack: Dict, field: string, number: real): Dict
    requires DebtOf(pack).Obj?
  {
    var tx := pack["transaction"].fields;
    pack["transaction" := Obj(tx["debt_package" := Obj(tx["debt_package"].fields[field := Num(number)])])]
  }

  /** Whatever is a number or an object in `d` is one in `d'`, and no key is lost. */
  predicate Fuller(d: Dict, d': Dict) {
    && d.Keys <= d'.Keys
    && (forall k :: k in d && d[k].Num? ==> d'[k].Num?)
  }

  lemma {:induction false} FullerMissing(fields: seq<string>, d: Dict, d': Dict)
    requires Fuller(d, d')
    ensures |Missing(fields, d')| <= |Missing(fields, d)|
  {
    if fields != [] { FullerMissing(fields[..|fields| - 1], d, d'); }
  }

  lemma {:induction false} FullerAbsent(prefix: string, fields: seq<string>, d: Dict, d': Dict)
    requires Fuller(d, d') && Absent(prefix, fields, d) == []
    ensures Absent(prefix, fields, d') == []
  {
    if fields != [] { FullerAbsent(prefix, fields[..|fields| - 1], d, d'); }
  }

  /** `pack'` has at least the fields of `pack`, in the parts the gate looks at. */
  predicate FullerPack(pack: Dict, pack': Dict) {
    && Fuller(pack, pack')
    && DebtOf(pack).Obj? && DebtOf(pack').Obj? && Fuller(DebtOf(pack).fields, DebtOf(pack').fields)
    && Get(pack, "metrics").Obj? && Get(pack', "metrics").Obj?
    && Fuller(Get(pack, "metrics").fields, Get(pack', "metrics").fields)
    && Get(pack', "diligence_flags") == Get(pack, "diligence_flags")
    && Get(pack', "open_diligence_questions") == Get(pack, "open_diligence_questions")
  }

  lemma {:induction false} FullerCritical(pack: Dict, pack': Dict, paths: seq<seq<string>>)
    requires FullerPack(pack, pack') && forall p :: p in paths ==> p in CRITICAL_FIELDS
    ensures |MissingPaths(paths, pack')| <= |MissingPaths(paths, pack)|
  {
    if paths != [] {
      var p := paths[|paths| - 1];
      FullerCritical(pack, pack', paths[..|paths| - 1]);
      CriticalIsRequired(p);
      CriticalValue(pack, p);
      CriticalValue(pack', p);
    }
  }

  lemma OverallMonotone(debt: nat, metrics: nat, critical: nat, debt': nat, metrics': nat, critical': nat)
    requires debt' <= debt <= 4 && metrics' <= metrics <= 20 && critical' <= critical <= 8
    ensures Round3(Overall(debt, metrics, critical)) <= Round3(Overall(debt', metrics', critical'))
  {
    Round3Monotone(Overall(debt, metrics, critical), Overall(debt', metrics', critical'));
  }

  /** A fuller pack passes every gate that the emptier one passes. */
  lemma FullerStillPasses(pack: Dict, pack': Dict, threshold: real, requireCritical: bool)
    requires Passes(pack, threshold, requireCritical) && FullerPack(pack, pack')
    ensures Passes(pack', threshold, requireCritical)
  {
    PassesIffNoErrors(pack, threshold, requireCritical);
    PassesIffNoErrors(pack', threshold, requireCritical);
    var debt, debt' := DebtOf(pack).fields, DebtOf(pack').fields;
    var metrics, metrics' := Get(pack, "metrics").fields, Get(pack', "metrics").fields;
    FullerMissing(REQUIRED_DEBT_FIELDS, debt, debt');
    FullerMissing(REQUIRED_METRICS, metrics, metrics');
    FullerSchema(pack, pack');
    SchemaRulesOutErrors(pack);
    SchemaRulesOutErrors(pack');
    FullerCritical(pack, pack', CRITICAL_FIELDS);
    OverallMonotone(
      |Missing(REQUIRED_DEBT_FIELDS, debt)|, |Missing(REQUIRED_METRICS, metrics)|, |MissingPaths(CRITICAL_FIELDS, pack)|,
      |Missing(REQUIRED_DEBT_FIELDS, debt')|, |Missing(REQUIRED_METRICS, metrics')|, |MissingPaths(CRITICAL_FIELDS, pack')|);
  }

  lemma FullerSchema(pack: Dict, pack': Dict)
    requires FullerPack(pack, pack') && SchemaErrors(pack) == []
    ensures SchemaErrors(pack') == []
  {
    FullerAbsent("Missing top-level field: ", REQUIRED_TOP_LEVEL, pack, pack');
    FullerAbsent("Missing debt field: transaction.debt_package.", REQUIRED_DEBT_FIELDS,
                 DebtOf(pack).fields, DebtOf(pack').fields);
    FullerAbsent("Missing metric field: metrics.", REQUIRED_METRICS,
                 Get(pack, "metrics").fields, Get(pack', "metrics").fields);
  }

  lemma FilledIsFuller(pack: Dict, field: string, number: real)
    requires DebtOf(pack).Obj? && Get(pack, "metrics").Obj?
    ensures FullerPack(pack, FillMetric(pack, field, number)) && FullerPack(pack, FillDebt(pack, field, number))
  {
  }

  /** Filling in a metric or a debt field never turns a pass into a failure, at any threshold. */
  lemma FillingKeepsThePass(pack: Dict, field: string, number: real, threshold: real, requireCritical: bool)
    requires Passes(pack, threshold, requireCritical)
    ensures Get(pack, "metrics").Obj? && DebtOf(pack).Obj?
    ensures Passes(FillMetric(pack, field, number), threshold, requireCritical)
    ensures Passes(FillDebt(pack, field, number), threshold, requireCritical)
  {
    FilledIsFuller(pack, field, number);
    FullerStillPasses(pack, FillMetric(pack, field, number), threshold, requireCritical);
    FullerStillPasses(pack, FillDebt(pack, field, number), threshold, requireCritical);
  }

  /** A value that stands where an object belongs: neither empty nor an object. */
  predicate Misplaced(v: Value) {
    Truthy(v) && !v.Obj?
  }

  predicate MisplacedPart(pack: Dict) {
    || Misplaced(Get(pack, "transaction"))
    || (Get(pack, "transaction").Obj? && Misplaced(Get(Get(pack, "transaction").fields, "debt_package")))
    || Misplaced(Get(pack, "metrics"))
  }

  /** The gate raises, instead of failing, exactly when the transaction, the debt package
      inside an object transaction, or the metrics are a value that is neither empty nor an
      object; and each of these is also an error of the schema check. */
  lemma GateRaisesIff(pack: Dict, threshold: real, requireCritical: bool)
    ensures Gate(pack, threshold, requireCritical).Err? <==> MisplacedPart(pack)
    ensures Misplaced(Get(pack, "transaction")) || (Get(pack, "transaction").Obj? && Misplaced(DebtOf(pack))) ==>
              "Missing object: transaction.debt_package" in SchemaErrors(pack)
    ensures Misplaced(Get(pack, "metrics")) ==> "Missing object: metrics" in SchemaErrors(pack)
  {
    PartErrors(pack);
  }

  lemma PartErrors(pack: Dict)
    ensures !DebtOf(pack).Obj? ==> "Missing object: transaction.debt_package" in SchemaErrors(pack)
    ensures !Get(pack, "metrics").Obj? ==> "Missing object: metrics" in SchemaErrors(pack)
  {
  }

  /** The gate as it runs: it raises exactly on a misplaced part, passes a pack only if its
      schema is valid, and near threshold one passes exactly the complete packs. */
  method RunGate(pack: Dict, threshold: real, requireCritical: bool) returns (r: Result<seq<GateError>, string>)
    ensures r == Gate(pack, threshold, requireCritical)
    ensures r.Err? <==> MisplacedPart(pack)
    ensures r == Ok([]) ==> SchemaErrors(pack) == []
    ensures 0.978 < threshold <= 1.0 ==> (r == Ok([]) <==> SchemaErrors(pack) == [] && AllNumbers(pack))
  {
    GateRaisesIff(pack, threshold, requireCritical);
    PassesIffNoErrors(pack, threshold, requireCritical);
    if 0.978 < threshold <= 1.0 { PassesIffComplete(pack, threshold, requireCritical); }
    r := CollectGateErrors(pack, threshold, requireCritical);
  }
}
