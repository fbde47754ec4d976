/** Deterministic risk scoring of a deal pack
    (examples/pe_risk_platform/scoring_engine.py). */
module RiskScoring {
  import opened Wrappers
  import opened Json
  import opened Rounding
  import QualityGate

  // ----- Bucket lookups -----

  datatype Bucket = Bucket(bound: real, score: real)

  /** The score of the first bucket whose bound the value does not exceed, or of the last. */
  function Upper(value: real, buckets: seq<Bucket>): real
    requires buckets != []
  {
    if |buckets| == 1 || value <= buckets[0].bound then buckets[0].score else Upper(value, buckets[1..])
  }

  /** The score of the first bucket whose bound the value reaches, or of the last. */
  function Lower(value: real, buckets: seq<Bucket>): real
    requires buckets != []
  {
    if |buckets| == 1 || value >= buckets[0].bound then buckets[0].score else Lower(value, buckets[1..])
  }

  /** The index of the bucket a lookup takes: the first whose bound lets the value in, or the
      last. */
  ghost predicate TakesBucket(lets: Bucket -> bool, buckets: seq<Bucket>, score: real) {
    exists i: nat :: i < |buckets| && FirstToLet(lets, buckets, i) && score == buckets[i].score
  }

  predicate FirstToLet(lets: Bucket -> bool, buckets: seq<Bucket>, i: nat)
    requires i < |buckets|
  {
    && (forall j :: 0 <= j < i ==> !lets(buckets[j]))
    && (lets(buckets[i]) || i == |buckets| - 1)
  }

  lemma TailTakes(lets: Bucket -> bool, buckets: seq<Bucket>, score: real)
    requires |buckets| > 1 && !lets(buckets[0]) && TakesBucket(lets, buckets[1..], score)
    ensures TakesBucket(lets, buckets, score)
  {
    var i: nat :| i < |buckets[1..]| && FirstToLet(lets, buckets[1..], i) && score == buckets[1..][i].score;
    assert FirstToLet(lets, buckets, i + 1) by {
      forall j | 0 <= j < i + 1 ensures !lets(buckets[j]) { if j > 0 { assert buckets[1..][j - 1] == buckets[j]; } }
    }
  }

  /** A value on a bound belongs to that bucket. */
  lemma {:induction false} LookupsTakeTheFirst(value: real, buckets: seq<Bucket>)
    requires buckets != []
    ensures TakesBucket((b: Bucket) => value <= b.bound, buckets, Upper(value, buckets))
    ensures TakesBucket((b: Bucket) => value >= b.bound, buckets, Lower(value, buckets))
  {
    var below, above := (b: Bucket) => value <= b.bound, (b: Bucket) => value >= b.bound;
    if |buckets| > 1 { LookupsTakeTheFirst(value, buckets[1..]); }
    if |buckets| == 1 || below(buckets[0]) { assert FirstToLet(below, buckets, 0); }
    else { TailTakes(below, buckets, Upper(value, buckets)); }
    if |buckets| == 1 || above(buckets[0]) { assert FirstToLet(above, buckets, 0); }
    else { TailTakes(above, buckets, Lower(value, buckets)); }
  }

  method ScoreFromUpperBounds(value: real, buckets: seq<Bucket>) returns (score: real)
    requires buckets != []
    ensures score == Upper(value, buckets)
  {
    assert buckets[0..] == buckets;
    for i := 0 to |buckets|
      invariant i < |buckets| ==> Upper(value, buckets[i..]) == Upper(value, buckets)
      invariant i == |buckets| ==> Upper(value, buckets) == buckets[|buckets| - 1].score
    {
      assert i + 1 < |buckets| ==> buckets[i..][1..] == buckets[i + 1..];
      if value <= buckets[i].bound {
        return buckets[i].score;
      }
    }
    return buckets[|buckets| - 1].score;
  }

  method ScoreFromLowerBounds(value: real, buckets: seq<Bucket>) returns (score: real)
    requires buckets != []
    ensures score == Lower(value, buckets)
  {
    assert buckets[0..] == buckets;
    for i := 0 to |buckets|
      invariant i < |buckets| ==> Lower(value, buckets[i..]) == Lower(value, buckets)
      invariant i == |buckets| ==> Lower(value, buckets) == buckets[|buckets| - 1].score
    {
      assert i + 1 < |buckets| ==> buckets[i..][1..] == buckets[i + 1..];
      if value >= buckets[i].bound {
        return buckets[i].score;
      }
    }
    return buckets[|buckets| - 1].score;
  }

  predicate Rises(buckets: seq<Bucket>) {
    forall i :: 0 <= i < |buckets| - 1 ==> buckets[i].score <= buckets[i + 1].score
  }

  predicate Falls(buckets: seq<Bucket>) {
    forall i :: 0 <= i < |buckets| - 1 ==> buckets[i].score >= buckets[i + 1].score
  }

  lemma SlopeOfTail(buckets: seq<Bucket>)
    requires |buckets| > 1
    ensures Rises(buckets) ==> Rises(buckets[1..]) && buckets[0].score <= buckets[1..][0].score
    ensures Falls(buckets) ==> Falls(buckets[1..]) && buckets[0].score >= buckets[1..][0].score
  {
    var tail := buckets[1..];
    if Rises(buckets) {
      forall i | 0 <= i < |tail| - 1 ensures tail[i].score <= tail[i + 1].score {
        assert buckets[i + 1].score <= buckets[i + 2].score;
      }
    }
    if Falls(buckets) {
      forall i | 0 <= i < |tail| - 1 ensures tail[i].score >= tail[i + 1].score {
        assert buckets[i + 1].score >= buckets[i + 2].score;
      }
    }
  }

  lemma {:induction false} UpperRises(x: real, y: real, buckets: seq<Bucket>)
    requires buckets != [] && Rises(buckets) && x <= y
    ensures buckets[0].score <= Upper(x, buckets) <= Upper(y, buckets)
  {
    if |buckets| > 1 {
      SlopeOfTail(buckets);
      UpperRises(x, y, buckets[1..]);
    }
  }

  lemma {:induction false} UpperFalls(x: real, y: real, buckets: seq<Bucket>)
    requires buckets != [] && Falls(buckets) && x <= y
    ensures buckets[0].score >= Upper(x, buckets) >= Upper(y, buckets)
  {
    if |buckets| > 1 {
      SlopeOfTail(buckets);
      UpperFalls(x, y, buckets[1..]);
    }
  }

  lemma {:induction false} LowerRises(x: real, y: real, buckets: seq<Bucket>)
    requires buckets != [] && Rises(buckets) && x <= y
    ensures buckets[0].score <= Lower(y, buckets) <= Lower(x, buckets)
  {
    if |buckets| > 1 {
      SlopeOfTail(buckets);
      LowerRises(x, y, buckets[1..]);
    }
  }

  // ----- The tables -----

  const LEVERAGE := [Bucket(3.0, 10.0), Bucket(3.5, 25.0), Bucket(4.0, 40.0), Bucket(4.5, 55.0), Bucket(5.0, 70.0), Bucket(5.5, 82.0), Bucket(99.0, 95.0)]
  const INTEREST := [Bucket(1.5, 95.0), Bucket(2.0, 80.0), Bucket(2.5, 65.0), Bucket(3.0, 50.0), Bucket(3.5, 35.0), Bucket(4.0, 20.0), Bucket(99.0, 10.0)]
  const HEADROOM := [Bucket(0.2, 95.0), Bucket(0.4, 80.0), Bucket(0.7, 65.0), Bucket(1.0, 45.0), Bucket(1.5, 25.0), Bucket(99.0, 10.0)]
  const RECURRING := [Bucket(85.0, 10.0), Bucket(70.0, 25.0), Bucket(55.0, 45.0), Bucket(40.0, 65.0), Bucket(0.0, 85.0)]
  const RETENTION := [Bucket(110.0, 10.0), Bucket(105.0, 20.0), Bucket(100.0, 35.0), Bucket(95.0, 55.0), Bucket(90.0, 75.0), Bucket(0.0, 90.0)]
  const TOP_CUSTOMER := [Bucket(8.0, 10.0), Bucket(15.0, 30.0), Bucket(22.0, 50.0), Bucket(30.0, 70.0), Bucket(100.0, 88.0)]
  const CHURN := [Bucket(4.0, 10.0), Bucket(7.0, 25.0), Bucket(10.0, 45.0), Bucket(14.0, 65.0), Bucket(100.0, 85.0)]
  const QOE := [Bucket(5.0, 12.0), Bucket(10.0, 25.0), Bucket(15.0, 45.0), Bucket(20.0, 65.0), Bucket(30.0, 82.0), Bucket(100.0, 95.0)]
  const CASH_CONVERSION := [Bucket(90.0, 10.0), Bucket(80.0, 20.0), Bucket(70.0, 35.0), Bucket(60.0, 50.0), Bucket(50.0, 70.0), Bucket(0.0, 88.0)]
  const WORKING_CAPITAL := [Bucket(3.0, 10.0), Bucket(6.0, 25.0), Bucket(10.0, 45.0), Bucket(15.0, 65.0), Bucket(100.0, 85.0)]
  const CAPEX := [Bucket(4.0, 15.0), Bucket(7.0, 30.0), Bucket(10.0, 50.0), Bucket(14.0, 70.0), Bucket(100.0, 88.0)]
  const CYCLICALITY := [Bucket(1.0, 10.0), Bucket(2.0, 25.0), Bucket(3.0, 45.0), Bucket(4.0, 70.0), Bucket(5.0, 88.0)]
  const SUPPLIER := [Bucket(15.0, 10.0), Bucket(25.0, 25.0), Bucket(35.0, 45.0), Bucket(45.0, 65.0), Bucket(100.0, 85.0)]
  const FIVE_DOWN := [Bucket(5.0, 10.0), Bucket(4.0, 25.0), Bucket(3.0, 45.0), Bucket(2.0, 65.0), Bucket(1.0, 85.0)]
  const COMPLEXITY := [Bucket(1.0, 10.0), Bucket(2.0, 25.0), Bucket(3.0, 45.0), Bucket(4.0, 65.0), Bucket(5.0, 82.0)]
  const LITIGATION := [Bucket(0.0, 10.0), Bucket(1.0, 35.0), Bucket(2.0, 55.0), Bucket(3.0, 72.0), Bucket(100.0, 88.0)]
  const TURNOVER := [Bucket(1.0, 12.0), Bucket(2.0, 28.0), Bucket(3.0, 45.0), Bucket(4.0, 65.0), Bucket(100.0, 85.0)]
  const FIVE_UP := [Bucket(1.0, 12.0), Bucket(2.0, 28.0), Bucket(3.0, 45.0), Bucket(4.0, 68.0), Bucket(5.0, 88.0)]

  // ----- The pack as the scoring reads it -----

  datatype Metrics = Metrics(
    leverage: real, interestCoverage: real, covenantHeadroom: real,
    recurringRevenue: real, netRetention: real, topCustomer: real, churn: real,
    qoeAdjustments: real, cashConversion: real, workingCapital: real, capex: real,
    cyclicality: real, supplierConcentration: real, pricingPower: real,
    regulatoryComplexity: real, litigation: real,
    turnover: real, financeDepth: real, boardReporting: real,
    creationDependency: real, executionComplexity: real, integrationRisk: real)

  datatype Severity = Low | Medium | High | Critical | Unlisted

  datatype Flag = Flag(legal: bool, severity: Severity)

  predicate HasNumber(d: map<string, Value>, key: string) {
    key in d && d[key].Num?
  }

  /** Reading an absent key raises, and so does comparing what is no number. */
  function Number(d: map<string, Value>, key: string): real
    requires HasNumber(d, key)
  {
    d[key].number
  }

  /** Everything the dimension scores read is there as a number. */
  predicate Readable(debt: map<string, Value>, m: map<string, Value>) {
    && HasNumber(debt, "total_leverage_x") && HasNumber(debt, "covenant_headroom_x")
    && CoverageReadable(m) && RevenueReadable(m) && EarningsReadable(m) && MarketReadable(m) && ManagementReadable(m) && CreationReadable(m)
  }

  predicate CoverageReadable(m: map<string, Value>) {
    && HasNumber(m, "interest_coverage_x")
    && HasNumber(m, "recurring_revenue_pct")
  }

  predicate RevenueReadable(m: map<string, Value>) {
    && HasNumber(m, "net_revenue_retention_pct")
    && HasNumber(m, "top_customer_pct")
    && HasNumber(m, "customer_churn_pct")
  }

  predicate EarningsReadable(m: map<string, Value>) {
    && HasNumber(m, "qoe_adjustments_pct_ebitda")
    && HasNumber(m, "free_cash_flow_conversion_pct")
    && HasNumber(m, "working_capital_volatility_pct_sales")
    && HasNumber(m, "capex_pct_revenue")
  }

  predicate MarketReadable(m: map<string, Value>) {
    && HasNumber(m, "end_market_cyclicality_1_to_5")
    && HasNumber(m, "supplier_concentration_pct")
    && HasNumber(m, "pricing_power_1_to_5")
    && HasNumber(m, "regulatory_complexity_1_to_5")
    && HasNumber(m, "open_litigation_count")
  }

  predicate ManagementReadable(m: map<string, Value>) {
    && HasNumber(m, "management_turnover_3y")
    && HasNumber(m, "finance_team_depth_1_to_5")
    && HasNumber(m, "board_reporting_maturity_1_to_5")
  }

  predicate CreationReadable(m: map<string, Value>) {
    && HasNumber(m, "value_creation_dependency_1_to_5")
    && HasNumber(m, "execution_complexity_1_to_5")
    && HasNumber(m, "integration_risk_1_to_5")
  }

  function MetricsOf(debt: map<string, Value>, m: map<string, Value>): Metrics
    requires Readable(debt, m)
  {
    Metrics(
      Number(debt, "total_leverage_x"), Number(m, "interest_coverage_x"), Number(debt, "covenant_headroom_x"),
      Number(m, "recurring_revenue_pct"), Number(m, "net_revenue_retention_pct"), Number(m, "top_customer_pct"),
      Number(m, "customer_churn_pct"),
      Number(m, "qoe_adjustments_pct_ebitda"), Number(m, "free_cash_flow_conversion_pct"),
      Number(m, "working_capital_volatility_pct_sales"), Number(m, "capex_pct_revenue"),
      Number(m, "end_market_cyclicality_1_to_5"), Number(m, "supplier_concentration_pct"), Number(m, "pricing_power_1_to_5"),
      Number(m, "regulatory_complexity_1_to_5"), Number(m, "open_litigation_count"),
      Number(m, "management_turnover_3y"), Number(m, "finance_team_depth_1_to_5"), Number(m, "board_reporting_maturity_1_to_5"),
      Number(m, "value_creation_dependency_1_to_5"), Number(m, "execution_complexity_1_to_5"), Number(m, "integration_risk_1_to_5"))
  }

  function LowerCase(s: string): string {
    seq(|s|, i requires 0 <= i < |s| => if 'A' <= s[i] <= 'Z' then s[i] - 'A' + 'a' else s[i])
  }

  function SeverityOf(v: Value): Severity {
    if !v.Str? then Unlisted
    else
      var s := LowerCase(v.text);
      if s == "critical" then Critical else if s == "high" then High
      else if s == "medium" then Medium else if s == "low" then Low else Unlisted
  }

  /** The same word, whatever is capitalized. */
  predicate SameLetters(s: string, word: string) {
    |s| == |word| && forall i :: 0 <= i < |s| ==> s[i] == word[i] || ('A' <= s[i] <= 'Z' && 'a' <= word[i] <= 'z' && s[i] - 'A' == word[i] - 'a')
  }

  predicate InLowerCase(word: string) {
    forall i :: 0 <= i < |word| ==> 'a' <= word[i] <= 'z'
  }

  lemma LowerCaseIff(s: string, word: string)
    requires InLowerCase(word)
    ensures LowerCase(s) == word <==> SameLetters(s, word)
  {
    if LowerCase(s) == word {
      forall i | 0 <= i < |s| ensures s[i] == word[i] || ('A' <= s[i] <= 'Z' && s[i] - 'A' == word[i] - 'a') {
        assert LowerCase(s)[i] == word[i];
      }
    }
    if SameLetters(s, word) {
      assert forall i :: 0 <= i < |s| ==> LowerCase(s)[i] == word[i];
    }
  }

  /** A flag counts by the word of its severity in any capitalization, and not at all for any
      other word or value. */
  lemma SeverityIff(v: Value)
    ensures SeverityOf(v) == Critical <==> v.Str? && SameLetters(v.text, "critical")
    ensures SeverityOf(v) == High <==> v.Str? && SameLetters(v.text, "high")
    ensures SeverityOf(v) == Medium <==> v.Str? && SameLetters(v.text, "medium")
    ensures SeverityOf(v) == Low <==> v.Str? && SameLetters(v.text, "low")
  {
    if v.Str? {
      LowerCaseIff(v.text, "critical");
      LowerCaseIff(v.text, "high");
      LowerCaseIff(v.text, "medium");
      LowerCaseIff(v.text, "low");
    }
  }

  function FlagOf(f: map<string, Value>): Flag {
    Flag(QualityGate.Get(f, "dimension") == Str("legal_regulatory"), SeverityOf(QualityGate.Get(f, "severity")))
  }

  // ----- Dimension scores -----

  datatype Dimensions = Dimensions(
    leverageDebtService: real, revenueQuality: real, earningsQuality: real, marketOperational: real,
    legalRegulatory: real, managementGovernance: real, valueCreation: real)

  function Clamp(x: real): real {
    if x < 0.0 then 0.0 else if x > 100.0 then 100.0 else x
  }

  function AtMost(limit: real, x: real): real {
    if x < limit then x else limit
  }

  function LegalPoints(f: Flag): real {
    if !f.legal then 0.0
    else match f.severity
         case Critical => 18.0
         case High => 10.0
         case Medium => 5.0
         case Low => 2.0
         case Unlisted => 0.0
  }

  function LegalPenalty(flags: seq<Flag>): real {
    if flags == [] then 0.0 else LegalPenalty(flags[..|flags| - 1]) + LegalPoints(flags[|flags| - 1])
  }

  method SumLegalPenalty(flags: seq<Flag>) returns (penalty: real)
    ensures penalty == LegalPenalty(flags)
  {
    penalty := 0.0;
    for i := 0 to |flags|
      invariant penalty == LegalPenalty(flags[..i])
    {
      assert flags[..i + 1][..i] == flags[..i];
      var flag := flags[i];
      if flag.legal {
        if flag.severity == Critical {
          penalty := penalty + 18.0;
        } else if flag.severity == High {
          penalty := penalty + 10.0;
        } else if flag.severity == Medium {
          penalty := penalty + 5.0;
        } else if flag.severity == Low {
          penalty := penalty + 2.0;
        }
      }
    }
    assert flags[..|flags|] == flags;
  }

  function LeverageDebtService(m: Metrics): real {
    Round1(0.45 * Upper(m.leverage, LEVERAGE) + 0.45 * Upper(m.interestCoverage, INTEREST) + 0.10 * Upper(m.covenantHeadroom, HEADROOM))
  }

  function RevenueQuality(m: Metrics): real {
    Round1(0.35 * Lower(m.recurringRevenue, RECURRING) + 0.25 * Lower(m.netRetention, RETENTION)
           + 0.25 * Upper(m.topCustomer, TOP_CUSTOMER) + 0.15 * Upper(m.churn, CHURN))
  }

  function EarningsQuality(m: Metrics): real {
    Round1(0.35 * Upper(m.qoeAdjustments, QOE) + 0.35 * Lower(m.cashConversion, CASH_CONVERSION)
           + 0.20 * Upper(m.workingCapital, WORKING_CAPITAL) + 0.10 * Upper(m.capex, CAPEX))
  }

  function MarketOperational(m: Metrics): real {
    Round1(0.40 * Upper(m.cyclicality, CYCLICALITY) + 0.35 * Upper(m.supplierConcentration, SUPPLIER)
           + 0.25 * Lower(m.pricingPower, FIVE_DOWN))
  }

  function LegalRegulatory(m: Metrics, flags: seq<Flag>): real {
    Round1(Clamp(0.55 * Upper(m.regulatoryComplexity, COMPLEXITY) + 0.45 * Upper(m.litigation, LITIGATION)
                 + AtMost(25.0, LegalPenalty(flags)) * 0.7))
  }

  function ManagementGovernance(m: Metrics): real {
    Round1(0.45 * Upper(m.turnover, TURNOVER) + 0.35 * Lower(m.financeDepth, FIVE_DOWN)
           + 0.20 * Lower(m.boardReporting, FIVE_DOWN))
  }

  function ValueCreation(m: Metrics): real {
    Round1(0.40 * Upper(m.creationDependency, FIVE_UP) + 0.35 * Upper(m.executionComplexity, FIVE_UP)
           + 0.25 * Upper(m.integrationRisk, FIVE_UP))
  }

  function DimensionScores(m: Metrics, flags: seq<Flag>): Dimensions {
    Dimensions(LeverageDebtService(m), RevenueQuality(m), EarningsQuality(m), MarketOperational(m),
               LegalRegulatory(m, flags), ManagementGovernance(m), ValueCreation(m))
  }

  // ----- The score -----

  datatype Penalties = Penalties(low: real, medium: real, high: real, critical: real)

  datatype Band = Band(maxScore: real, name: string, action: string)

  datatype Rubric = Rubric(weights: Dimensions, penalties: Penalties, bands: seq<Band>)

  datatype Counts = Counts(low: nat, medium: nat, high: nat, critical: nat)

  datatype Score = Score(composite: real, band: string, action: string, counts: Counts, dimensions: Dimensions)

  /** Each dimension times its weight. */
  function Products(d: Dimensions, w: Dimensions): Dimensions {
    Dimensions(d.leverageDebtService * w.leverageDebtService, d.revenueQuality * w.revenueQuality,
               d.earningsQuality * w.earningsQuality, d.marketOperational * w.marketOperational,
               d.legalRegulatory * w.legalRegulatory, d.managementGovernance * w.managementGovernance,
               d.valueCreation * w.valueCreation)
  }

  function Sum(d: Dimensions): real {
    d.leverageDebtService + d.revenueQuality + d.earningsQuality + d.marketOperational + d.legalRegulatory
    + d.managementGovernance + d.valueCreation
  }

  function Weighted(d: Dimensions, w: Dimensions): real {
    Sum(Products(d, w))
  }

  function PenaltyOf(p: Penalties, s: Severity): real {
    match s
    case Low => p.low
    case Medium => p.medium
    case High => p.high
    case Critical => p.critical
    case Unlisted => 0.0
  }

  function Penalty(flags: seq<Flag>, p: Penalties): real {
    if flags == [] then 0.0 else Penalty(flags[..|flags| - 1], p) + PenaltyOf(p, flags[|flags| - 1].severity)
  }

  function Add(c: Counts, s: Severity): Counts {
    match s
    case Low => c.(low := c.low + 1)
    case Medium => c.(medium := c.medium + 1)
    case High => c.(high := c.high + 1)
    case Critical => c.(critical := c.critical + 1)
    case Unlisted => c
  }

  function CountsOf(flags: seq<Flag>): Counts {
    if flags == [] then Counts(0, 0, 0, 0) else Add(CountsOf(flags[..|flags| - 1]), flags[|flags| - 1].severity)
  }

  method SumPenalties(flags: seq<Flag>, p: Penalties) returns (raw: real, counts: Counts)
    ensures raw == Penalty(flags, p) && counts == CountsOf(flags)
  {
    raw, counts := 0.0, Counts(0, 0, 0, 0);
    for i := 0 to |flags|
      invariant raw == Penalty(flags[..i], p) && counts == CountsOf(flags[..i])
    {
      assert flags[..i + 1][..i] == flags[..i];
      var s := flags[i].severity;
      if s != Unlisted {
        counts := Add(counts, s);
        raw := raw + PenaltyOf(p, s);
      }
    }
    assert flags[..|flags|] == flags;
  }

  /** How many flags of this severity there are. */
  function Occurrences(flags: seq<Flag>, s: Severity): nat {
    multiset(flags)[Flag(true, s)] + multiset(flags)[Flag(false, s)]
  }

  lemma OneMore(front: seq<Flag>, last: Flag)
    ensures forall f :: multiset(front + [last])[f] == multiset(front)[f] + (if f == last then 1 else 0)
  {
  }

  /** The counts are how often each severity occurs, whatever the order of the flags. */
  lemma {:induction false} CountsAreOccurrences(flags: seq<Flag>)
    ensures CountsOf(flags)
            == Counts(Occurrences(flags, Low), Occurrences(flags, Medium), Occurrences(flags, High), Occurrences(flags, Critical))
  {
    if flags != [] {
      var front, last := flags[..|flags| - 1], flags[|flags| - 1];
      assert flags == front + [last];
      OneMore(front, last);
      CountsAreOccurrences(front);
    }
  }

  /** Each severity's penalty as often as it is counted. */
  function Weigh(c: Counts, p: Penalties): real {
    c.low as real * p.low + c.medium as real * p.medium + c.high as real * p.high + c.critical as real * p.critical
  }

  lemma OnceMore(n: nat, x: real)
    ensures (n + 1) as real * x == n as real * x + x
  {
  }

  lemma WeighAdds(c: Counts, s: Severity, p: Penalties)
    ensures Weigh(Add(c, s), p) == Weigh(c, p) + PenaltyOf(p, s)
  {
    match s
    case Low => OnceMore(c.low, p.low);
    case Medium => OnceMore(c.medium, p.medium);
    case High => OnceMore(c.high, p.high);
    case Critical => OnceMore(c.critical, p.critical);
    case Unlisted =>
  }

  /** The raw penalty is the counts weighed, so it does not depend on the order of the flags. */
  lemma {:induction false} PenaltyIsCounted(flags: seq<Flag>, p: Penalties)
    ensures Penalty(flags, p) == Weigh(CountsOf(flags), p)
  {
    if flags != [] {
      PenaltyIsCounted(flags[..|flags| - 1], p);
      WeighAdds(CountsOf(flags[..|flags| - 1]), flags[|flags| - 1].severity, p);
    }
  }

  /** The legal points: 18, 10, 5 and 2 for each legal flag of the four severities. */
  lemma {:induction false} LegalPenaltyIsCounted(flags: seq<Flag>)
    ensures var m := multiset(flags);
            LegalPenalty(flags) == 18.0 * m[Flag(true, Critical)] as real + 10.0 * m[Flag(true, High)] as real
                                   + 5.0 * m[Flag(true, Medium)] as real + 2.0 * m[Flag(true, Low)] as real
  {
    if flags != [] {
      var front, last := flags[..|flags| - 1], flags[|flags| - 1];
      assert flags == front + [last];
      OneMore(front, last);
      LegalPenaltyIsCounted(front);
    }
  }

  function Composite(d: Dimensions, flags: seq<Flag>, rubric: Rubric): real {
    Round1(Clamp(Weighted(d, rubric.weights) + AtMost(15.0, Penalty(flags, rubric.penalties) * 0.6)))
  }

  /** The first band that reaches the score, or one past the last. */
  function BandPosition(composite: real, bands: seq<Band>): nat {
    if bands == [] || composite <= bands[0].maxScore then 0 else 1 + BandPosition(composite, bands[1..])
  }

  function BandAt(position: nat, bands: seq<Band>): (string, string) {
    if position < |bands| then (bands[position].name, bands[position].action) else ("severe", "No-go until mitigated")
  }

  /** The band of a score is the first that reaches it, bounds included, or the severe one. */
  lemma {:induction false} BandIsTheFirst(composite: real, bands: seq<Band>)
    ensures var p := BandPosition(composite, bands);
            && p <= |bands|
            && (forall j :: 0 <= j < p ==> bands[j].maxScore < composite)
            && (p < |bands| ==> composite <= bands[p].maxScore && BandAt(p, bands) == (bands[p].name, bands[p].action))
            && (p == |bands| ==> BandAt(p, bands) == ("severe", "No-go until mitigated"))
  {
    if bands != [] && composite > bands[0].maxScore {
      BandIsTheFirst(composite, bands[1..]);
      var p := BandPosition(composite, bands);
      forall j | 0 <= j < p ensures bands[j].maxScore < composite { if j > 0 { assert bands[1..][j - 1] == bands[j]; } }
    }
  }

  method FindBand(composite: real, bands: seq<Band>) returns (band: string, action: string)
    ensures (band, action) == BandAt(BandPosition(composite, bands), bands)
  {
    band, action := "severe", "No-go until mitigated";
    assert bands[0..] == bands;
    for i := 0 to |bands|
      invariant i + BandPosition(composite, bands[i..]) == BandPosition(composite, bands)
    {
      assert bands[i..][1..] == bands[i + 1..];
      if composite <= bands[i].maxScore {
        return bands[i].name, bands[i].action;
      }
    }
  }

  function ScoreOf(m: Metrics, flags: seq<Flag>, rubric: Rubric): Score {
    var d := DimensionScores(m, flags);
    var composite := Composite(d, flags, rubric);
    var (band, action) := BandAt(BandPosition(composite, rubric.bands), rubric.bands);
    Score(composite, band, action, CountsOf(flags), d)
  }

  // ----- Reading the flags and the whole call -----

  predicate AllObjects(items: seq<Value>) {
    forall i :: 0 <= i < |items| ==> items[i].Obj?
  }

  function FlagsOf(items: seq<Value>): seq<Flag>
    requires AllObjects(items)
  {
    seq(|items|, i requires 0 <= i < |items| => FlagOf(items[i].fields))
  }

  predicate ReadablePack(pack: map<string, Value>) {
    && QualityGate.DebtOf(pack).Obj? && QualityGate.Get(pack, "metrics").Obj?
    && Readable(QualityGate.DebtOf(pack).fields, QualityGate.Get(pack, "metrics").fields)
  }

  function ScoreDeal(pack: map<string, Value>, rubric: Rubric): Result<Score, string> {
    match QualityGate.Gate(pack, 1.0, true)
    case Err(e) => Err(e)
    case Ok(errors) =>
      if errors != [] then Err("ValueError")
      else
        var flags := QualityGate.Get(pack, "diligence_flags");
        if !flags.Arr? then Err("TypeError")
        else if !ReadablePack(pack) then Err("KeyError")
        else if !AllObjects(flags.items) then Err("AttributeError")
        else Ok(ScoreOf(MetricsOf(QualityGate.DebtOf(pack).fields, QualityGate.Get(pack, "metrics").fields),
                        FlagsOf(flags.items), rubric))
  }

  method ScoreChecked(pack: map<string, Value>, rubric: Rubric) returns (r: Result<Score, string>)
    ensures r == ScoreDeal(pack, rubric)
  {
    var gate := QualityGate.RunGate(pack, 1.0, true);
    if gate.Err? {
      return Err(gate.error);
    }
    if gate.value != [] {
      return Err("ValueError");
    }
    var listed := QualityGate.Get(pack, "diligence_flags");
    if !listed.Arr? {
      return Err("TypeError");
    }
    var debt, metrics := QualityGate.DebtOf(pack), QualityGate.Get(pack, "metrics");
    if !ReadablePack(pack) {
      return Err("KeyError");
    }
    if !AllObjects(listed.items) {
      return Err("AttributeError");
    }
    var score := ScoreMetrics(MetricsOf(debt.fields, metrics.fields), FlagsOf(listed.items), rubric);
    return Ok(score);
  }

  method ScoreMetrics(m: Metrics, flags: seq<Flag>, rubric: Rubric) returns (score: Score)
    ensures score == ScoreOf(m, flags, rubric)
  {
    var dimensions := DimensionScores(m, flags);
    var weighted := Weighted(dimensions, rubric.weights);
    var raw, counts := SumPenalties(flags, rubric.penalties);
    var composite := Round1(Clamp(weighted + AtMost(15.0, raw * 0.6)));
    var band, action := FindBand(composite, rubric.bands);
    return Score(composite, band, action, counts, dimensions);
  }

  // ----- A deal that is riskier in every respect -----

  /** Harmful metrics are at least as high, protective ones at most as high. */
  predicate Riskier(a: Metrics, b: Metrics) {
    && a.leverage <= b.leverage && a.topCustomer <= b.topCustomer && a.churn <= b.churn
    && a.qoeAdjustments <= b.qoeAdjustments && a.workingCapital <= b.workingCapital && a.capex <= b.capex
    && a.cyclicality <= b.cyclicality && a.supplierConcentration <= b.supplierConcentration
    && a.regulatoryComplexity <= b.regulatoryComplexity && a.litigation <= b.litigation && a.turnover <= b.turnover
    && a.creationDependency <= b.creationDependency && a.executionComplexity <= b.executionComplexity
    && a.integrationRisk <= b.integrationRisk
    && a.interestCoverage >= b.interestCoverage && a.covenantHeadroom >= b.covenantHeadroom
    && a.recurringRevenue >= b.recurringRevenue && a.netRetention >= b.netRetention
    && a.cashConversion >= b.cashConversion && a.pricingPower >= b.pricingPower
    && a.financeDepth >= b.financeDepth && a.boardReporting >= b.boardReporting
  }

  predicate NoLess(a: Dimensions, b: Dimensions) {
    && a.leverageDebtService <= b.leverageDebtService && a.revenueQuality <= b.revenueQuality
    && a.earningsQuality <= b.earningsQuality && a.marketOperational <= b.marketOperational
    && a.legalRegulatory <= b.legalRegulatory && a.managementGovernance <= b.managementGovernance
    && a.valueCreation <= b.valueCreation
  }

  lemma LeverageRises(a: Metrics, b: Metrics)
    requires Riskier(a, b)
    ensures LeverageDebtService(a) <= LeverageDebtService(b)
  {
    UpperRises(a.leverage, b.leverage, LEVERAGE);
    UpperFalls(b.interestCoverage, a.interestCoverage, INTEREST);
    UpperFalls(b.covenantHeadroom, a.covenantHeadroom, HEADROOM);
    Round1Monotone(
      0.45 * Upper(a.leverage, LEVERAGE) + 0.45 * Upper(a.interestCoverage, INTEREST) + 0.10 * Upper(a.covenantHeadroom, HEADROOM),
      0.45 * Upper(b.leverage, LEVERAGE) + 0.45 * Upper(b.interestCoverage, INTEREST) + 0.10 * Upper(b.covenantHeadroom, HEADROOM));
  }

  lemma RevenueRises(a: Metrics, b: Metrics)
    requires Riskier(a, b)
    ensures RevenueQuality(a) <= RevenueQuality(b)
  {
    LowerRises(b.recurringRevenue, a.recurringRevenue, RECURRING);
    LowerRises(b.netRetention, a.netRetention, RETENTION);
    UpperRises(a.topCustomer, b.topCustomer, TOP_CUSTOMER);
    UpperRises(a.churn, b.churn, CHURN);
    Round1Monotone(
      0.35 * Lower(a.recurringRevenue, RECURRING) + 0.25 * Lower(a.netRetention, RETENTION)
      + 0.25 * Upper(a.topCustomer, TOP_CUSTOMER) + 0.15 * Upper(a.churn, CHURN),
      0.35 * Lower(b.recurringRevenue, RECURRING) + 0.25 * Lower(b.netRetention, RETENTION)
      + 0.25 * Upper(b.topCustomer, TOP_CUSTOMER) + 0.15 * Upper(b.churn, CHURN));
  }

  lemma EarningsRise(a: Metrics, b: Metrics)
    requires Riskier(a, b)
    ensures EarningsQuality(a) <= EarningsQuality(b)
  {
    UpperRises(a.qoeAdjustments, b.qoeAdjustments, QOE);
    LowerRises(b.cashConversion, a.cashConversion, CASH_CONVERSION);
    UpperRises(a.workingCapital, b.workingCapital, WORKING_CAPITAL);
    UpperRises(a.capex, b.capex, CAPEX);
    Round1Monotone(
      0.35 * Upper(a.qoeAdjustments, QOE) + 0.35 * Lower(a.cashConversion, CASH_CONVERSION)
      + 0.20 * Upper(a.workingCapital, WORKING_CAPITAL) + 0.10 * Upper(a.capex, CAPEX),
      0.35 * Upper(b.qoeAdjustments, QOE) + 0.35 * Lower(b.cashConversion, CASH_CONVERSION)
      + 0.20 * Upper(b.workingCapital, WORKING_CAPITAL) + 0.10 * Upper(b.capex, CAPEX));
  }

  lemma MarketRises(a: Metrics, b: Metrics)
    requires Riskier(a, b)
    ensures MarketOperational(a) <= MarketOperational(b)
  {
    UpperRises(a.cyclicality, b.cyclicality, CYCLICALITY);
    UpperRises(a.supplierConcentration, b.supplierConcentration, SUPPLIER);
    LowerRises(b.pricingPower, a.pricingPower, FIVE_DOWN);
    Round1Monotone(
      0.40 * Upper(a.cyclicality, CYCLICALITY) + 0.35 * Upper(a.supplierConcentration, SUPPLIER) + 0.25 * Lower(a.pricingPower, FIVE_DOWN),
      0.40 * Upper(b.cyclicality, CYCLICALITY) + 0.35 * Upper(b.supplierConcentration, SUPPLIER) + 0.25 * Lower(b.pricingPower, FIVE_DOWN));
  }

  lemma LegalRises(a: Metrics, b: Metrics, flags: seq<Flag>, flags': seq<Flag>)
    requires Riskier(a, b) && LegalPenalty(flags) <= LegalPenalty(flags')
    ensures LegalRegulatory(a, flags) <= LegalRegulatory(b, flags')
  {
    UpperRises(a.regulatoryComplexity, b.regulatoryComplexity, COMPLEXITY);
    UpperRises(a.litigation, b.litigation, LITIGATION);
    var x := 0.55 * Upper(a.regulatoryComplexity, COMPLEXITY) + 0.45 * Upper(a.litigation, LITIGATION) + AtMost(25.0, LegalPenalty(flags)) * 0.7;
    var y := 0.55 * Upper(b.regulatoryComplexity, COMPLEXITY) + 0.45 * Upper(b.litigation, LITIGATION) + AtMost(25.0, LegalPenalty(flags')) * 0.7;
    assert x <= y;
    Round1Monotone(Clamp(x), Clamp(y));
  }

  lemma GovernanceRises(a: Metrics, b: Metrics)
    requires Riskier(a, b)
    ensures ManagementGovernance(a) <= ManagementGovernance(b)
  {
    UpperRises(a.turnover, b.turnover, TURNOVER);
    LowerRises(b.financeDepth, a.financeDepth, FIVE_DOWN);
    LowerRises(b.boardReporting, a.boardReporting, FIVE_DOWN);
    Round1Monotone(
      0.45 * Upper(a.turnover, TURNOVER) + 0.35 * Lower(a.financeDepth, FIVE_DOWN) + 0.20 * Lower(a.boardReporting, FIVE_DOWN),
      0.45 * Upper(b.turnover, TURNOVER) + 0.35 * Lower(b.financeDepth, FIVE_DOWN) + 0.20 * Lower(b.boardReporting, FIVE_DOWN));
  }

  lemma CreationRises(a: Metrics, b: Metrics)
    requires Riskier(a, b)
    ensures ValueCreation(a) <= ValueCreation(b)
  {
    UpperRises(a.creationDependency, b.creationDependency, FIVE_UP);
    UpperRises(a.executionComplexity, b.executionComplexity, FIVE_UP);
    UpperRises(a.integrationRisk, b.integrationRisk, FIVE_UP);
    Round1Monotone(
      0.40 * Upper(a.creationDependency, FIVE_UP) + 0.35 * Upper(a.executionComplexity, FIVE_UP) + 0.25 * Upper(a.integrationRisk, FIVE_UP),
      0.40 * Upper(b.creationDependency, FIVE_UP) + 0.35 * Upper(b.executionComplexity, FIVE_UP) + 0.25 * Upper(b.integrationRisk, FIVE_UP));
  }

  // ----- Sums over flags do not depend on their order, and more flags weigh more -----

  function Total(points: Flag -> real, flags: seq<Flag>): real {
    if flags == [] then 0.0 else Total(points, flags[..|flags| - 1]) + points(flags[|flags| - 1])
  }

  lemma {:induction false} TotalWithout(points: Flag -> real, flags: seq<Flag>, j: nat)
    requires j < |flags|
    ensures Total(points, flags) == Total(points, flags[..j] + flags[j + 1..]) + points(flags[j])
  {
    var n := |flags|;
    var rest := flags[..j] + flags[j + 1..];
    if j == n - 1 {
      assert rest == flags[..n - 1];
    } else {
      TotalWithout(points, flags[..n - 1], j);
      assert rest[..n - 2] == flags[..n - 1][..j] + flags[..n - 1][j + 1..];
      assert rest[n - 2] == flags[n - 1];
    }
  }

  lemma {:induction false} TotalIsNotNegative(points: Flag -> real, flags: seq<Flag>)
    requires forall f :: points(f) >= 0.0
    ensures Total(points, flags) >= 0.0
  {
    if flags != [] { TotalIsNotNegative(points, flags[..|flags| - 1]); }
  }

  /** A superset of flags, in any order, weighs at least as much. */
  lemma {:induction false} TotalGrows(points: Flag -> real, flags: seq<Flag>, flags': seq<Flag>)
    requires (forall f :: points(f) >= 0.0) && multiset(flags) <= multiset(flags')
    ensures Total(points, flags) <= Total(points, flags')
  {
    if flags == [] {
      TotalIsNotNegative(points, flags');
    } else {
      var front, last := flags[..|flags| - 1], flags[|flags| - 1];
      assert flags == front + [last];
      assert last in multiset(flags) && last in multiset(flags');
      var j :| 0 <= j < |flags'| && flags'[j] == last;
      var rest := flags'[..j] + flags'[j + 1..];
      assert flags' == flags'[..j] + [last] + flags'[j + 1..];
      assert multiset(flags') == multiset(rest) + multiset{last};
      assert multiset(flags) == multiset(front) + multiset{last};
      forall f ensures multiset(front)[f] <= multiset(rest)[f] {
        assert multiset(flags)[f] <= multiset(flags')[f];
      }
      TotalGrows(points, front, rest);
      TotalWithout(points, flags', j);
    }
  }

  lemma {:induction false} PenaltiesAreTotals(flags: seq<Flag>, p: Penalties)
    ensures LegalPenalty(flags) == Total(LegalPoints, flags)
    ensures Penalty(flags, p) == Total((f: Flag) => PenaltyOf(p, f.severity), flags)
  {
    if flags != [] { PenaltiesAreTotals(flags[..|flags| - 1], p); }
  }

  predicate NonNegative(rubric: Rubric) {
    && rubric.weights.leverageDebtService >= 0.0 && rubric.weights.revenueQuality >= 0.0
    && rubric.weights.earningsQuality >= 0.0 && rubric.weights.marketOperational >= 0.0
    && rubric.weights.legalRegulatory >= 0.0 && rubric.weights.managementGovernance >= 0.0
    && rubric.weights.valueCreation >= 0.0
    && rubric.penalties.low >= 0.0 && rubric.penalties.medium >= 0.0 && rubric.penalties.high >= 0.0
    && rubric.penalties.critical >= 0.0
  }

  lemma PenaltiesGrow(flags: seq<Flag>, flags': seq<Flag>, rubric: Rubric)
    requires NonNegative(rubric) && multiset(flags) <= multiset(flags')
    ensures LegalPenalty(flags) <= LegalPenalty(flags')
    ensures Penalty(flags, rubric.penalties) <= Penalty(flags', rubric.penalties)
  {
    PenaltiesAreTotals(flags, rubric.penalties);
    PenaltiesAreTotals(flags', rubric.penalties);
    TotalGrows(LegalPoints, flags, flags');
    TotalGrows((f: Flag) => PenaltyOf(rubric.penalties, f.severity), flags, flags');
  }

  lemma SumGrows(a: Dimensions, b: Dimensions)
    requires NoLess(a, b)
    ensures Sum(a) <= Sum(b)
  {
  }

  lemma WeightedGrows(a: Dimensions, b: Dimensions, rubric: Rubric)
    requires NoLess(a, b) && NonNegative(rubric)
    ensures Weighted(a, rubric.weights) <= Weighted(b, rubric.weights)
  {
    var w := rubric.weights;
    SumGrows(Products(a, w), Products(b, w));
  }

  lemma {:induction false} BandMoves(x: real, y: real, bands: seq<Band>)
    requires x <= y
    ensures BandPosition(x, bands) <= BandPosition(y, bands)
  {
    if bands != [] && y > bands[0].maxScore { BandMoves(x, y, bands[1..]); }
  }

  lemma DimensionsRise(a: Metrics, b: Metrics, flags: seq<Flag>, flags': seq<Flag>)
    requires Riskier(a, b) && LegalPenalty(flags) <= LegalPenalty(flags')
    ensures NoLess(DimensionScores(a, flags), DimensionScores(b, flags'))
  {
    LeverageRises(a, b);
    RevenueRises(a, b);
    EarningsRise(a, b);
    MarketRises(a, b);
    LegalRises(a, b, flags, flags');
    GovernanceRises(a, b);
    CreationRises(a, b);
  }

  lemma CompositeRises(a: Dimensions, b: Dimensions, flags: seq<Flag>, flags': seq<Flag>, rubric: Rubric)
    requires NonNegative(rubric) && NoLess(a, b) && Penalty(flags, rubric.penalties) <= Penalty(flags', rubric.penalties)
    ensures Composite(a, flags, rubric) <= Composite(b, flags', rubric)
  {
    WeightedGrows(a, b, rubric);
    Round1Monotone(Clamp(Weighted(a, rubric.weights) + AtMost(15.0, Penalty(flags, rubric.penalties) * 0.6)),
                   Clamp(Weighted(b, rubric.weights) + AtMost(15.0, Penalty(flags', rubric.penalties) * 0.6)));
  }

  /** Of two deals under one rubric with non-negative weights and penalties, the one that is
      riskier in every metric and carries a superset of the flags scores at least as high in
      every dimension and in total, and lands in the same band or a later one. */
  lemma RiskierScoresHigher(a: Metrics, b: Metrics, flags: seq<Flag>, flags': seq<Flag>, rubric: Rubric)
    requires NonNegative(rubric) && Riskier(a, b) && multiset(flags) <= multiset(flags')
    ensures NoLess(ScoreOf(a, flags, rubric).dimensions, ScoreOf(b, flags', rubric).dimensions)
    ensures ScoreOf(a, flags, rubric).composite <= ScoreOf(b, flags', rubric).composite
    ensures BandPosition(ScoreOf(a, flags, rubric).composite, rubric.bands)
         <= BandPosition(ScoreOf(b, flags', rubric).composite, rubric.bands)
  {
    PenaltiesGrow(flags, flags', rubric);
    DimensionsRise(a, b, flags, flags');
    CompositeRises(DimensionScores(a, flags), DimensionScores(b, flags'), flags, flags', rubric);
    BandMoves(ScoreOf(a, flags, rubric).composite, ScoreOf(b, flags', rubric).composite, rubric.bands);
  }

  /** Whatever the rubric, the composite score stays between 0 and 100. */
  lemma CompositeInRange(d: Dimensions, flags: seq<Flag>, rubric: Rubric)
    ensures 0.0 <= Composite(d, flags, rubric) <= 100.0
  {
    var x := Clamp(Weighted(d, rubric.weights) + AtMost(15.0, Penalty(flags, rubric.penalties) * 0.6));
    Round1Monotone(0.0, x);
    Round1Monotone(x, 100.0);
  }

  lemma RequiredMember(fields: seq<string>, d: map<string, Value>, i: nat, field: string)
    requires i < |fields| && fields[i] == field && forall f :: f in fields ==> QualityGate.Get(d, f).Num?
    ensures HasNumber(d, field)
  {
    assert fields[i] in fields;
  }

  lemma CoverageFieldsExist(m: map<string, Value>)
    requires forall f :: f in QualityGate.REQUIRED_METRICS ==> QualityGate.Get(m, f).Num?
    ensures CoverageReadable(m)
  {
    RequiredMember(QualityGate.REQUIRED_METRICS, m, 0, "interest_coverage_x");
    RequiredMember(QualityGate.REQUIRED_METRICS, m, 1, "recurring_revenue_pct");
  }

  lemma RevenueFieldsExist(m: map<string, Value>)
    requires forall f :: f in QualityGate.REQUIRED_METRICS ==> QualityGate.Get(m, f).Num?
    ensures RevenueReadable(m)
  {
    RequiredMember(QualityGate.REQUIRED_METRICS, m, 2, "net_revenue_retention_pct");
    RequiredMember(QualityGate.REQUIRED_METRICS, m, 3, "top_customer_pct");
    RequiredMember(QualityGate.REQUIRED_METRICS, m, 4, "customer_churn_pct");
  }

  lemma EarningsFieldsExist(m: map<string, Value>)
    requires forall f :: f in QualityGate.REQUIRED_METRICS ==> QualityGate.Get(m, f).Num?
    ensures EarningsReadable(m)
  {
    RequiredMember(QualityGate.REQUIRED_METRICS, m, 5, "qoe_adjustments_pct_ebitda");
    RequiredMember(QualityGate.REQUIRED_METRICS, m, 6, "free_cash_flow_conversion_pct");
    RequiredMember(QualityGate.REQUIRED_METRICS, m, 7, "working_capital_volatility_pct_sales");
    RequiredMember(QualityGate.REQUIRED_METRICS, m, 8, "capex_pct_revenue");
  }

  lemma MarketFieldsExist(m: map<string, Value>)
    requires forall f :: f in QualityGate.REQUIRED_METRICS ==> QualityGate.Get(m, f).Num?
    ensures MarketReadable(m)
  {
    RequiredMember(QualityGate.REQUIRED_METRICS, m, 9, "end_market_cyclicality_1_to_5");
    RequiredMember(QualityGate.REQUIRED_METRICS, m, 10, "supplier_concentration_pct");
    RequiredMember(QualityGate.REQUIRED_METRICS, m, 11, "pricing_power_1_to_5");
    RequiredMember(QualityGate.REQUIRED_METRICS, m, 12, "regulatory_complexity_1_to_5");
    RequiredMember(QualityGate.REQUIRED_METRICS, m, 13, "open_litigation_count");
  }

  lemma ManagementFieldsExist(m: map<string, Value>)
    requires forall f :: f in QualityGate.REQUIRED_METRICS ==> QualityGate.Get(m, f).Num?
    ensures ManagementReadable(m)
  {
    RequiredMember(QualityGate.REQUIRED_METRICS, m, 14, "management_turnover_3y");
    RequiredMember(QualityGate.REQUIRED_METRICS, m, 15, "finance_team_depth_1_to_5");
    RequiredMember(QualityGate.REQUIRED_METRICS, m, 16, "board_reporting_maturity_1_to_5");
  }

  lemma CreationFieldsExist(m: map<string, Value>)
    requires forall f :: f in QualityGate.REQUIRED_METRICS ==> QualityGate.Get(m, f).Num?
    ensures CreationReadable(m)
  {
    RequiredMember(QualityGate.REQUIRED_METRICS, m, 17, "value_creation_dependency_1_to_5");
    RequiredMember(QualityGate.REQUIRED_METRICS, m, 18, "execution_complexity_1_to_5");
    RequiredMember(QualityGate.REQUIRED_METRICS, m, 19, "integration_risk_1_to_5");
  }

  /** Every metric and debt field that the scoring reads is among the required ones, so it
      exists as a number in every pack that passes the gate: no read of the scoring raises. */
  lemma ScoredFieldsExist(pack: map<string, Value>)
    requires QualityGate.Passes(pack, 1.0, true)
    ensures ReadablePack(pack)
  {
    QualityGate.PassesIffComplete(pack, 1.0, true);
    var debt := QualityGate.DebtOf(pack).fields;
    RequiredMember(QualityGate.REQUIRED_DEBT_FIELDS, debt, 0, "total_leverage_x");
    RequiredMember(QualityGate.REQUIRED_DEBT_FIELDS, debt, 3, "covenant_headroom_x");
    var m := QualityGate.Get(pack, "metrics").fields;
    CoverageFieldsExist(m);
    RevenueFieldsExist(m);
    EarningsFieldsExist(m);
    MarketFieldsExist(m);
    ManagementFieldsExist(m);
    CreationFieldsExist(m);
  }

  /** A pack is scored exactly when its schema is valid, all its required fields are numbers,
      and its flags are a list of objects; the gate alone does not ask for the last. */
  lemma ScoredIff(pack: map<string, Value>, rubric: Rubric)
    ensures ScoreDeal(pack, rubric).Ok? <==>
              && QualityGate.SchemaErrors(pack) == [] && QualityGate.AllNumbers(pack)
              && QualityGate.Get(pack, "diligence_flags").Arr? && AllObjects(QualityGate.Get(pack, "diligence_flags").items)
    ensures ScoreDeal(pack, rubric) != Err("KeyError")
  {
    QualityGate.PassesIffComplete(pack, 1.0, true);
    if QualityGate.Passes(pack, 1.0, true) { ScoredFieldsExist(pack); }
    GateErrorIsNoKeyError(pack);
  }

  lemma GateErrorIsNoKeyError(pack: map<string, Value>)
    ensures QualityGate.Gate(pack, 1.0, true) != Err("KeyError")
  {
  }

  /** The call as it runs: it scores exactly the complete packs with listed flag objects, and
      the composite it returns is between 0 and 100. */
  method ScorePack(pack: map<string, Value>, rubric: Rubric) returns (r: Result<Score, string>)
    ensures r == ScoreDeal(pack, rubric)
    ensures r.Ok? <==>
              && QualityGate.SchemaErrors(pack) == [] && QualityGate.AllNumbers(pack)
              && QualityGate.Get(pack, "diligence_flags").Arr? && AllObjects(QualityGate.Get(pack, "diligence_flags").items)
    ensures r.Ok? ==> 0.0 <= r.value.composite <= 100.0
  {
    ScoredIff(pack, rubric);
    r := ScoreChecked(pack, rubric);
    if r.Ok? {
      ghost var items := QualityGate.Get(pack, "diligence_flags").items;
      CompositeInRange(r.value.dimensions, FlagsOf(items), rubric);
    }
  }
}
