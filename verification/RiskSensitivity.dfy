/** What the dimension scores and the composite of a deal depend on, and by how much
    (examples/pe_risk_platform/scoring_engine.py). */
module RiskSensitivity {
  import opened Json
  import opened Rounding
  import opened RiskScoring

  // ----- The composite against the seven dimensions -----

  datatype Dimension =
    | LeverageDebtServiceRisk | RevenueQualityRisk | EarningsQualityRisk | MarketOperationalRisk
    | LegalRegulatoryRisk | ManagementGovernanceRisk | ValueCreationRisk

  function At(d: Dimensions, k: Dimension): real {
    match k
    case LeverageDebtServiceRisk => d.leverageDebtService
    case RevenueQualityRisk => d.revenueQuality
    case EarningsQualityRisk => d.earningsQuality
    case MarketOperationalRisk => d.marketOperational
    case LegalRegulatoryRisk => d.legalRegulatory
    case ManagementGovernanceRisk => d.managementGovernance
    case ValueCreationRisk => d.valueCreation
  }

  function With(d: Dimensions, k: Dimension, x: real): Dimensions {
    match k
    case LeverageDebtServiceRisk => d.(leverageDebtService := x)
    case RevenueQualityRisk => d.(revenueQuality := x)
    case EarningsQualityRisk => d.(earningsQuality := x)
    case MarketOperationalRisk => d.(marketOperational := x)
    case LegalRegulatoryRisk => d.(legalRegulatory := x)
    case ManagementGovernanceRisk => d.(managementGovernance := x)
    case ValueCreationRisk => d.(valueCreation := x)
  }

  const NOTHING := Dimensions(0.0, 0.0, 0.0, 0.0, 0.0, 0.0, 0.0)

  /** Seven scores: each with one place, from 0 to 100. */
  ghost predicate Scores(d: Dimensions) {
    forall k :: OnePlace(At(d, k)) && 0.0 <= At(d, k) <= 100.0
  }

  /** Weights that share out one whole. */
  ghost predicate SharesOut(w: Dimensions) {
    (forall k :: At(w, k) >= 0.0) && Sum(w) == 1.0
  }

  predicate NonNegativePenalties(p: Penalties) {
    p.low >= 0.0 && p.medium >= 0.0 && p.high >= 0.0 && p.critical >= 0.0
  }

  /** The composite rounds the clamped weighted sum when there are no flags. */
  lemma WithoutFlags(d: Dimensions, rubric: Rubric)
    ensures Composite(d, [], rubric) == Round1(Clamp(Weighted(d, rubric.weights)))
  {
  }

  /** A rubric that puts all its weight on one dimension gives that dimension's score. */
  lemma WholeWeightIsTheDimension(d: Dimensions, k: Dimension, rubric: Rubric)
    requires Scores(d) && rubric.weights == With(NOTHING, k, 1.0)
    ensures Composite(d, [], rubric) == At(d, k)
  {
    WithoutFlags(d, rubric);
    assert Weighted(d, With(NOTHING, k, 1.0)) == At(d, k);
    Round1IsOnePlace(At(d, k));
  }

  function Constant(x: real): Dimensions {
    Dimensions(x, x, x, x, x, x, x)
  }

  lemma SharesTogether(x: real, w: Dimensions)
    ensures Weighted(Constant(x), w) == x * Sum(w)
  {
  }

  lemma NoLessIsAt(a: Dimensions, b: Dimensions)
    requires forall k :: At(a, k) <= At(b, k)
    ensures NoLess(a, b)
  {
    assert At(a, LeverageDebtServiceRisk) <= At(b, LeverageDebtServiceRisk);
    assert At(a, RevenueQualityRisk) <= At(b, RevenueQualityRisk);
    assert At(a, EarningsQualityRisk) <= At(b, EarningsQualityRisk);
    assert At(a, MarketOperationalRisk) <= At(b, MarketOperationalRisk);
    assert At(a, LegalRegulatoryRisk) <= At(b, LegalRegulatoryRisk);
    assert At(a, ManagementGovernanceRisk) <= At(b, ManagementGovernanceRisk);
    assert At(a, ValueCreationRisk) <= At(b, ValueCreationRisk);
  }

  lemma WeightedRises(a: Dimensions, b: Dimensions, w: Dimensions)
    requires (forall k :: At(w, k) >= 0.0) && (forall k :: At(a, k) <= At(b, k))
    ensures Weighted(a, w) <= Weighted(b, w)
  {
    NoLessIsAt(a, b);
    NoLessIsAt(NOTHING, w);
    WeightedGrows(a, b, Rubric(w, Penalties(0.0, 0.0, 0.0, 0.0), []));
  }

  lemma WeightedBetween(d: Dimensions, w: Dimensions, low: real, high: real)
    requires SharesOut(w) && (forall k :: low <= At(d, k) <= high)
    ensures low <= Weighted(d, w) <= high
  {
    WeightedRises(Constant(low), d, w);
    WeightedRises(d, Constant(high), w);
    SharesTogether(low, w);
    SharesTogether(high, w);
  }

  /** With shared-out weights and no flags the composite lies between the smallest and the
      largest dimension score. */
  lemma CompositeIsAMean(d: Dimensions, rubric: Rubric, smallest: Dimension, largest: Dimension)
    requires Scores(d) && SharesOut(rubric.weights)
    requires forall k :: At(d, smallest) <= At(d, k) <= At(d, largest)
    ensures At(d, smallest) <= Composite(d, [], rubric) <= At(d, largest)
  {
    WithoutFlags(d, rubric);
    var x := Weighted(d, rubric.weights);
    WeightedBetween(d, rubric.weights, At(d, smallest), At(d, largest));
    assert Clamp(x) == x;
    Round1Monotone(At(d, smallest), x);
    Round1Monotone(x, At(d, largest));
    Round1IsOnePlace(At(d, smallest));
    Round1IsOnePlace(At(d, largest));
  }

  lemma WeightedMoves(d: Dimensions, w: Dimensions, k: Dimension, x: real)
    ensures Weighted(With(d, k, x), w) - Weighted(d, w) == (x - At(d, k)) * At(w, k)
  {
  }

  /** A change of one dimension moves the composite by its weight times the change, up to the
      rounding. */
  lemma WeightIsTheSlope(d: Dimensions, rubric: Rubric, k: Dimension, x: real)
    requires Scores(d) && SharesOut(rubric.weights) && 0.0 <= x <= 100.0
    ensures var moved := Composite(With(d, k, x), [], rubric) - Composite(d, [], rubric);
            -0.1 <= moved - (x - At(d, k)) * At(rubric.weights, k) <= 0.1
  {
    WeightedMoves(d, rubric.weights, k, x);
    RoundedMove(d, rubric, k, x, (x - At(d, k)) * At(rubric.weights, k));
  }

  lemma RoundedMove(d: Dimensions, rubric: Rubric, k: Dimension, x: real, difference: real)
    requires Scores(d) && SharesOut(rubric.weights) && 0.0 <= x <= 100.0
    requires Weighted(With(d, k, x), rubric.weights) - Weighted(d, rubric.weights) == difference
    ensures -0.1 <= Composite(With(d, k, x), [], rubric) - Composite(d, [], rubric) - difference <= 0.1
  {
    var d' := With(d, k, x);
    StaysInRange(d, k, x);
    RoundedWeighted(d, rubric);
    RoundedWeighted(d', rubric);
    RoundedDifference(Composite(d, [], rubric), Composite(d', [], rubric), Weighted(d, rubric.weights),
                      Weighted(d', rubric.weights), difference);
  }

  lemma RoundedDifference(x: real, y: real, exactX: real, exactY: real, difference: real)
    requires -0.05 <= x - exactX <= 0.05 && -0.05 <= y - exactY <= 0.05 && exactY - exactX == difference
    ensures -0.1 <= y - x - difference <= 0.1
  {
  }

  lemma StaysInRange(d: Dimensions, k: Dimension, x: real)
    requires (forall j :: 0.0 <= At(d, j) <= 100.0) && 0.0 <= x <= 100.0
    ensures forall j :: 0.0 <= At(With(d, k, x), j) <= 100.0
  {
    forall j: Dimension ensures 0.0 <= At(With(d, k, x), j) <= 100.0 {
      if j != k { assert At(With(d, k, x), j) == At(d, j); }
    }
  }

  lemma RoundedWeighted(d: Dimensions, rubric: Rubric)
    requires SharesOut(rubric.weights) && (forall k :: 0.0 <= At(d, k) <= 100.0)
    ensures -0.05 <= Composite(d, [], rubric) - Weighted(d, rubric.weights) <= 0.05
  {
    WeightedBetween(d, rubric.weights, 0.0, 100.0);
    WithoutFlags(d, rubric);
    Round1Near(Weighted(d, rubric.weights));
  }

  // ----- Flags -----

  lemma PenaltyIsNotNegative(flags: seq<Flag>, p: Penalties)
    requires NonNegativePenalties(p)
    ensures Penalty(flags, p) >= 0.0
  {
    PenaltiesAreTotals(flags, p);
    TotalIsNotNegative((f: Flag) => PenaltyOf(p, f.severity), flags);
  }

  /** Flags never lower the composite and add at most 15 to it, whatever the weights. */
  lemma FlagsAddAtMost15(d: Dimensions, flags: seq<Flag>, rubric: Rubric)
    requires NonNegativePenalties(rubric.penalties)
    ensures Composite(d, [], rubric) <= Composite(d, flags, rubric) <= Composite(d, [], rubric) + 15.0
  {
    PenaltyIsNotNegative(flags, rubric.penalties);
    WithoutFlags(d, rubric);
    var x := Weighted(d, rubric.weights);
    var y := x + AtMost(15.0, Penalty(flags, rubric.penalties) * 0.6);
    Round1Monotone(Clamp(x), Clamp(y));
    Round1Monotone(Clamp(y), Clamp(x) + 15.0);
    Round1Shifts(Clamp(x), 75);
  }

  /** The larger of the two roundings is the rounding of the larger. */
  lemma Round1AtMost(limit: real, x: real)
    ensures Round1(AtMost(limit, x)) == AtMost(Round1(limit), Round1(x))
  {
    if x < limit { Round1Monotone(x, limit); } else { Round1Monotone(limit, x); }
  }

  /** When the summed penalties are a whole number, flags add exactly three fifths of it, at
      most 15, up to the score of 100. */
  lemma WholePenaltiesAddExactly(d: Dimensions, flags: seq<Flag>, rubric: Rubric, raw: nat)
    requires Scores(d) && (forall k :: At(rubric.weights, k) >= 0.0)
    requires Penalty(flags, rubric.penalties) == raw as real
    ensures Composite(d, flags, rubric)
            == AtMost(100.0, Composite(d, [], rubric) + AtMost(15.0, 0.6 * raw as real))
  {
    WithoutFlags(d, rubric);
    var x := Weighted(d, rubric.weights);
    WeightedIsNotNegative(d, rubric.weights);
    var n := if 3 * raw < 75 then 3 * raw else 75;
    assert AtMost(15.0, raw as real * 0.6) == n as real / 5.0;
    Round1Shifts(x, n);
    Round1AtMost(100.0, x);
    Round1AtMost(100.0, x + n as real / 5.0);
    Round1IsOnePlace(100.0);
  }

  lemma WeightedIsNotNegative(d: Dimensions, w: Dimensions)
    requires (forall k :: At(w, k) >= 0.0) && (forall k :: At(d, k) >= 0.0)
    ensures Weighted(d, w) >= 0.0
  {
    WeightedRises(Constant(0.0), d, w);
    SharesTogether(0.0, w);
  }

  // ----- The dimensions against the metrics -----

  datatype Metric =
    | TotalLeverage | InterestCoverage | CovenantHeadroom
    | RecurringRevenue | NetRetention | TopCustomer | CustomerChurn
    | QoeAdjustments | CashConversion | WorkingCapital | CapitalSpending
    | EndMarketCyclicality | SupplierConcentration | PricingPower
    | RegulatoryComplexity | OpenLitigation
    | ManagementTurnover | FinanceDepth | BoardReporting
    | CreationDependency | ExecutionComplexity | IntegrationRisk

  function DimensionOf(k: Metric): Dimension {
    match k
    case TotalLeverage => LeverageDebtServiceRisk
    case InterestCoverage => LeverageDebtServiceRisk
    case CovenantHeadroom => LeverageDebtServiceRisk
    case RecurringRevenue => RevenueQualityRisk
    case NetRetention => RevenueQualityRisk
    case TopCustomer => RevenueQualityRisk
    case CustomerChurn => RevenueQualityRisk
    case QoeAdjustments => EarningsQualityRisk
    case CashConversion => EarningsQualityRisk
    case WorkingCapital => EarningsQualityRisk
    case CapitalSpending => EarningsQualityRisk
    case EndMarketCyclicality => MarketOperationalRisk
    case SupplierConcentration => MarketOperationalRisk
    case PricingPower => MarketOperationalRisk
    case RegulatoryComplexity => LegalRegulatoryRisk
    case OpenLitigation => LegalRegulatoryRisk
    case ManagementTurnover => ManagementGovernanceRisk
    case FinanceDepth => ManagementGovernanceRisk
    case BoardReporting => ManagementGovernanceRisk
    case CreationDependency => ValueCreationRisk
    case ExecutionComplexity => ValueCreationRisk
    case IntegrationRisk => ValueCreationRisk
  }

  /** The share of a metric in the score of its dimension, of an amount. */
  function Portion(k: Metric, x: real): real {
    match k
    case TotalLeverage => 0.45 * x
    case InterestCoverage => 0.45 * x
    case CovenantHeadroom => 0.10 * x
    case RecurringRevenue => 0.35 * x
    case NetRetention => 0.25 * x
    case TopCustomer => 0.25 * x
    case CustomerChurn => 0.15 * x
    case QoeAdjustments => 0.35 * x
    case CashConversion => 0.35 * x
    case WorkingCapital => 0.20 * x
    case CapitalSpending => 0.10 * x
    case EndMarketCyclicality => 0.40 * x
    case SupplierConcentration => 0.35 * x
    case PricingPower => 0.25 * x
    case RegulatoryComplexity => 0.55 * x
    case OpenLitigation => 0.45 * x
    case ManagementTurnover => 0.45 * x
    case FinanceDepth => 0.35 * x
    case BoardReporting => 0.20 * x
    case CreationDependency => 0.40 * x
    case ExecutionComplexity => 0.35 * x
    case IntegrationRisk => 0.25 * x
  }

  function Read(m: Metrics, k: Metric): real {
    match k
    case TotalLeverage => m.leverage
    case InterestCoverage => m.interestCoverage
    case CovenantHeadroom => m.covenantHeadroom
    case RecurringRevenue => m.recurringRevenue
    case NetRetention => m.netRetention
    case TopCustomer => m.topCustomer
    case CustomerChurn => m.churn
    case QoeAdjustments => m.qoeAdjustments
    case CashConversion => m.cashConversion
    case WorkingCapital => m.workingCapital
    case CapitalSpending => m.capex
    case EndMarketCyclicality => m.cyclicality
    case SupplierConcentration => m.supplierConcentration
    case PricingPower => m.pricingPower
    case RegulatoryComplexity => m.regulatoryComplexity
    case OpenLitigation => m.litigation
    case ManagementTurnover => m.turnover
    case FinanceDepth => m.financeDepth
    case BoardReporting => m.boardReporting
    case CreationDependency => m.creationDependency
    case ExecutionComplexity => m.executionComplexity
    case IntegrationRisk => m.integrationRisk
  }

  function Changed(m: Metrics, k: Metric, x: real): Metrics {
    match k
    case TotalLeverage => m.(leverage := x)
    case InterestCoverage => m.(interestCoverage := x)
    case CovenantHeadroom => m.(covenantHeadroom := x)
    case RecurringRevenue => m.(recurringRevenue := x)
    case NetRetention => m.(netRetention := x)
    case TopCustomer => m.(topCustomer := x)
    case CustomerChurn => m.(churn := x)
    case QoeAdjustments => m.(qoeAdjustments := x)
    case CashConversion => m.(cashConversion := x)
    case WorkingCapital => m.(workingCapital := x)
    case CapitalSpending => m.(capex := x)
    case EndMarketCyclicality => m.(cyclicality := x)
    case SupplierConcentration => m.(supplierConcentration := x)
    case PricingPower => m.(pricingPower := x)
    case RegulatoryComplexity => m.(regulatoryComplexity := x)
    case OpenLitigation => m.(litigation := x)
    case ManagementTurnover => m.(turnover := x)
    case FinanceDepth => m.(financeDepth := x)
    case BoardReporting => m.(boardReporting := x)
    case CreationDependency => m.(creationDependency := x)
    case ExecutionComplexity => m.(executionComplexity := x)
    case IntegrationRisk => m.(integrationRisk := x)
  }

  /** The score of the bucket that a value of this metric falls into. */
  function BucketScore(k: Metric, x: real): real {
    match k
    case TotalLeverage => Upper(x, LEVERAGE)
    case InterestCoverage => Upper(x, INTEREST)
    case CovenantHeadroom => Upper(x, HEADROOM)
    case RecurringRevenue => Lower(x, RECURRING)
    case NetRetention => Lower(x, RETENTION)
    case TopCustomer => Upper(x, TOP_CUSTOMER)
    case CustomerChurn => Upper(x, CHURN)
    case QoeAdjustments => Upper(x, QOE)
    case CashConversion => Lower(x, CASH_CONVERSION)
    case WorkingCapital => Upper(x, WORKING_CAPITAL)
    case CapitalSpending => Upper(x, CAPEX)
    case EndMarketCyclicality => Upper(x, CYCLICALITY)
    case SupplierConcentration => Upper(x, SUPPLIER)
    case PricingPower => Lower(x, FIVE_DOWN)
    case RegulatoryComplexity => Upper(x, COMPLEXITY)
    case OpenLitigation => Upper(x, LITIGATION)
    case ManagementTurnover => Upper(x, TURNOVER)
    case FinanceDepth => Lower(x, FIVE_DOWN)
    case BoardReporting => Lower(x, FIVE_DOWN)
    case CreationDependency => Upper(x, FIVE_UP)
    case ExecutionComplexity => Upper(x, FIVE_UP)
    case IntegrationRisk => Upper(x, FIVE_UP)
  }

  function ScoreIn(m: Metrics, j: Dimension): real {
    At(DimensionScores(m, []), j)
  }

  /** Every metric this dimension reads falls into a bucket with a score in the range. */
  ghost predicate BucketsWithin(m: Metrics, j: Dimension, low: real, high: real) {
    forall k :: DimensionOf(k) == j ==> low <= BucketScore(k, Read(m, k)) <= high
  }

  // The exact sum a dimension score rounds.

  function Part(m: Metrics, k: Metric): real {
    Portion(k, BucketScore(k, Read(m, k)))
  }

  function Gather(part: Metric -> real, j: Dimension): real {
    match j
    case LeverageDebtServiceRisk => part(TotalLeverage) + part(InterestCoverage) + part(CovenantHeadroom)
    case RevenueQualityRisk =>
      part(RecurringRevenue) + part(NetRetention) + part(TopCustomer) + part(CustomerChurn)
    case EarningsQualityRisk =>
      part(QoeAdjustments) + part(CashConversion) + part(WorkingCapital) + part(CapitalSpending)
    case MarketOperationalRisk => part(EndMarketCyclicality) + part(SupplierConcentration) + part(PricingPower)
    case LegalRegulatoryRisk => part(RegulatoryComplexity) + part(OpenLitigation)
    case ManagementGovernanceRisk => part(ManagementTurnover) + part(FinanceDepth) + part(BoardReporting)
    case ValueCreationRisk => part(CreationDependency) + part(ExecutionComplexity) + part(IntegrationRisk)
  }

  function Blend(m: Metrics, j: Dimension): real {
    Gather(k => Part(m, k), j)
  }

  predicate ScoresWithin(buckets: seq<Bucket>, low: real, high: real) {
    forall i :: 0 <= i < |buckets| ==> low <= buckets[i].score <= high
  }

  lemma {:induction false} LookupsWithin(x: real, buckets: seq<Bucket>, low: real, high: real)
    requires buckets != [] && ScoresWithin(buckets, low, high)
    ensures low <= Upper(x, buckets) <= high && low <= Lower(x, buckets) <= high
  {
    assert low <= buckets[0].score <= high;
    if |buckets| > 1 {
      forall i | 0 <= i < |buckets| - 1 ensures low <= buckets[1..][i].score <= high { assert buckets[1..][i] == buckets[i + 1]; }
      LookupsWithin(x, buckets[1..], low, high);
    }
  }

  lemma DebtAndRevenueTables()
    ensures && ScoresWithin(LEVERAGE, 10.0, 95.0)
            && ScoresWithin(INTEREST, 10.0, 95.0)
            && ScoresWithin(HEADROOM, 10.0, 95.0)
            && ScoresWithin(RECURRING, 10.0, 95.0)
            && ScoresWithin(RETENTION, 10.0, 95.0)
            && ScoresWithin(TOP_CUSTOMER, 10.0, 95.0)
  {
  }

  lemma EarningsAndMarketTables()
    ensures && ScoresWithin(CHURN, 10.0, 95.0)
            && ScoresWithin(QOE, 10.0, 95.0)
            && ScoresWithin(CASH_CONVERSION, 10.0, 95.0)
            && ScoresWithin(WORKING_CAPITAL, 10.0, 95.0)
            && ScoresWithin(CAPEX, 10.0, 95.0)
            && ScoresWithin(CYCLICALITY, 10.0, 95.0)
  {
  }

  lemma OtherTables()
    ensures && ScoresWithin(SUPPLIER, 10.0, 95.0)
            && ScoresWithin(FIVE_DOWN, 10.0, 95.0)
            && ScoresWithin(COMPLEXITY, 10.0, 95.0)
            && ScoresWithin(LITIGATION, 10.0, 95.0)
            && ScoresWithin(TURNOVER, 10.0, 95.0)
            && ScoresWithin(FIVE_UP, 10.0, 95.0)
  {
  }

  lemma BucketScoreInRange(k: Metric, x: real)
    ensures 10.0 <= BucketScore(k, x) <= 95.0
  {
    DebtAndRevenueTables();
    EarningsAndMarketTables();
    OtherTables();
    match k
    case TotalLeverage => LookupsWithin(x, LEVERAGE, 10.0, 95.0);
    case InterestCoverage => LookupsWithin(x, INTEREST, 10.0, 95.0);
    case CovenantHeadroom => LookupsWithin(x, HEADROOM, 10.0, 95.0);
    case RecurringRevenue => LookupsWithin(x, RECURRING, 10.0, 95.0);
    case NetRetention => LookupsWithin(x, RETENTION, 10.0, 95.0);
    case TopCustomer => LookupsWithin(x, TOP_CUSTOMER, 10.0, 95.0);
    case CustomerChurn => LookupsWithin(x, CHURN, 10.0, 95.0);
    case QoeAdjustments => LookupsWithin(x, QOE, 10.0, 95.0);
    case CashConversion => LookupsWithin(x, CASH_CONVERSION, 10.0, 95.0);
    case WorkingCapital => LookupsWithin(x, WORKING_CAPITAL, 10.0, 95.0);
    case CapitalSpending => LookupsWithin(x, CAPEX, 10.0, 95.0);
    case EndMarketCyclicality => LookupsWithin(x, CYCLICALITY, 10.0, 95.0);
    case SupplierConcentration => LookupsWithin(x, SUPPLIER, 10.0, 95.0);
    case PricingPower => LookupsWithin(x, FIVE_DOWN, 10.0, 95.0);
    case RegulatoryComplexity => LookupsWithin(x, COMPLEXITY, 10.0, 95.0);
    case OpenLitigation => LookupsWithin(x, LITIGATION, 10.0, 95.0);
    case ManagementTurnover => LookupsWithin(x, TURNOVER, 10.0, 95.0);
    case FinanceDepth => LookupsWithin(x, FIVE_DOWN, 10.0, 95.0);
    case BoardReporting => LookupsWithin(x, FIVE_DOWN, 10.0, 95.0);
    case CreationDependency => LookupsWithin(x, FIVE_UP, 10.0, 95.0);
    case ExecutionComplexity => LookupsWithin(x, FIVE_UP, 10.0, 95.0);
    case IntegrationRisk => LookupsWithin(x, FIVE_UP, 10.0, 95.0);
  }

  lemma PartBetween(m: Metrics, k: Metric, low: real, high: real)
    requires low <= BucketScore(k, Read(m, k)) <= high
    ensures Portion(k, low) <= Part(m, k) <= Portion(k, high)
  {
    PortionRises(k, low, BucketScore(k, Read(m, k)));
    PortionRises(k, BucketScore(k, Read(m, k)), high);
  }

  lemma PortionRises(k: Metric, x: real, y: real)
    requires x <= y
    ensures Portion(k, x) <= Portion(k, y)
  {
  }

  lemma GatherRises(part: Metric -> real, part': Metric -> real, j: Dimension)
    requires forall k :: DimensionOf(k) == j ==> part(k) <= part'(k)
    ensures Gather(part, j) <= Gather(part', j)
  {
    match j
    case LeverageDebtServiceRisk =>
      assert DimensionOf(TotalLeverage) == j && DimensionOf(InterestCoverage) == j && DimensionOf(CovenantHeadroom) == j;
    case RevenueQualityRisk =>
      assert DimensionOf(RecurringRevenue) == j && DimensionOf(NetRetention) == j;
      assert DimensionOf(TopCustomer) == j && DimensionOf(CustomerChurn) == j;
    case EarningsQualityRisk =>
      assert DimensionOf(QoeAdjustments) == j && DimensionOf(CashConversion) == j;
      assert DimensionOf(WorkingCapital) == j && DimensionOf(CapitalSpending) == j;
    case MarketOperationalRisk =>
      assert DimensionOf(EndMarketCyclicality) == j && DimensionOf(SupplierConcentration) == j && DimensionOf(PricingPower) == j;
    case LegalRegulatoryRisk =>
      assert DimensionOf(RegulatoryComplexity) == j && DimensionOf(OpenLitigation) == j;
    case ManagementGovernanceRisk =>
      assert DimensionOf(ManagementTurnover) == j && DimensionOf(FinanceDepth) == j && DimensionOf(BoardReporting) == j;
    case ValueCreationRisk =>
      assert DimensionOf(CreationDependency) == j && DimensionOf(ExecutionComplexity) == j && DimensionOf(IntegrationRisk) == j;
  }

  /** The shares of a dimension are one whole. */
  lemma PortionsTogether(x: real)
    ensures Portion(TotalLeverage, x) + Portion(InterestCoverage, x) + Portion(CovenantHeadroom, x) == x
    ensures Portion(RecurringRevenue, x) + Portion(NetRetention, x) + Portion(TopCustomer, x) + Portion(CustomerChurn, x) == x
    ensures Portion(QoeAdjustments, x) + Portion(CashConversion, x) + Portion(WorkingCapital, x) + Portion(CapitalSpending, x) == x
    ensures Portion(EndMarketCyclicality, x) + Portion(SupplierConcentration, x) + Portion(PricingPower, x) == x
    ensures Portion(RegulatoryComplexity, x) + Portion(OpenLitigation, x) == x
    ensures Portion(ManagementTurnover, x) + Portion(FinanceDepth, x) + Portion(BoardReporting, x) == x
    ensures Portion(CreationDependency, x) + Portion(ExecutionComplexity, x) + Portion(IntegrationRisk, x) == x
  {
  }

  lemma GatherConstant(part: Metric -> real, x: real, j: Dimension)
    requires forall k :: part(k) == Portion(k, x)
    ensures Gather(part, j) == x
  {
    PortionsTogether(x);
  }

  lemma GatherBetween(part: Metric -> real, j: Dimension, low: real, high: real)
    requires forall k :: DimensionOf(k) == j ==> Portion(k, low) <= part(k) <= Portion(k, high)
    ensures low <= Gather(part, j) <= high
  {
    var least: Metric -> real, most: Metric -> real := k => Portion(k, low), k => Portion(k, high);
    GatherRises(least, part, j);
    GatherRises(part, most, j);
    GatherConstant(least, low, j);
    GatherConstant(most, high, j);
  }

  lemma BlendBetween(m: Metrics, j: Dimension, low: real, high: real)
    requires BucketsWithin(m, j, low, high)
    ensures low <= Blend(m, j) <= high
  {
    forall k | DimensionOf(k) == j ensures Portion(k, low) <= Part(m, k) <= Portion(k, high) { PartBetween(m, k, low, high); }
    GatherBetween(k => Part(m, k), j, low, high);
  }

  lemma BlendInRange(m: Metrics, j: Dimension)
    ensures 10.0 <= Blend(m, j) <= 95.0
  {
    forall k | DimensionOf(k) == j ensures 10.0 <= BucketScore(k, Read(m, k)) <= 95.0 { BucketScoreInRange(k, Read(m, k)); }
    BlendBetween(m, j, 10.0, 95.0);
  }

  lemma LeverageDebtServiceRoundsBlend(m: Metrics)
    ensures LeverageDebtService(m) == Round1(Blend(m, LeverageDebtServiceRisk))
  {
  }

  lemma RevenueQualityRoundsBlend(m: Metrics)
    ensures RevenueQuality(m) == Round1(Blend(m, RevenueQualityRisk))
  {
  }

  lemma EarningsQualityRoundsBlend(m: Metrics)
    ensures EarningsQuality(m) == Round1(Blend(m, EarningsQualityRisk))
  {
  }

  lemma MarketOperationalRoundsBlend(m: Metrics)
    ensures MarketOperational(m) == Round1(Blend(m, MarketOperationalRisk))
  {
  }

  lemma GovernanceParts(m: Metrics)
    ensures Part(m, ManagementTurnover) == 0.45 * Upper(m.turnover, TURNOVER)
    ensures Part(m, FinanceDepth) == 0.35 * Lower(m.financeDepth, FIVE_DOWN)
    ensures Part(m, BoardReporting) == 0.20 * Lower(m.boardReporting, FIVE_DOWN)
  {
  }

  lemma ManagementGovernanceRoundsBlend(m: Metrics)
    ensures ManagementGovernance(m) == Round1(Blend(m, ManagementGovernanceRisk))
  {
    GovernanceParts(m);
  }

  lemma CreationParts(m: Metrics)
    ensures Part(m, CreationDependency) == 0.40 * Upper(m.creationDependency, FIVE_UP)
    ensures Part(m, ExecutionComplexity) == 0.35 * Upper(m.executionComplexity, FIVE_UP)
    ensures Part(m, IntegrationRisk) == 0.25 * Upper(m.integrationRisk, FIVE_UP)
  {
  }

  lemma ValueCreationRoundsBlend(m: Metrics)
    ensures ValueCreation(m) == Round1(Blend(m, ValueCreationRisk))
  {
    CreationParts(m);
  }

  /** Each dimension rounds its own blend. */
  lemma ScoreRoundsBlend(m: Metrics, j: Dimension)
    ensures ScoreIn(m, j) == Round1(Blend(m, j))
  {
    match j
    case LeverageDebtServiceRisk => LeverageDebtServiceRoundsBlend(m);
    case RevenueQualityRisk => RevenueQualityRoundsBlend(m);
    case EarningsQualityRisk => EarningsQualityRoundsBlend(m);
    case MarketOperationalRisk => MarketOperationalRoundsBlend(m);
    case LegalRegulatoryRisk =>
      BlendInRange(m, j);
      LegalRoundsBlend(m, []);
    case ManagementGovernanceRisk => ManagementGovernanceRoundsBlend(m);
    case ValueCreationRisk => ValueCreationRoundsBlend(m);
  }

  /** With legal flags the legal score rounds the clamped sum of blend and penalty. */
  lemma LegalRoundsBlend(m: Metrics, flags: seq<Flag>)
    ensures LegalRegulatory(m, flags)
            == Round1(Clamp(Blend(m, LegalRegulatoryRisk) + AtMost(25.0, LegalPenalty(flags)) * 0.7))
  {
  }

  lemma ReadChanged(m: Metrics, k: Metric, x: real, k': Metric)
    ensures Read(Changed(m, k, x), k') == if k' == k then x else Read(m, k')
  {
  }

  lemma PartChanged(m: Metrics, k: Metric, x: real, k': Metric)
    ensures Part(Changed(m, k, x), k') - Part(m, k')
            == if k' == k then Portion(k, BucketScore(k, x)) - Portion(k, BucketScore(k, Read(m, k))) else 0.0
  {
    ReadChanged(m, k, x, k');
  }

  lemma GatherSame(part: Metric -> real, part': Metric -> real, j: Dimension)
    requires forall k :: DimensionOf(k) == j ==> part'(k) == part(k)
    ensures Gather(part', j) == Gather(part, j)
  {
    GatherRises(part, part', j);
    GatherRises(part', part, j);
  }

  lemma GatherOwn(part: Metric -> real, part': Metric -> real, k: Metric, step: real)
    requires part'(k) - part(k) == step && forall k' :: k' != k ==> part'(k') == part(k')
    ensures Gather(part', DimensionOf(k)) - Gather(part, DimensionOf(k)) == step
  {
  }

  lemma GatherChanged(part: Metric -> real, part': Metric -> real, k: Metric, step: real, j: Dimension)
    requires forall k' :: part'(k') - part(k') == if k' == k then step else 0.0
    ensures Gather(part', j) - Gather(part, j) == if j == DimensionOf(k) then step else 0.0
  {
    if j == DimensionOf(k) {
      forall k' | k' != k ensures part'(k') == part(k') { assert part'(k') - part(k') == 0.0; }
      GatherOwn(part, part', k, step);
    } else {
      forall k' | DimensionOf(k') == j ensures part'(k') == part(k') { assert part'(k') - part(k') == 0.0; }
      GatherSame(part, part', j);
    }
  }

  lemma BlendChanged(m: Metrics, k: Metric, x: real, j: Dimension)
    ensures Blend(Changed(m, k, x), j) - Blend(m, j)
            == if j == DimensionOf(k) then Portion(k, BucketScore(k, x)) - Portion(k, BucketScore(k, Read(m, k))) else 0.0
  {
    var m' := Changed(m, k, x);
    var step := Portion(k, BucketScore(k, x)) - Portion(k, BucketScore(k, Read(m, k)));
    forall k' ensures Part(m', k') - Part(m, k') == if k' == k then step else 0.0 { PartChanged(m, k, x, k'); }
    GatherChanged(k' => Part(m, k'), k' => Part(m', k'), k, step, j);
  }

  lemma BlendMoved(m: Metrics, m': Metrics, j: Dimension, step: real)
    requires Blend(m', j) - Blend(m, j) == step
    ensures -0.1 <= ScoreIn(m', j) - ScoreIn(m, j) - step <= 0.1
    ensures step == 0.0 ==> ScoreIn(m', j) == ScoreIn(m, j)
  {
    ScoreRoundsBlend(m, j);
    ScoreRoundsBlend(m', j);
    Round1Near(Blend(m, j));
    Round1Near(Blend(m', j));
    RoundedDifference(ScoreIn(m, j), ScoreIn(m', j), Blend(m, j), Blend(m', j), step);
  }

  /** A change of one metric leaves six dimensions alone and moves its own by the metric's
      share of the change in its bucket score, up to the rounding. */
  lemma MetricMovesItsDimension(m: Metrics, k: Metric, x: real, j: Dimension)
    ensures var moved := ScoreIn(Changed(m, k, x), j) - ScoreIn(m, j);
            if j != DimensionOf(k) then moved == 0.0
            else -0.1 <= moved - (Portion(k, BucketScore(k, x)) - Portion(k, BucketScore(k, Read(m, k)))) <= 0.1
  {
    BlendChanged(m, k, x, j);
    BlendMoved(m, Changed(m, k, x), j,
               if j == DimensionOf(k) then Portion(k, BucketScore(k, x)) - Portion(k, BucketScore(k, Read(m, k))) else 0.0);
  }

  /** Without legal flags a dimension score lies between the smallest and the largest bucket
      score of the metrics it reads. */
  lemma DimensionIsAMean(m: Metrics, j: Dimension, low: real, high: real)
    requires OnePlace(low) && OnePlace(high) && BucketsWithin(m, j, low, high)
    ensures low <= ScoreIn(m, j) <= high
  {
    ScoreRoundsBlend(m, j);
    BlendBetween(m, j, low, high);
    Round1Monotone(low, Blend(m, j));
    Round1Monotone(Blend(m, j), high);
    Round1IsOnePlace(low);
    Round1IsOnePlace(high);
  }

  lemma LegalPenaltyIsNotNegative(flags: seq<Flag>)
    ensures LegalPenalty(flags) >= 0.0
  {
    PenaltiesAreTotals(flags, Penalties(0.0, 0.0, 0.0, 0.0));
    TotalIsNotNegative(LegalPoints, flags);
  }

  lemma FlagsMoveLegalAlone(m: Metrics, flags: seq<Flag>)
    ensures DimensionScores(m, flags) == DimensionScores(m, []).(legalRegulatory := LegalRegulatory(m, flags))
  {
  }

  /** Flags move the legal score alone: never down, and by seven tenths of their points, of
      which 25 count at most, up to the score of 100 and the rounding. */
  lemma LegalFlagsAdd(m: Metrics, flags: seq<Flag>)
    ensures DimensionScores(m, flags) == DimensionScores(m, []).(legalRegulatory := LegalRegulatory(m, flags))
    ensures ScoreIn(m, LegalRegulatoryRisk) <= LegalRegulatory(m, flags)
    ensures var expected := AtMost(100.0, ScoreIn(m, LegalRegulatoryRisk) + AtMost(25.0, LegalPenalty(flags)) * 0.7);
            -0.1 <= LegalRegulatory(m, flags) - expected <= 0.1
  {
    FlagsMoveLegalAlone(m, flags);
    LegalPenaltyIsNotNegative(flags);
    BlendInRange(m, LegalRegulatoryRisk);
    ScoreRoundsBlend(m, LegalRegulatoryRisk);
    LegalRoundsBlend(m, flags);
    CappedRounding(Blend(m, LegalRegulatoryRisk), AtMost(25.0, LegalPenalty(flags)) * 0.7);
  }

  lemma CappedRounding(x: real, added: real)
    requires 0.0 <= x <= 100.0 && added >= 0.0
    ensures Round1(x) <= Round1(Clamp(x + added))
    ensures -0.1 <= Round1(Clamp(x + added)) - AtMost(100.0, Round1(x) + added) <= 0.1
  {
    Round1Near(x);
    Round1Near(Clamp(x + added));
    Round1Monotone(x, Clamp(x + added));
  }

  // ----- The pack -----

  /** The field of a pack that a metric is read from. */
  function FieldOf(k: Metric): string {
    match k
    case TotalLeverage => "total_leverage_x"
    case InterestCoverage => "interest_coverage_x"
    case CovenantHeadroom => "covenant_headroom_x"
    case RecurringRevenue => "recurring_revenue_pct"
    case NetRetention => "net_revenue_retention_pct"
    case TopCustomer => "top_customer_pct"
    case CustomerChurn => "customer_churn_pct"
    case QoeAdjustments => "qoe_adjustments_pct_ebitda"
    case CashConversion => "free_cash_flow_conversion_pct"
    case WorkingCapital => "working_capital_volatility_pct_sales"
    case CapitalSpending => "capex_pct_revenue"
    case EndMarketCyclicality => "end_market_cyclicality_1_to_5"
    case SupplierConcentration => "supplier_concentration_pct"
    case PricingPower => "pricing_power_1_to_5"
    case RegulatoryComplexity => "regulatory_complexity_1_to_5"
    case OpenLitigation => "open_litigation_count"
    case ManagementTurnover => "management_turnover_3y"
    case FinanceDepth => "finance_team_depth_1_to_5"
    case BoardReporting => "board_reporting_maturity_1_to_5"
    case CreationDependency => "value_creation_dependency_1_to_5"
    case ExecutionComplexity => "execution_complexity_1_to_5"
    case IntegrationRisk => "integration_risk_1_to_5"
  }

  function HolderOf(k: Metric, debt: map<string, Value>, metrics: map<string, Value>): map<string, Value> {
    if k == TotalLeverage || k == CovenantHeadroom then debt else metrics
  }

  function FieldValue(k: Metric, debt: map<string, Value>, metrics: map<string, Value>): real
    requires Readable(debt, metrics)
  {
    Number(HolderOf(k, debt, metrics), FieldOf(k))
  }

  lemma MetricIsItsField(k: Metric, debt: map<string, Value>, metrics: map<string, Value>)
    requires Readable(debt, metrics)
    ensures Read(MetricsOf(debt, metrics), k) == FieldValue(k, debt, metrics)
  {
  }

  lemma SameReads(a: Metrics, b: Metrics)
    requires forall k :: Read(a, k) == Read(b, k)
    ensures a == b
  {
    assert Read(a, TotalLeverage) == Read(b, TotalLeverage);
    assert Read(a, InterestCoverage) == Read(b, InterestCoverage);
    assert Read(a, CovenantHeadroom) == Read(b, CovenantHeadroom);
    assert Read(a, RecurringRevenue) == Read(b, RecurringRevenue);
    assert Read(a, NetRetention) == Read(b, NetRetention);
    assert Read(a, TopCustomer) == Read(b, TopCustomer);
    assert Read(a, CustomerChurn) == Read(b, CustomerChurn);
    assert Read(a, QoeAdjustments) == Read(b, QoeAdjustments);
    assert Read(a, CashConversion) == Read(b, CashConversion);
    assert Read(a, WorkingCapital) == Read(b, WorkingCapital);
    assert Read(a, CapitalSpending) == Read(b, CapitalSpending);
    assert Read(a, EndMarketCyclicality) == Read(b, EndMarketCyclicality);
    assert Read(a, SupplierConcentration) == Read(b, SupplierConcentration);
    assert Read(a, PricingPower) == Read(b, PricingPower);
    assert Read(a, RegulatoryComplexity) == Read(b, RegulatoryComplexity);
    assert Read(a, OpenLitigation) == Read(b, OpenLitigation);
    assert Read(a, ManagementTurnover) == Read(b, ManagementTurnover);
    assert Read(a, FinanceDepth) == Read(b, FinanceDepth);
    assert Read(a, BoardReporting) == Read(b, BoardReporting);
    assert Read(a, CreationDependency) == Read(b, CreationDependency);
    assert Read(a, ExecutionComplexity) == Read(b, ExecutionComplexity);
    assert Read(a, IntegrationRisk) == Read(b, IntegrationRisk);
  }

  /** Two packs that agree in every field but the one of this metric differ in this metric
      alone, so the field moves the dimension of its metric and no other. */
  lemma FieldMovesItsMetric(
    k: Metric, debt: map<string, Value>, metrics: map<string, Value>, debt': map<string, Value>, metrics': map<string, Value>)
    requires Readable(debt, metrics) && Readable(debt', metrics')
    requires forall k' :: k' != k ==> FieldValue(k', debt', metrics') == FieldValue(k', debt, metrics)
    ensures MetricsOf(debt', metrics') == Changed(MetricsOf(debt, metrics), k, FieldValue(k, debt', metrics'))
  {
    var m, m' := MetricsOf(debt, metrics), MetricsOf(debt', metrics');
    forall k' ensures Read(m', k') == Read(Changed(m, k, FieldValue(k, debt', metrics')), k') {
      MetricIsItsField(k', debt, metrics);
      MetricIsItsField(k', debt', metrics');
      ReadChanged(m, k, FieldValue(k, debt', metrics'), k');
    }
    SameReads(m', Changed(m, k, FieldValue(k, debt', metrics')));
  }

  // ----- The deal -----

  lemma DimensionsAreScores(m: Metrics, flags: seq<Flag>)
    ensures Scores(DimensionScores(m, flags))
  {
    forall j: Dimension
      ensures OnePlace(At(DimensionScores(m, flags), j)) && 0.0 <= At(DimensionScores(m, flags), j) <= 100.0
    {
      LegalFlagsAdd(m, flags);
      if j == LegalRegulatoryRisk { LegalScoreInRange(m, flags); } else { BlendScoreInRange(m, j); }
    }
  }

  lemma BlendScoreInRange(m: Metrics, j: Dimension)
    ensures OnePlace(ScoreIn(m, j)) && 0.0 <= ScoreIn(m, j) <= 100.0
  {
    ScoreRoundsBlend(m, j);
    BlendInRange(m, j);
    RoundedInRange(Blend(m, j));
  }

  lemma LegalScoreInRange(m: Metrics, flags: seq<Flag>)
    ensures OnePlace(LegalRegulatory(m, flags)) && 0.0 <= LegalRegulatory(m, flags) <= 100.0
  {
    LegalRoundsBlend(m, flags);
    RoundedInRange(Clamp(Blend(m, LegalRegulatoryRisk) + AtMost(25.0, LegalPenalty(flags)) * 0.7));
  }

  lemma RoundedInRange(x: real)
    requires 0.0 <= x <= 100.0
    ensures OnePlace(Round1(x)) && 0.0 <= Round1(x) <= 100.0
  {
    Round1IsOnePlace(x);
    Round1Monotone(0.0, x);
    Round1Monotone(x, 100.0);
    Round1IsOnePlace(0.0);
    Round1IsOnePlace(100.0);
  }

  /** A deal without flags, scored by a rubric that shares out its weights, gets a composite
      between its smallest and its largest dimension score; all the weight on one dimension
      gives that dimension's score. */
  lemma CompositeOfADeal(m: Metrics, rubric: Rubric)
    ensures var d, composite := DimensionScores(m, []), ScoreOf(m, [], rubric).composite;
            && (forall k :: rubric.weights == With(NOTHING, k, 1.0) ==> composite == At(d, k))
            && (SharesOut(rubric.weights) ==>
                  forall low, high :: (forall k :: At(d, low) <= At(d, k) <= At(d, high)) ==>
                    At(d, low) <= composite <= At(d, high))
  {
    var d := DimensionScores(m, []);
    DimensionsAreScores(m, []);
    forall k | rubric.weights == With(NOTHING, k, 1.0) ensures Composite(d, [], rubric) == At(d, k) {
      WholeWeightIsTheDimension(d, k, rubric);
    }
    if SharesOut(rubric.weights) {
      forall low, high | forall k :: At(d, low) <= At(d, k) <= At(d, high)
        ensures At(d, low) <= Composite(d, [], rubric) <= At(d, high)
      {
        CompositeIsAMean(d, rubric, low, high);
      }
    }
  }

  /** Flags whose penalties sum to a whole number add three fifths of it to what the same
      dimension scores give without them, at most 15, up to the score of 100. */
  lemma FlagsOfADeal(m: Metrics, flags: seq<Flag>, rubric: Rubric, raw: nat)
    requires (forall k :: At(rubric.weights, k) >= 0.0) && Penalty(flags, rubric.penalties) == raw as real
    ensures ScoreOf(m, flags, rubric).composite
            == AtMost(100.0, Composite(DimensionScores(m, flags), [], rubric) + AtMost(15.0, 0.6 * raw as real))
  {
    DimensionsAreScores(m, flags);
    WholePenaltiesAddExactly(DimensionScores(m, flags), flags, rubric, raw);
  }
}
