/**
 * The decision logic of `analyze_data` and its five analysis routines: which
 * columns are analysed, which routine runs, which series and pairs are reported,
 * how the labels are chosen and how the derived numbers are combined.
 *
 * Every number the statistics and machine-learning libraries compute (trend fits,
 * summaries, normality and correlation tests, the linear model, PCA ratios,
 * KMeans labels and the silhouette proxy) is an input, supplied by a `Library`.
 */
module StatisticalEngine {
  import opened Wrappers
  import opened Seqs
  import opened Text
  import opened Frames
  import opened Pairs

  // ---------------------------------------------------------------------------
  // Library results taken as inputs
  // ---------------------------------------------------------------------------

  /** `mean`, `median`, `std` (NaN for fewer than two values), `min`, `max`, `skew`, `kurtosis`. */
  datatype Summary = Summary(mean: real, median: real, std: Option<real>, min: real, max: real,
                             skewness: real, kurtosis: real)

  /** `stats.linregress(np.arange(n), series)`. */
  datatype LineFit = LineFit(slope: real, intercept: real, r: real, p: real, stdErr: real)

  /** `LinearRegression` fitted on the aligned rows: coefficient and `np.corrcoef` per feature. */
  datatype LinearFit = LinearFit(coefficient: string -> real, intercept: real, rSquared: real,
                                 correlation: string -> real)

  /** `stats.pearsonr(s1, s2)`. */
  datatype PearsonResult = PearsonResult(r: real, p: real)

  /** `pca.explained_variance_ratio_`: never empty once there are two columns. */
  type Ratios = s: seq<real> | |s| > 0 witness [0.0]

  datatype Library = Library(
    describe: seq<real> -> Summary,
    linregress: seq<real> -> LineFit,
    populationStd: seq<real> -> real,     // np.std
    linear: LinearFit,
    pcaRatios: Ratios,
    silhouette: nat -> real,              // the proxy score computed for k clusters
    clusterLabels: nat -> seq<nat>,       // KMeans(n_clusters=k).fit_predict on the aligned rows
    shapiro: seq<real> -> real,           // p-value of stats.shapiro
    jarqueBera: seq<real> -> real,        // p-value of stats.jarque_bera
    pearson: (seq<real>, seq<real>) -> PearsonResult)

  // ---------------------------------------------------------------------------
  // Dispatch and column selection
  // ---------------------------------------------------------------------------

  datatype Routine = TimeSeries | Regression | Clustering | StatisticalTests | Exploratory

  const KnownTypes: set<string> :=
    {"time_series", "time_series_forecast", "regression_feature_importance", "pca_clustering",
     "statistical_tests"}

  /** The `if/elif` chain on `analysis_type`; anything unrecognised is exploratory. */
  function Dispatch(analysisType: string): (r: Routine)
    ensures r == TimeSeries <==> analysisType == "time_series" || analysisType == "time_series_forecast"
    ensures r == Regression <==> analysisType == "regression_feature_importance"
    ensures r == Clustering <==> analysisType == "pca_clustering"
    ensures r == StatisticalTests <==> analysisType == "statistical_tests"
    ensures r == Exploratory <==> analysisType !in KnownTypes
  {
    if analysisType == "time_series" || analysisType == "time_series_forecast" then TimeSeries
    else if analysisType == "regression_feature_importance" then Regression
    else if analysisType == "pca_clustering" then Clustering
    else if analysisType == "statistical_tests" then StatisticalTests
    else Exploratory
  }

  /**
   * `analysis_data`: the selected columns that exist, in the selection's order,
   * or the whole frame when the selection is empty or names no existing column.
   */
  function AnalysedFrame(data: Frame, selected: seq<string>): (r: Frame)
    ensures r.rows == data.rows
    ensures Keep(selected, Names(data)) != [] ==> Names(r) == Keep(selected, Names(data))
    ensures Keep(selected, Names(data)) == [] ==> r == data
    ensures forall c :: c in Names(r) ==> Find(r.columns, c) == Find(data.columns, c)
  {
    var available := Keep(selected, Names(data));
    if available != [] then Project(data, available) else data
  }

  // ---------------------------------------------------------------------------
  // Labels
  // ---------------------------------------------------------------------------

  datatype Direction = Increasing | Decreasing | Stable {
    function Text(): string
    {
      match this
      case Increasing => "increasing"
      case Decreasing => "decreasing"
      case Stable => "stable"
    }
  }

  /** `trend_direction`: the sign of the slope. */
  function TrendDirection(slope: real): (d: Direction)
    ensures d == Increasing <==> slope > 0.0
    ensures d == Decreasing <==> slope < 0.0
    ensures d == Stable <==> slope == 0.0
  {
    if slope > 0.0 then Increasing else if slope < 0.0 then Decreasing else Stable
  }

  datatype Strength = Weak | Moderate | Strong {
    function Rank(): nat
    {
      match this
      case Weak => 0
      case Moderate => 1
      case Strong => 2
    }

    function Text(): string
    {
      match this
      case Weak => "weak"
      case Moderate => "moderate"
      case Strong => "strong"
    }
  }

  /** `trend_strength` and a correlation test's `strength`: |r| > 0.7 strong, |r| > 0.4 moderate. */
  function StrengthOf(r: real): (s: Strength)
    ensures s == Strong <==> Abs(r) > 0.7
    ensures s == Moderate <==> 0.4 < Abs(r) <= 0.7
    ensures s == Weak <==> Abs(r) <= 0.4
  {
    if Abs(r) > 0.7 then Strong else if Abs(r) > 0.4 then Moderate else Weak
  }

  /** A stronger correlation never gets a weaker label. */
  lemma StrengthMonotone(a: real, b: real)
    requires Abs(a) <= Abs(b)
    ensures StrengthOf(a).Rank() <= StrengthOf(b).Rank()
  {
  }

  datatype Volatility = LowVolatility | ModerateVolatility | HighVolatility {
    function Text(): string
    {
      match this
      case LowVolatility => "low"
      case ModerateVolatility => "moderate"
      case HighVolatility => "high"
    }
  }

  /** `volatility`: std above 30% of the mean is high, above 10% moderate; a NaN std compares false. */
  function VolatilityOf(std: Option<real>, mean: real): (v: Volatility)
    ensures v == HighVolatility <==> std.Some? && std.value > mean * 0.3
    ensures v == ModerateVolatility <==> std.Some? && std.value <= mean * 0.3 && std.value > mean * 0.1
    ensures v == LowVolatility <==> std.None? || (std.value <= mean * 0.3 && std.value <= mean * 0.1)
  {
    match std
    case None => LowVolatility
    case Some(s) =>
      if s > mean * 0.3 then HighVolatility else if s > mean * 0.1 then ModerateVolatility else LowVolatility
  }

  /**
   * `seasonality_strength`: 0 for fewer than 12 values; otherwise the population
   * std of the first 12 values over the mean (0 when the mean is 0).
   */
  function SeasonalityStrength(series: seq<real>, mean: real, populationStd: seq<real> -> real): (s: real)
    ensures |series| < 12 || mean == 0.0 ==> s == 0.0
    ensures |series| >= 12 && mean != 0.0 ==> s == populationStd(series[..12]) / mean
  {
    if |series| >= 12 && mean != 0.0 then populationStd(series[..12]) / mean else 0.0
  }

  /** The strength depends on the first 12 values only. */
  lemma SeasonalityUsesFirstTwelve(a: seq<real>, b: seq<real>, mean: real, populationStd: seq<real> -> real)
    requires |a| >= 12 && |b| >= 12 && a[..12] == b[..12]
    ensures SeasonalityStrength(a, mean, populationStd) == SeasonalityStrength(b, mean, populationStd)
  {
  }

  datatype Seasonality = WeakSeasonality | StrongSeasonality {
    function Text(): string
    {
      match this
      case WeakSeasonality => "weak"
      case StrongSeasonality => "strong"
    }
  }

  function SeasonalityOf(strength: real): (s: Seasonality)
    ensures s == StrongSeasonality <==> strength > 0.2
  {
    if strength > 0.2 then StrongSeasonality else WeakSeasonality
  }

  /** `forecast_next_period`: the trend line at x = n, only when |r| > 0.3. */
  function NextPeriodForecast(fit: LineFit, n: nat): (f: Option<real>)
    ensures f.Some? <==> Abs(fit.r) > 0.3
    ensures f.Some? ==> f.value == fit.slope * n as real + fit.intercept
  {
    if Abs(fit.r) > 0.3 then Some(fit.slope * n as real + fit.intercept) else None
  }

  datatype ModelQuality = Poor | ModerateQuality | Good | Excellent {
    function Rank(): nat
    {
      match this
      case Poor => 0
      case ModerateQuality => 1
      case Good => 2
      case Excellent => 3
    }

    function Text(): string
    {
      match this
      case Poor => "poor"
      case ModerateQuality => "moderate"
      case Good => "good"
      case Excellent => "excellent"
    }
  }

  /** `model_quality`: R² above 0.8 excellent, above 0.6 good, above 0.4 moderate. */
  function ModelQualityOf(r2: real): (q: ModelQuality)
    ensures q == Excellent <==> r2 > 0.8
    ensures q == Good <==> 0.6 < r2 <= 0.8
    ensures q == ModerateQuality <==> 0.4 < r2 <= 0.6
    ensures q == Poor <==> r2 <= 0.4
  {
    if r2 > 0.8 then Excellent else if r2 > 0.6 then Good else if r2 > 0.4 then ModerateQuality else Poor
  }

  lemma ModelQualityMonotone(a: real, b: real)
    requires a <= b
    ensures ModelQualityOf(a).Rank() <= ModelQualityOf(b).Rank()
  {
  }

  datatype Predictability = LowPredictability | ModeratePredictability | HighPredictability {
    function Text(): string
    {
      match this
      case LowPredictability => "low"
      case ModeratePredictability => "moderate"
      case HighPredictability => "high"
    }
  }

  /** `predictability`: R² above 0.7 high, above 0.4 moderate. */
  function PredictabilityOf(r2: real): (p: Predictability)
    ensures p == HighPredictability <==> r2 > 0.7
    ensures p == ModeratePredictability <==> 0.4 < r2 <= 0.7
    ensures p == LowPredictability <==> r2 <= 0.4
  {
    if r2 > 0.7 then HighPredictability else if r2 > 0.4 then ModeratePredictability else LowPredictability
  }

  datatype Complexity = HighComplexity | ModerateComplexity {
    function Text(): string
    {
      match this
      case HighComplexity => "high"
      case ModerateComplexity => "moderate"
    }
  }

  /** `data_complexity`: high when the first component explains less than 60%. */
  function ComplexityOf(leading: real): (c: Complexity)
    ensures c == HighComplexity <==> leading < 0.6
  {
    if leading < 0.6 then HighComplexity else ModerateComplexity
  }

  datatype NormalityTestKind = Shapiro | JarqueBera {
    function Text(): string
    {
      match this
      case Shapiro => "shapiro"
      case JarqueBera => "jarque_bera"
    }
  }

  /** Shapiro-Wilk up to 5000 values, Jarque-Bera beyond. */
  function NormalityTestFor(n: nat): (k: NormalityTestKind)
    ensures k == Shapiro <==> n <= 5000
  {
    if n <= 5000 then Shapiro else JarqueBera
  }

  datatype DataQuality = GoodQuality | RequiresAttention {
    function Text(): string
    {
      match this
      case GoodQuality => "good"
      case RequiresAttention => "requires_attention"
    }
  }

  /** `data_quality`: good iff more than half of the numeric columns look normal (true division). */
  function DataQualityOf(normalCount: nat, numericCount: nat): (q: DataQuality)
    ensures q == GoodQuality <==> 2 * normalCount > numericCount
  {
    if normalCount as real > numericCount as real / 2.0 then GoodQuality else RequiresAttention
  }

  // ---------------------------------------------------------------------------
  // Reports
  // ---------------------------------------------------------------------------

  datatype TrendStatistics = TrendStatistics(mean: real, stdDev: Option<real>, min: real, max: real,
                                             trendSlope: real, trendRSquared: real, trendPValue: real,
                                             seasonalityStrength: real)

  datatype TrendInsight = TrendInsight(trendDirection: Direction, trendStrength: Strength,
                                       volatility: Volatility, seasonality: Seasonality,
                                       forecastNextPeriod: Option<real>)

  datatype FeatureEffect = FeatureEffect(coefficient: real, importance: real, correlation: real)

  datatype RegressionFit = RegressionFit(targetVariable: string, rSquared: real, intercept: real,
                                         featureImportance: map<string, FeatureEffect>,
                                         modelQuality: ModelQuality, topDriver: string,
                                         topDriverImpact: real, explainedVariance: real,
                                         predictability: Predictability, recommendations: seq<string>)

  /** `characteristics[col]` of one cluster. */
  datatype ClusterProfile = ClusterProfile(mean: real, std: Option<real>)

  /** `cluster_statistics["cluster_<i>"]`, kept in a list indexed by `i`. */
  datatype ClusterStatistics = ClusterStatistics(size: nat, percentage: real,
                                                 characteristics: map<string, ClusterProfile>)

  datatype ClusteringFit = ClusteringFit(pcaExplainedVariance: seq<real>, optimalClusters: nat,
                                         clusterStatistics: seq<ClusterStatistics>,
                                         dataComplexity: Complexity, naturalGroupings: nat,
                                         mainVariationExplained: real, recommendations: seq<string>)

  datatype NormalityTest = NormalityTest(isNormal: bool, pValue: real, testUsed: NormalityTestKind)

  datatype CorrelationTest = CorrelationTest(var1: string, var2: string, correlation: real,
                                             pValue: real, significant: bool, strength: Strength) {
    /** The key of this test in `correlation_tests`. */
    function Key(): string
    {
      var1 + "_vs_" + var2
    }
  }

  datatype TestsFit = TestsFit(normalityTests: map<string, NormalityTest>,
                               correlationTests: seq<CorrelationTest>,
                               normalDistributions: nat, significantRelationships: nat,
                               dataQuality: DataQuality, recommendations: seq<string>)

  /** One entry of `column_statistics`, in insertion order. */
  datatype ColumnEntry = ColumnEntry(name: string, count: nat, summary: Summary)

  datatype ExploratoryFit = ExploratoryFit(columnStatistics: seq<ColumnEntry>,
                                           highVarianceColumns: seq<string>, rows: nat, columns: nat,
                                           mostVariableColumns: seq<string>,
                                           recommendations: seq<string>)

  /**
   * What a routine merges into `results`. `None` is the routine's empty skeleton
   * (`{"insights": {}, "statistics": {}, "recommendations": []}`).
   */
  datatype Report =
    | TimeSeriesReport(statistics: map<string, TrendStatistics>, insights: map<string, TrendInsight>,
                       recommendations: seq<string>)
    | RegressionReport(regression: Option<RegressionFit>)
    | ClusteringReport(clustering: Option<ClusteringFit>)
    | TestsReport(tests: Option<TestsFit>)
    | ExploratoryReport(exploratory: ExploratoryFit)

  /** The dictionary `analyze_data` returns: an error, or the header plus the routine's report. */
  datatype Outcome =
    | Failed(error: string)
    | Analysed(dataPointsAnalyzed: nat, columnsAnalyzed: nat, analysisType: string, report: Report)

  const NoDataError := "No data provided"
  const NoNumericError := "No numeric columns found for analysis"

  // ---------------------------------------------------------------------------
  // Time series
  // ---------------------------------------------------------------------------

  const TimeSeriesRecommendations: seq<string> :=
    ["Use trend analysis for strategic planning",
     "Monitor seasonal patterns for inventory management",
     "Consider external factors affecting volatility"]

  /** The lower-cased name contains "month", "date" or "time". */
  predicate IsTimeLike(name: string)
  {
    var lower := ToLower(name);
    Contains(lower, "month") || Contains(lower, "date") || Contains(lower, "time")
  }

  /** The position of the first time-like name, if any. */
  function FirstTimeLike(names: seq<string>): (k: Option<nat>)
    ensures k.Some? ==> k.value < |names| && IsTimeLike(names[k.value])
    ensures k.Some? ==> forall j :: 0 <= j < k.value ==> !IsTimeLike(names[j])
    ensures k.None? ==> forall j :: 0 <= j < |names| ==> !IsTimeLike(names[j])
  {
    if names == [] then None
    else if IsTimeLike(names[0]) then Some(0)
    else
      match FirstTimeLike(names[1..])
      case Some(k) => Some(k + 1)
      case None => None
  }

  /** The time column: the first time-like column, else the first column. */
  function TimeColumn(names: seq<string>): (t: string)
    requires |names| > 0
    ensures t in names
    ensures (exists k :: 0 <= k < |names| && IsTimeLike(names[k])) ==>
              exists k :: 0 <= k < |names| && names[k] == t && IsTimeLike(t) &&
                          forall j :: 0 <= j < k ==> !IsTimeLike(names[j])
    ensures (forall k :: 0 <= k < |names| ==> !IsTimeLike(names[k])) ==> t == names[0]
  {
    match FirstTimeLike(names)
    case Some(k) => names[k]
    case None => names[0]
  }

  /** The `for col in data.columns ... break` search, with column 0 as the fallback. */
  method FindTimeColumn(names: seq<string>) returns (t: string)
    requires |names| > 0
    ensures t == TimeColumn(names)
    ensures t in names
  {
    var i := 0;
    while i < |names| && !IsTimeLike(names[i])
      invariant 0 <= i <= |names|
      invariant forall j :: 0 <= j < i ==> !IsTimeLike(names[j])
    {
      i := i + 1;
    }
    if i < |names| {
      t := names[i];
    } else {
      t := names[0];
    }
  }

  /** The `monthly_means` list: the first `min(12, n)` values, appended one by one. */
  method MonthlyMeans(series: seq<real>) returns (m: seq<real>)
    ensures m == series[..Min(12, |series|)]
  {
    m := [];
    for i := 0 to Min(12, |series|)
      invariant m == series[..i]
    {
      if i < |series| {
        m := m + [series[i]];
      }
    }
  }

  function TrendStatisticsOf(series: seq<real>, lib: Library): TrendStatistics
  {
    var fit := lib.linregress(series);
    var s := lib.describe(series);
    TrendStatistics(s.mean, s.std, s.min, s.max, fit.slope, fit.r * fit.r, fit.p,
                    SeasonalityStrength(series, s.mean, lib.populationStd))
  }

  function TrendInsightOf(series: seq<real>, lib: Library): TrendInsight
  {
    var fit := lib.linregress(series);
    var s := lib.describe(series);
    TrendInsight(TrendDirection(fit.slope), StrengthOf(fit.r), VolatilityOf(s.std, s.mean),
                 SeasonalityOf(SeasonalityStrength(series, s.mean, lib.populationStd)),
                 NextPeriodForecast(fit, |series|))
  }

  /** A numeric column is reported when it is not the time column and has more than 3 values. */
  predicate ReportsSeries(data: Frame, timeCol: string, c: string)
  {
    c != timeCol && |Series(data, c)| > 3
  }

  ghost predicate IsTimeSeriesReport(data: Frame, numericCols: seq<string>, lib: Library, r: Report)
    requires |data.columns| > 0
  {
    var timeCol := TimeColumn(Names(data));
    && r.TimeSeriesReport?
    && (forall c :: c in r.statistics <==> c in numericCols && ReportsSeries(data, timeCol, c))
    && r.insights.Keys == r.statistics.Keys
    && (forall c :: c in r.statistics ==> r.statistics[c] == TrendStatisticsOf(Series(data, c), lib))
    && (forall c :: c in r.insights ==> r.insights[c] == TrendInsightOf(Series(data, c), lib))
    && r.recommendations == TimeSeriesRecommendations
  }

  /** The trend fit, statistics and insights of one reported series. */
  method AnalyseSeries(series: seq<real>, lib: Library) returns (st: TrendStatistics, ins: TrendInsight)
    ensures st == TrendStatisticsOf(series, lib)
    ensures ins == TrendInsightOf(series, lib)
  {
    var fit := lib.linregress(series);
    var summary := lib.describe(series);
    var seasonality := 0.0;
    if |series| >= 12 {
      var monthly := MonthlyMeans(series);
      seasonality := if summary.mean != 0.0 then lib.populationStd(monthly) / summary.mean else 0.0;
    }
    st := TrendStatistics(summary.mean, summary.std, summary.min, summary.max,
                          fit.slope, fit.r * fit.r, fit.p, seasonality);
    var direction := TrendDirection(fit.slope);
    var strength := StrengthOf(fit.r);
    ins := TrendInsight(direction, strength, VolatilityOf(summary.std, summary.mean),
                        SeasonalityOf(seasonality), NextPeriodForecast(fit, |series|));
  }

  /** `perform_time_series_analysis`. */
  method PerformTimeSeriesAnalysis(data: Frame, numericCols: seq<string>, lib: Library) returns (r: Report)
    requires |data.columns| > 0
    ensures IsTimeSeriesReport(data, numericCols, lib, r)
    ensures TimeColumn(Names(data)) !in r.statistics
    ensures forall c :: c in r.statistics ==> |Series(data, c)| > 3
  {
    var timeCol := FindTimeColumn(Names(data));
    var statistics: map<string, TrendStatistics> := map[];
    var insights: map<string, TrendInsight> := map[];
    for i := 0 to |numericCols|
      invariant forall c :: c in statistics <==> c in numericCols[..i] && ReportsSeries(data, timeCol, c)
      invariant insights.Keys == statistics.Keys
      invariant forall c :: c in statistics ==> statistics[c] == TrendStatisticsOf(Series(data, c), lib)
      invariant forall c :: c in insights ==> insights[c] == TrendInsightOf(Series(data, c), lib)
    {
      assert numericCols[..i + 1] == numericCols[..i] + [numericCols[i]];
      var col := numericCols[i];
      if col != timeCol {
        var series := Series(data, col);
        if |series| > 3 {
          var st, ins := AnalyseSeries(series, lib);
          statistics := statistics[col := st];
          insights := insights[col := ins];
        }
      }
    }
    assert numericCols[..|numericCols|] == numericCols;
    r := TimeSeriesReport(statistics, insights, TimeSeriesRecommendations);
  }

  // ---------------------------------------------------------------------------
  // Regression
  // ---------------------------------------------------------------------------

  /** `np.sum(np.abs(model.coef_))`. */
  function AbsSum(features: seq<string>, coef: string -> real): (total: real)
    ensures total >= 0.0
  {
    if features == [] then 0.0 else Abs(coef(features[0])) + AbsSum(features[1..], coef)
  }

  /** `coef_abs[i] / coef_sum if coef_sum > 0 else 0`. */
  function Importance(coefAbs: real, total: real): (imp: real)
    ensures total > 0.0 ==> imp * total == coefAbs
    ensures total <= 0.0 ==> imp == 0.0
    ensures 0.0 <= coefAbs <= total ==> 0.0 <= imp <= 1.0
  {
    if total > 0.0 then coefAbs / total else 0.0
  }

  /** The importance of every feature, in feature order. */
  function ImportancesOf(features: seq<string>, coef: string -> real, total: real): (imps: seq<real>)
    ensures |imps| == |features|
    ensures forall k :: 0 <= k < |features| ==> imps[k] == Importance(Abs(coef(features[k])), total)
  {
    if features == [] then []
    else [Importance(Abs(coef(features[0])), total)] + ImportancesOf(features[1..], coef, total)
  }

  lemma DivisionDistributes(a: real, b: real, total: real)
    requires total > 0.0
    ensures a / total + b / total == (a + b) / total
  {
  }

  lemma DivisionBy(a: real, total: real)
    requires total > 0.0
    ensures 0.0 <= a <= total ==> 0.0 <= a / total <= 1.0
    ensures a == total ==> a / total == 1.0
  {
  }

  lemma {:induction false} ImportancesSumScaled(features: seq<string>, coef: string -> real, total: real)
    requires total > 0.0
    ensures Sum(ImportancesOf(features, coef, total)) == AbsSum(features, coef) / total
  {
    if features != [] {
      ImportancesSumScaled(features[1..], coef, total);
      DivisionDistributes(Abs(coef(features[0])), AbsSum(features[1..], coef), total);
    }
  }

  lemma {:induction false} AbsTermBounded(features: seq<string>, coef: string -> real, k: nat)
    requires k < |features|
    ensures Abs(coef(features[k])) <= AbsSum(features, coef)
  {
    if k > 0 {
      AbsTermBounded(features[1..], coef, k - 1);
    }
  }

  lemma {:induction false} AbsSumZero(features: seq<string>, coef: string -> real, k: nat)
    requires k < |features| && AbsSum(features, coef) == 0.0
    ensures coef(features[k]) == 0.0
  {
    AbsTermBounded(features, coef, k);
  }

  /**
   * Normalised importances: each lies in [0, 1]; they sum to 1 when some
   * coefficient is non-zero, and they are all 0 otherwise.
   */
  lemma NormalisedImportances(features: seq<string>, coef: string -> real)
    ensures var total := AbsSum(features, coef);
            var imps := ImportancesOf(features, coef, total);
            && (forall k :: 0 <= k < |imps| ==> 0.0 <= imps[k] <= 1.0)
            && (total > 0.0 ==> Sum(imps) == 1.0)
            && (total == 0.0 ==> forall k :: 0 <= k < |imps| ==> imps[k] == 0.0)
  {
    var total := AbsSum(features, coef);
    var imps := ImportancesOf(features, coef, total);
    forall k | 0 <= k < |imps| ensures 0.0 <= imps[k] <= 1.0 {
      AbsTermBounded(features, coef, k);
      if total > 0.0 {
        DivisionBy(Abs(coef(features[k])), total);
      }
    }
    if total > 0.0 {
      ImportancesSumScaled(features, coef, total);
      DivisionBy(total, total);
    }
  }

  function RegressionRecommendations(topDriver: string, target: string): seq<string>
  {
    ["Focus on " + topDriver + " as it has the highest impact on " + target,
     "Use this model for forecasting and scenario planning",
     "Monitor key drivers regularly for business optimization"]
  }

  function EffectOf(col: string, lib: Library, total: real): FeatureEffect
  {
    var c := lib.linear.coefficient(col);
    FeatureEffect(c, Importance(Abs(c), total), lib.linear.correlation(col))
  }

  /** The fitted result for a target and its features (the last numeric column and the others). */
  ghost predicate IsRegressionFit(features: seq<string>, target: string, lib: Library, fit: RegressionFit)
    requires |features| > 0
  {
    var total := AbsSum(features, lib.linear.coefficient);
    var imps := ImportancesOf(features, lib.linear.coefficient, total);
    var top := FirstArgMax(imps);
    var r2 := lib.linear.rSquared;
    && fit.targetVariable == target
    && fit.rSquared == r2 && fit.intercept == lib.linear.intercept && fit.explainedVariance == r2
    && fit.featureImportance.Keys == (set c | c in features)
    && (forall c :: c in fit.featureImportance ==> fit.featureImportance[c] == EffectOf(c, lib, total))
    && fit.topDriver == features[top] && fit.topDriverImpact == imps[top]
    && fit.modelQuality == ModelQualityOf(r2) && fit.predictability == PredictabilityOf(r2)
    && fit.recommendations == RegressionRecommendations(features[top], target)
  }

  /** The target is the last numeric column and the features are the others, in order. */
  ghost predicate IsRegressionReport(data: Frame, numericCols: seq<string>, lib: Library, r: Report)
  {
    && r.RegressionReport?
    && (r.regression.Some? <==> |numericCols| >= 2 && |CompleteRows(data, numericCols)| >= 3)
    && (r.regression.Some? ==>
          IsRegressionFit(numericCols[..|numericCols| - 1], numericCols[|numericCols| - 1], lib, r.regression.value))
  }

  /** The top driver has the largest importance, and no earlier feature ties with it. */
  lemma TopDriverIsMaximal(features: seq<string>, target: string, lib: Library, fit: RegressionFit)
    requires |features| > 0 && IsRegressionFit(features, target, lib, fit)
    ensures fit.topDriver in features
    ensures forall c :: c in fit.featureImportance ==> fit.featureImportance[c].importance <= fit.topDriverImpact
  {
    var total := AbsSum(features, lib.linear.coefficient);
    var imps := ImportancesOf(features, lib.linear.coefficient, total);
    var top := FirstArgMax(imps);
    assert fit.topDriver == features[top] && fit.topDriverImpact == imps[top];
    forall c | c in fit.featureImportance
      ensures fit.featureImportance[c].importance <= fit.topDriverImpact
    {
      var k :| 0 <= k < |features| && features[k] == c;
      assert imps[k] == Importance(Abs(lib.linear.coefficient(c)), total);
      assert fit.featureImportance[c] == EffectOf(c, lib, total);
      assert imps[k] <= imps[FirstArgMax(imps)];
    }
  }

  /** `perform_regression_analysis`. */
  method PerformRegressionAnalysis(data: Frame, numericCols: seq<string>, lib: Library) returns (r: Report)
    ensures IsRegressionReport(data, numericCols, lib, r)
  {
    if |numericCols| < 2 {
      return RegressionReport(None);
    }
    var target := numericCols[|numericCols| - 1];
    var features := numericCols[..|numericCols| - 1];
    assert features + [target] == numericCols;
    var aligned := CompleteRows(data, features + [target]);
    if |aligned| < 3 {
      return RegressionReport(None);
    }
    var coef := lib.linear.coefficient;
    var total := AbsSum(features, coef);
    var effects: map<string, FeatureEffect> := map[];
    for k := 0 to |features|
      invariant forall c :: c in effects <==> c in features[..k]
      invariant forall c :: c in effects ==> effects[c] == EffectOf(c, lib, total)
    {
      assert features[..k + 1] == features[..k] + [features[k]];
      var col := features[k];
      var importance := if total > 0.0 then Abs(coef(col)) / total else 0.0;
      effects := effects[col := FeatureEffect(coef(col), importance, lib.linear.correlation(col))];
    }
    assert features[..|features|] == features;
    var imps := ImportancesOf(features, coef, total);
    var topDriver := features[FirstArgMax(imps)];
    var r2 := lib.linear.rSquared;
    var fit := RegressionFit(target, r2, lib.linear.intercept, effects, ModelQualityOf(r2), topDriver,
                             imps[FirstArgMax(imps)], r2, PredictabilityOf(r2),
                             RegressionRecommendations(topDriver, target));
    r := RegressionReport(Some(fit));
  }

  // ---------------------------------------------------------------------------
  // Clustering
  // ---------------------------------------------------------------------------

  /**
   * The result of the sweep over k in `range(2, min(6, rows))`: starting from
   * `optimal_clusters = 2` and `best_silhouette = -1`, a score replaces the best
   * only when strictly greater. So k has the largest score over the range and
   * no earlier k ties with it; k stays 2 when the range is empty or no score
   * beats -1.
   */
  predicate IsBestClusterCount(rows: nat, score: nat -> real, k: nat)
  {
    var hi := Min(6, rows);
    if exists j :: 2 <= j < hi && score(j) > -1.0 then
      && 2 <= k < hi
      && (forall j :: 2 <= j < hi ==> score(j) <= score(k))
      && (forall j :: 2 <= j < k ==> score(j) < score(k))
    else k == 2
  }

  /** The sweep names one k only. */
  lemma BestClusterCountUnique(rows: nat, score: nat -> real, k1: nat, k2: nat)
    requires IsBestClusterCount(rows, score, k1) && IsBestClusterCount(rows, score, k2)
    ensures k1 == k2
  {
    var hi := Min(6, rows);
    if exists j :: 2 <= j < hi && score(j) > -1.0 {
      assert score(k1) <= score(k2) && score(k2) <= score(k1);
    }
  }

  /** The `for n_clusters in range(2, min(6, len(X)))` loop. */
  method ChooseClusterCount(rows: nat, score: nat -> real) returns (k: nat)
    ensures IsBestClusterCount(rows, score, k)
  {
    var hi := Min(6, rows);
    k := 2;
    var best := -1.0;
    var n := 2;
    while n < hi
      invariant 2 <= n && (n <= hi || n == 2)
      invariant
        || (k == 2 && best == -1.0 && forall j :: 2 <= j < n ==> score(j) <= -1.0)
        || (&& 2 <= k < n && best == score(k) && best > -1.0
            && (forall j :: 2 <= j < n ==> score(j) <= best)
            && (forall j :: 2 <= j < k ==> score(j) < best))
    {
      var s := score(n);
      if s > best {
        best := s;
        k := n;
      }
      n := n + 1;
    }
    if exists j :: 2 <= j < hi && score(j) > -1.0 {
      assert n == hi;
    }
  }

  /** `X[cluster_labels == i]`: the aligned rows whose label is `i`. */
  function Members(aligned: seq<nat>, labels: seq<nat>, i: nat): seq<nat>
  {
    if aligned == [] || labels == [] then []
    else (if labels[0] == i then [aligned[0]] else []) + Members(aligned[1..], labels[1..], i)
  }

  function ProfileOf(data: Frame, col: string, members: seq<nat>, lib: Library): ClusterProfile
  {
    var s := lib.describe(ValuesAt(data, col, members));
    ClusterProfile(s.mean, s.std)
  }

  /** One cluster's entry: its size, its share of the aligned rows and its per-column profile. */
  ghost predicate IsClusterStatistics(data: Frame, numericCols: seq<string>, lib: Library, aligned: seq<nat>,
                                labels: seq<nat>, i: nat, cs: ClusterStatistics)
  {
    var members := Members(aligned, labels, i);
    && cs.size == Count(labels, i)
    && cs.percentage == Percentage(Count(labels, i), |aligned|)
    && (forall c :: c in cs.characteristics <==> c in numericCols)
    && (forall c :: c in cs.characteristics ==> cs.characteristics[c] == ProfileOf(data, c, members, lib))
  }

  function ClusteringRecommendations(k: nat): seq<string>
  {
    ["Your data naturally forms " + DecimalString(k) + " distinct groups",
     "Use clustering for customer segmentation or product categorization",
     "Focus on the main components that explain most variation"]
  }

  ghost predicate IsClusteringFit(data: Frame, numericCols: seq<string>, lib: Library, fit: ClusteringFit)
  {
    var aligned := CompleteRows(data, numericCols);
    var k := fit.optimalClusters;
    var labels := lib.clusterLabels(k);
    && |aligned| >= 3
    && IsBestClusterCount(|aligned|, lib.silhouette, k)
    && |fit.clusterStatistics| == k
    && (forall i :: 0 <= i < k ==>
          IsClusterStatistics(data, numericCols, lib, aligned, labels, i, fit.clusterStatistics[i]))
    && fit.pcaExplainedVariance == Take(lib.pcaRatios, 3)
    && fit.dataComplexity == ComplexityOf(lib.pcaRatios[0])
    && fit.naturalGroupings == k
    && fit.mainVariationExplained == lib.pcaRatios[0]
    && fit.recommendations == ClusteringRecommendations(k)
  }

  ghost predicate IsClusteringReport(data: Frame, numericCols: seq<string>, lib: Library, r: Report)
  {
    && r.ClusteringReport?
    && (r.clustering.Some? <==> |numericCols| >= 2 && |CompleteRows(data, numericCols)| >= 3)
    && (r.clustering.Some? ==> IsClusteringFit(data, numericCols, lib, r.clustering.value))
  }

  /** The percentages of the clusters listed so far, added up. */
  function TotalPercentage(stats: seq<ClusterStatistics>): real
  {
    if stats == [] then 0.0 else TotalPercentage(stats[..|stats| - 1]) + stats[|stats| - 1].percentage
  }

  lemma {:induction false} TotalPercentageIsPercentSum(stats: seq<ClusterStatistics>, labels: seq<nat>, total: nat)
    requires forall i :: 0 <= i < |stats| ==> stats[i].percentage == Percentage(Count(labels, i), total)
    ensures TotalPercentage(stats) == PercentSum(labels, |stats|, total)
  {
    if stats != [] {
      TotalPercentageIsPercentSum(stats[..|stats| - 1], labels, total);
    }
  }

  /**
   * The cluster percentages sum to 100 when KMeans labels every aligned row with
   * one of the chosen clusters.
   */
  lemma ClusterPercentagesSumTo100(data: Frame, numericCols: seq<string>, lib: Library, fit: ClusteringFit)
    requires IsClusteringFit(data, numericCols, lib, fit)
    requires |lib.clusterLabels(fit.optimalClusters)| == |CompleteRows(data, numericCols)|
    requires forall p :: 0 <= p < |lib.clusterLabels(fit.optimalClusters)| ==>
               lib.clusterLabels(fit.optimalClusters)[p] < fit.optimalClusters
    ensures TotalPercentage(fit.clusterStatistics) == 100.0
  {
    var labels := lib.clusterLabels(fit.optimalClusters);
    var aligned := CompleteRows(data, numericCols);
    TotalPercentageIsPercentSum(fit.clusterStatistics, labels, |aligned|);
    PercentagesSumTo100(labels, fit.optimalClusters);
  }

  /** The per-cluster loop, with its inner loop over the numeric columns. */
  method SummariseClusters(data: Frame, numericCols: seq<string>, lib: Library, aligned: seq<nat>,
                           labels: seq<nat>, k: nat) returns (stats: seq<ClusterStatistics>)
    ensures |stats| == k
    ensures forall i :: 0 <= i < k ==> IsClusterStatistics(data, numericCols, lib, aligned, labels, i, stats[i])
  {
    stats := [];
    for i := 0 to k
      invariant |stats| == i
      invariant forall q :: 0 <= q < i ==> IsClusterStatistics(data, numericCols, lib, aligned, labels, q, stats[q])
    {
      var members := Members(aligned, labels, i);
      var characteristics: map<string, ClusterProfile> := map[];
      for j := 0 to |numericCols|
        invariant forall c :: c in characteristics <==> c in numericCols[..j]
        invariant forall c :: c in characteristics ==> characteristics[c] == ProfileOf(data, c, members, lib)
      {
        assert numericCols[..j + 1] == numericCols[..j] + [numericCols[j]];
        var col := numericCols[j];
        var s := lib.describe(ValuesAt(data, col, members));
        characteristics := characteristics[col := ClusterProfile(s.mean, s.std)];
      }
      assert numericCols[..|numericCols|] == numericCols;
      var size := Count(labels, i);
      stats := stats + [ClusterStatistics(size, Percentage(size, |aligned|), characteristics)];
    }
  }

  /** `perform_clustering_analysis`. */
  method PerformClusteringAnalysis(data: Frame, numericCols: seq<string>, lib: Library) returns (r: Report)
    ensures IsClusteringReport(data, numericCols, lib, r)
  {
    if |numericCols| < 2 {
      return ClusteringReport(None);
    }
    var aligned := CompleteRows(data, numericCols);
    if |aligned| < 3 {
      return ClusteringReport(None);
    }
    var optimal := ChooseClusterCount(|aligned|, lib.silhouette);
    var labels := lib.clusterLabels(optimal);
    var stats := SummariseClusters(data, numericCols, lib, aligned, labels, optimal);
    var ratios := lib.pcaRatios;
    var fit := ClusteringFit(Take(ratios, 3), optimal, stats, ComplexityOf(ratios[0]), optimal, ratios[0],
                             ClusteringRecommendations(optimal));
    r := ClusteringReport(Some(fit));
  }

  // ---------------------------------------------------------------------------
  // Statistical tests
  // ---------------------------------------------------------------------------

  const TestsRecommendations: seq<string> :=
    ["Use parametric tests for normally distributed variables",
     "Focus on statistically significant relationships",
     "Consider data transformation for non-normal variables"]

  /** The normality test of one series: `is_normal` is p > 0.05. */
  function NormalityTestOf(series: seq<real>, lib: Library): (t: NormalityTest)
    ensures t.isNormal <==> t.pValue > 0.05
    ensures t.testUsed == Shapiro <==> |series| <= 5000
  {
    var kind := NormalityTestFor(|series|);
    var p := if kind == Shapiro then lib.shapiro(series) else lib.jarqueBera(series);
    NormalityTest(p > 0.05, p, kind)
  }

  /**
   * The correlation test of the pair at positions (i, j) of the column list: run
   * only on more than 3 rows common to both columns; `significant` is p < 0.05.
   */
  function PairTest(data: Frame, cols: seq<string>, lib: Library, p: Pair): (t: Option<CorrelationTest>)
    ensures t.Some? ==> p.i < |cols| && p.j < |cols|
    ensures t.Some? ==>
              var common := CompleteRows(data, [cols[p.i], cols[p.j]]);
              var res := lib.pearson(ValuesAt(data, cols[p.i], common), ValuesAt(data, cols[p.j], common));
              t.value.correlation == res.r && t.value.pValue == res.p
  {
    if p.i < |cols| && p.j < |cols| then
      var c1, c2 := cols[p.i], cols[p.j];
      var common := CompleteRows(data, [c1, c2]);
      if |common| > 3 then
        var res := lib.pearson(ValuesAt(data, c1, common), ValuesAt(data, c2, common));
        Some(CorrelationTest(c1, c2, res.r, res.p, res.p < 0.05, StrengthOf(res.r)))
      else None
    else None
  }

  /**
   * A pair gets a test exactly when both positions are columns and the two columns
   * share more than 3 complete rows; the test names the two columns, is
   * significant iff p < 0.05 and labels its strength from r.
   */
  lemma PairTestShape(data: Frame, cols: seq<string>, lib: Library, p: Pair)
    ensures var t := PairTest(data, cols, lib, p);
            && (t.Some? <==> p.i < |cols| && p.j < |cols| && |CompleteRows(data, [cols[p.i], cols[p.j]])| > 3)
            && (t.Some? ==> t.value.var1 == cols[p.i] && t.value.var2 == cols[p.j])
            && (t.Some? ==> (t.value.significant <==> t.value.pValue < 0.05))
            && (t.Some? ==> t.value.strength == StrengthOf(t.value.correlation))
  {
  }

  /** `PairTest` on the given columns, as a function of the pair. */
  function PairTester(data: Frame, cols: seq<string>, lib: Library): Pair -> Option<CorrelationTest>
  {
    p => PairTest(data, cols, lib, p)
  }

  /** `correlation_tests`: one test per pair that gets one, in loop order. */
  function CorrelationTestsOf(data: Frame, cols: seq<string>, lib: Library): (tests: seq<CorrelationTest>)
    ensures 2 * |tests| <= |cols| * (|cols| - 1)
  {
    CollectLength(UpperTriangle(|cols|), PairTester(data, cols, lib));
    UpperTriangleShape(|cols|);
    Collect(UpperTriangle(|cols|), PairTester(data, cols, lib))
  }

  /**
   * The correlation tests are exactly the tests of the pairs i < j of the
   * numeric columns that share more than 3 rows.
   */
  lemma CorrelationTestsCoverPairs(data: Frame, cols: seq<string>, lib: Library)
    ensures forall t :: t in CorrelationTestsOf(data, cols, lib) <==>
              exists i, j :: 0 <= i < j < |cols| && PairTest(data, cols, lib, Pair(i, j)) == Some(t)
  {
    CollectUpperTriangle(|cols|, PairTester(data, cols, lib));
  }

  function CountSignificant(tests: seq<CorrelationTest>): (n: nat)
    ensures n <= |tests|
  {
    if tests == [] then 0 else (if tests[0].significant then 1 else 0) + CountSignificant(tests[1..])
  }

  /** `len(normal_vars)`: the columns whose normality test passed. */
  function NormalCount(normality: map<string, NormalityTest>): nat
  {
    |set c | c in normality && normality[c].isNormal|
  }

  ghost predicate IsTestsFit(data: Frame, numericCols: seq<string>, lib: Library, fit: TestsFit)
  {
    && (forall c :: c in fit.normalityTests <==> c in numericCols && |Series(data, c)| > 3)
    && (forall c :: c in fit.normalityTests ==> fit.normalityTests[c] == NormalityTestOf(Series(data, c), lib))
    && fit.correlationTests == CorrelationTestsOf(data, numericCols, lib)
    && fit.normalDistributions == NormalCount(fit.normalityTests)
    && fit.significantRelationships == CountSignificant(fit.correlationTests)
    && fit.dataQuality == DataQualityOf(NormalCount(fit.normalityTests), |numericCols|)
    && fit.recommendations == TestsRecommendations
  }

  ghost predicate IsTestsReport(data: Frame, numericCols: seq<string>, lib: Library, r: Report)
  {
    && r.TestsReport?
    && (r.tests.Some? <==> |numericCols| >= 2)
    && (r.tests.Some? ==> IsTestsFit(data, numericCols, lib, r.tests.value))
  }

  /** `perform_statistical_tests`. */
  method PerformStatisticalTests(data: Frame, numericCols: seq<string>, lib: Library) returns (r: Report)
    ensures IsTestsReport(data, numericCols, lib, r)
  {
    if |numericCols| < 2 {
      return TestsReport(None);
    }
    var normality: map<string, NormalityTest> := map[];
    for i := 0 to |numericCols|
      invariant forall c :: c in normality <==> c in numericCols[..i] && |Series(data, c)| > 3
      invariant forall c :: c in normality ==> normality[c] == NormalityTestOf(Series(data, c), lib)
    {
      assert numericCols[..i + 1] == numericCols[..i] + [numericCols[i]];
      var col := numericCols[i];
      var series := Series(data, col);
      if |series| > 3 {
        var kind := NormalityTestFor(|series|);
        var p := if |series| <= 5000 then lib.shapiro(series) else lib.jarqueBera(series);
        normality := normality[col := NormalityTest(p > 0.05, p, kind)];
      }
    }
    assert numericCols[..|numericCols|] == numericCols;
    var tests := CollectTriangle(|numericCols|, PairTester(data, numericCols, lib));
    var normalCount := NormalCount(normality);
    var fit := TestsFit(normality, tests, normalCount, CountSignificant(tests),
                        DataQualityOf(normalCount, |numericCols|), TestsRecommendations);
    r := TestsReport(Some(fit));
  }

  // ---------------------------------------------------------------------------
  // Exploratory analysis
  // ---------------------------------------------------------------------------

  const ExploratoryRecommendations: seq<string> :=
    ["Data is ready for detailed analysis",
     "Focus on high-variance columns for insights",
     "Consider specific analysis types based on business goals"]

  /** `column_stats`: one entry per column with at least one value, in column order. */
  function ColumnEntries(data: Frame, cols: seq<string>, lib: Library): (entries: seq<ColumnEntry>)
    ensures |entries| <= |cols|
    ensures forall k :: 0 <= k < |entries| ==>
              var series := Series(data, entries[k].name);
              && entries[k].name in cols && entries[k].count == |series| > 0
              && entries[k].summary == lib.describe(series)
  {
    if cols == [] then []
    else
      var init, last := cols[..|cols| - 1], cols[|cols| - 1];
      var series := Series(data, last);
      var prev := ColumnEntries(data, init, lib);
      var entries := prev + (if |series| > 0 then [ColumnEntry(last, |series|, lib.describe(series))] else []);
      assert forall c :: c in init ==> c in cols;
      assert forall k :: 0 <= k < |prev| ==> entries[k] == prev[k];
      entries
  }

  /** Every listed column with at least one value has its entry. */
  lemma {:induction false} ColumnEntriesCover(data: Frame, cols: seq<string>, lib: Library, c: string)
    requires c in cols && Series(data, c) != []
    ensures exists k :: 0 <= k < |ColumnEntries(data, cols, lib)| && ColumnEntries(data, cols, lib)[k].name == c
  {
    var init, last := cols[..|cols| - 1], cols[|cols| - 1];
    var prev := ColumnEntries(data, init, lib);
    var entries := ColumnEntries(data, cols, lib);
    assert cols == init + [last];
    if c == last {
      assert entries[|entries| - 1].name == c;
    } else {
      ColumnEntriesCover(data, init, lib, c);
      var k :| 0 <= k < |prev| && prev[k].name == c;
      assert entries[k] == prev[k];
    }
  }

  /** `std ** 2`; NaN when the std is NaN. */
  function Variance(e: ColumnEntry): Option<real>
  {
    match e.summary.std
    case Some(s) => Some(s * s)
    case None => None
  }

  /** `sum(std ** 2)`: NaN as soon as one std is NaN. */
  function TotalVariance(entries: seq<ColumnEntry>): (t: Option<real>)
    ensures t.Some? <==> forall k :: 0 <= k < |entries| ==> entries[k].summary.std.Some?
    ensures t.Some? ==> t.value >= 0.0
  {
    if entries == [] then Some(0.0)
    else
      match (Variance(entries[0]), TotalVariance(entries[1..]))
      case (Some(v), Some(rest)) =>
        assert forall k :: 1 <= k < |entries| ==> entries[k] == entries[1..][k - 1];
        Some(v + rest)
      case _ =>
        assert forall k :: 1 <= k < |entries| ==> entries[k] == entries[1..][k - 1];
        None
  }

  /** The names of the entries whose variance exceeds `threshold`, in entry order. */
  function VarianceAbove(entries: seq<ColumnEntry>, threshold: real): (r: seq<string>)
    ensures |r| <= |entries|
  {
    if entries == [] then []
    else
      var v := Variance(entries[0]);
      (if v.Some? && v.value > threshold then [entries[0].name] else []) + VarianceAbove(entries[1..], threshold)
  }

  /**
   * `high_variance_columns`: variance above 1.5 times the mean variance. A NaN
   * std makes the total NaN, and every comparison with NaN is false.
   */
  function HighVarianceColumns(entries: seq<ColumnEntry>): (r: seq<string>)
    ensures TotalVariance(entries).None? ==> r == []
    ensures |r| <= |entries|
    ensures TotalVariance(entries).Some? && entries != [] ==>
              var threshold := TotalVariance(entries).value / |entries| as real * 1.5;
              forall c :: c in r <==> exists k :: 0 <= k < |entries| && entries[k].name == c &&
                                                 Variance(entries[k]).Some? && Variance(entries[k]).value > threshold
  {
    match TotalVariance(entries)
    case None => []
    case Some(total) =>
      if entries == [] then []
      else
        VarianceAboveMembers(entries, total / |entries| as real * 1.5);
        VarianceAbove(entries, total / |entries| as real * 1.5)
  }

  /** A column is flagged exactly when its variance exceeds the threshold. */
  lemma {:induction false} VarianceAboveMembers(entries: seq<ColumnEntry>, threshold: real)
    ensures forall c :: c in VarianceAbove(entries, threshold) <==>
              exists k :: 0 <= k < |entries| && entries[k].name == c &&
                          Variance(entries[k]).Some? && Variance(entries[k]).value > threshold
  {
    if entries != [] {
      VarianceAboveMembers(entries[1..], threshold);
      assert forall k :: 1 <= k < |entries| ==> entries[k] == entries[1..][k - 1];
      forall c | c in VarianceAbove(entries, threshold)
        ensures exists k :: 0 <= k < |entries| && entries[k].name == c &&
                            Variance(entries[k]).Some? && Variance(entries[k]).value > threshold
      {
        if c !in VarianceAbove(entries[1..], threshold) {
          assert entries[0].name == c;
        } else {
          var k :| 0 <= k < |entries[1..]| && entries[1..][k].name == c &&
                   Variance(entries[1..][k]).Some? && Variance(entries[1..][k]).value > threshold;
          assert entries[k + 1] == entries[1..][k];
        }
      }
    }
  }

  /** The sum of the variances above `threshold` (all stds present). */
  function SumAbove(entries: seq<ColumnEntry>, threshold: real): real
  {
    if entries == [] then 0.0
    else
      var v := Variance(entries[0]);
      (if v.Some? && v.value > threshold then v.value else 0.0) + SumAbove(entries[1..], threshold)
  }

  /** The variances above the threshold add up to at most the total variance. */
  lemma {:induction false} SumAboveAtMostTotal(entries: seq<ColumnEntry>, threshold: real)
    requires TotalVariance(entries).Some?
    ensures SumAbove(entries, threshold) <= TotalVariance(entries).value
  {
    if entries != [] {
      assert TotalVariance(entries[1..]).Some?;
      SumAboveAtMostTotal(entries[1..], threshold);
      var v := Variance(entries[0]);
      assert v.Some? && v.value >= 0.0 by {
        var s := entries[0].summary.std.value;
        assert s * s >= 0.0;
      }
    }
  }

  /** `n * t`, written as a sum of `n` copies of `t`. */
  function Times(n: nat, t: real): real
  {
    if n == 0 then 0.0 else Times(n - 1, t) + t
  }

  lemma {:induction false} TimesIsProduct(n: nat, t: real)
    ensures Times(n, t) == n as real * t
  {
    if n > 0 {
      TimesIsProduct(n - 1, t);
      Distribute((n - 1) as real, 1.0, t);
    }
  }

  /** Each flagged variance exceeds the threshold, so their sum exceeds the count times the threshold. */
  lemma {:induction false} SumAboveExceedsCount(entries: seq<ColumnEntry>, threshold: real)
    ensures SumAbove(entries, threshold) >= Times(|VarianceAbove(entries, threshold)|, threshold)
    ensures |VarianceAbove(entries, threshold)| > 0 ==>
              SumAbove(entries, threshold) > Times(|VarianceAbove(entries, threshold)|, threshold)
  {
    if entries != [] {
      var rest := entries[1..];
      SumAboveExceedsCount(rest, threshold);
      var v := Variance(entries[0]);
      var h := |VarianceAbove(rest, threshold)|;
      if v.Some? && v.value > threshold {
        assert |VarianceAbove(entries, threshold)| == h + 1;
        assert SumAbove(entries, threshold) == v.value + SumAbove(rest, threshold);
        assert Times(h + 1, threshold) == Times(h, threshold) + threshold;
      } else {
        assert |VarianceAbove(entries, threshold)| == h;
        assert SumAbove(entries, threshold) == SumAbove(rest, threshold);
      }
    }
  }

  lemma SumAboveBounds(entries: seq<ColumnEntry>, threshold: real)
    requires TotalVariance(entries).Some?
    ensures SumAbove(entries, threshold) <= TotalVariance(entries).value
    ensures SumAbove(entries, threshold) >= |VarianceAbove(entries, threshold)| as real * threshold
    ensures |VarianceAbove(entries, threshold)| > 0 ==>
              SumAbove(entries, threshold) > |VarianceAbove(entries, threshold)| as real * threshold
  {
    SumAboveAtMostTotal(entries, threshold);
    SumAboveExceedsCount(entries, threshold);
    var h := |VarianceAbove(entries, threshold)|;
    TimesIsProduct(h, threshold);
    assert Times(h, threshold) == h as real * threshold;
  }

  /**
   * Fewer than two thirds of the columns can be flagged as high-variance: a
   * column needs more than 1.5 times the mean variance to be flagged.
   */
  lemma HighVarianceIsMinority(entries: seq<ColumnEntry>)
    ensures 3 * |HighVarianceColumns(entries)| < 2 * |entries| || HighVarianceColumns(entries) == []
  {
    var total := TotalVariance(entries);
    if total.Some? && entries != [] {
      var t := total.value / |entries| as real * 1.5;
      var h := |VarianceAbove(entries, t)|;
      SumAboveBounds(entries, t);
      if h > 0 {
        AboveMeanBound(h as real, total.value, |entries| as real);
        assert 3.0 * h as real < 2.0 * |entries| as real;
      }
    }
  }

  lemma AboveMeanBound(h: real, total: real, n: real)
    requires n > 0.0 && h >= 0.0 && total >= 0.0 && h * (total / n * 1.5) < total
    ensures 3.0 * h < 2.0 * n
  {
    var mean := total / n;
    assert total == mean * n;
    assert mean > 0.0;
    assert (h * 1.5) * mean < n * mean;
  }

  ghost predicate IsExploratoryFit(data: Frame, numericCols: seq<string>, lib: Library, fit: ExploratoryFit)
  {
    && fit.columnStatistics == ColumnEntries(data, numericCols, lib)
    && fit.highVarianceColumns == HighVarianceColumns(fit.columnStatistics)
    && fit.mostVariableColumns == Take(fit.highVarianceColumns, 3)
    && fit.rows == data.rows && fit.columns == |numericCols|
    && fit.recommendations == ExploratoryRecommendations
  }

  ghost predicate IsExploratoryReport(data: Frame, numericCols: seq<string>, lib: Library, r: Report)
  {
    r.ExploratoryReport? && IsExploratoryFit(data, numericCols, lib, r.exploratory)
  }

  /** `perform_exploratory_analysis`. */
  method PerformExploratoryAnalysis(data: Frame, numericCols: seq<string>, lib: Library) returns (r: Report)
    ensures IsExploratoryReport(data, numericCols, lib, r)
  {
    var entries: seq<ColumnEntry> := [];
    for i := 0 to |numericCols|
      invariant entries == ColumnEntries(data, numericCols[..i], lib)
    {
      assert numericCols[..i + 1][..i] == numericCols[..i];
      var col := numericCols[i];
      var series := Series(data, col);
      if |series| > 0 {
        entries := entries + [ColumnEntry(col, |series|, lib.describe(series))];
      }
    }
    assert numericCols[..|numericCols|] == numericCols;
    var high := HighVarianceColumns(entries);
    r := ExploratoryReport(ExploratoryFit(entries, high, data.rows, |numericCols|, Take(high, 3),
                                          ExploratoryRecommendations));
  }

  // ---------------------------------------------------------------------------
  // analyze_data
  // ---------------------------------------------------------------------------

  ghost predicate IsReportFor(routine: Routine, data: Frame, numericCols: seq<string>, lib: Library, r: Report)
    requires |data.columns| > 0
  {
    match routine
    case TimeSeries => IsTimeSeriesReport(data, numericCols, lib, r)
    case Regression => IsRegressionReport(data, numericCols, lib, r)
    case Clustering => IsClusteringReport(data, numericCols, lib, r)
    case StatisticalTests => IsTestsReport(data, numericCols, lib, r)
    case Exploratory => IsExploratoryReport(data, numericCols, lib, r)
  }

  /** `analyze_data`. */
  method AnalyzeData(data: Frame, analysisType: string, selected: seq<string>, lib: Library) returns (out: Outcome)
    ensures IsEmpty(data) ==> out == Failed(NoDataError)
    ensures !IsEmpty(data) && NumericNames(AnalysedFrame(data, selected)) == [] ==> out == Failed(NoNumericError)
    ensures !IsEmpty(data) && NumericNames(AnalysedFrame(data, selected)) != [] ==>
              && out.Analysed?
              && out.dataPointsAnalyzed == data.rows
              && out.columnsAnalyzed == |selected|
              && out.analysisType == analysisType
              && |AnalysedFrame(data, selected).columns| > 0
              && IsReportFor(Dispatch(analysisType), AnalysedFrame(data, selected),
                             NumericNames(AnalysedFrame(data, selected)), lib, out.report)
  {
    if IsEmpty(data) {
      return Failed(NoDataError);
    }
    var analysed := AnalysedFrame(data, selected);
    var numericCols := NumericNames(analysed);
    if numericCols == [] {
      return Failed(NoNumericError);
    }
    var report: Report;
    match Dispatch(analysisType) {
      case TimeSeries =>
        report := PerformTimeSeriesAnalysis(analysed, numericCols, lib);
      case Regression =>
        report := PerformRegressionAnalysis(analysed, numericCols, lib);
      case Clustering =>
        report := PerformClusteringAnalysis(analysed, numericCols, lib);
      case StatisticalTests =>
        report := PerformStatisticalTests(analysed, numericCols, lib);
      case Exploratory =>
        report := PerformExploratoryAnalysis(analysed, numericCols, lib);
    }
    out := Analysed(data.rows, |selected|, analysisType, report);
  }
}
