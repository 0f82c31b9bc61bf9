/**
 * `DataAnalysisEngine`: the data summary, the correlation, regression,
 * clustering, hypothesis-test and forecast reports, and the request dispatch of
 * the command-line entry point.
 *
 * The engine holds the frame built from the request's records and never
 * reassigns it, so it is modelled as a value. The numbers the statistics and
 * machine-learning libraries compute are inputs, supplied by a `Library`.
 */
module AnalysisEngine {
  import opened Wrappers
  import opened Seqs
  import opened Text
  import opened Frames
  import opened Pairs
  import opened Sorting

  // ---------------------------------------------------------------------------
  // Library results taken as inputs
  // ---------------------------------------------------------------------------

  /** `mean()`, `median()`, `std()` (NaN below two values), `min()`, `max()` of a series. */
  datatype Description = Description(mean: real, median: real, std: Option<real>, min: real, max: real)

  /** `stats.linregress(np.arange(n), data)`. */
  datatype Trend = Trend(slope: real, intercept: real, r: real)

  /** The random forest and the linear model fitted on the mean-filled data. */
  datatype ModelFits = ModelFits(randomForestR2: real, linearRegressionR2: real, importances: seq<real>)

  /** A test statistic and its p-value (`ttest_ind`, `f_oneway`). */
  datatype TestStatistic = TestStatistic(statistic: real, p: real)

  datatype Library = Library(
    describe: seq<real> -> Description,
    corr: (string, string) -> Option<real>,            // df[numeric_cols].corr(); None is NaN
    fitModels: (string, seq<string>) -> ModelFits,    // target, features
    inertia: (seq<string>, nat) -> real,              // KMeans(k).fit(X_scaled).inertia_
    clusterLabels: (seq<string>, nat) -> seq<nat>,    // KMeans(k).fit_predict(X_scaled), one per row
    ttest: (seq<real>, seq<real>) -> TestStatistic,
    anova: seq<seq<real>> -> TestStatistic,
    linregress: seq<real> -> Trend,
    sqrt: real -> real)

  /** What a `run_*` method gives back: its error dictionary, an exception, or its report. */
  datatype Outcome<T> = Failure(error: string) | Raised | Success(value: T)

  const CorrelationError := "Need at least 2 numeric columns for correlation analysis"
  const NoFeaturesError := "No feature columns available for regression"
  const ClusteringError := "Need at least 2 numeric columns for clustering"
  const TooFewPointsError := "Need at least 3 data points for forecasting"

  function TargetNotFound(target: string): string
  {
    "Target column " + target + " not found"
  }

  /** `numeric_cols`: every numeric column, or the requested ones that are numeric, in request order. */
  function NumericSelection(f: Frame, columns: Option<seq<string>>): (cols: seq<string>)
    ensures columns.None? ==> cols == NumericNames(f)
    ensures columns.Some? ==> forall c :: c in cols <==> c in columns.value && c in NumericNames(f)
  {
    match columns
    case None => NumericNames(f)
    case Some(cs) => Keep(cs, NumericNames(f))
  }

  // ---------------------------------------------------------------------------
  // Data summary
  // ---------------------------------------------------------------------------

  datatype BasicStats = BasicStats(mean: real, median: real, std: Option<real>, min: real, max: real, count: nat)

  datatype DataSummary = DataSummary(totalRows: nat, totalColumns: nat, numericColumns: seq<string>,
                                     categoricalColumns: seq<string>, missingValues: map<string, nat>,
                                     basicStats: map<string, BasicStats>)

  /** `isnull().sum()` of one column: every cell is either missing or present. */
  function MissingCount(vs: seq<Option<real>>): (n: nat)
    ensures n + |Present(vs)| == |vs|
  {
    if vs == [] then 0 else (if vs[0].None? then 1 else 0) + MissingCount(vs[1..])
  }

  /** The non-numeric (`object`) columns, in frame order. */
  function CategoricalNamesOf(cols: seq<Column>): (r: seq<string>)
    ensures forall n :: n in r <==> exists k :: 0 <= k < |cols| && !cols[k].numeric && cols[k].name == n
    ensures |r| + |NumericNamesOf(cols)| == |cols|
  {
    if cols == [] then []
    else
      var rest := CategoricalNamesOf(cols[1..]);
      assert forall k :: 1 <= k < |cols| ==> cols[k] == cols[1..][k - 1];
      (if cols[0].numeric then [] else [cols[0].name]) + rest
  }

  /** `df[col].describe()` read off for one column: `count` is the number of non-missing values. */
  function StatsOf(series: seq<real>, describe: seq<real> -> Description): (st: BasicStats)
    ensures st.count == |series|
    ensures var d := describe(series);
            st.mean == d.mean && st.median == d.median && st.std == d.std && st.min == d.min && st.max == d.max
  {
    var d := describe(series);
    BasicStats(d.mean, d.median, d.std, d.min, d.max, |series|)
  }

  /** `missing_values`: the missing count of every column. */
  function MissingMap(f: Frame): (m: map<string, nat>)
    ensures forall c :: c in m <==> c in Names(f)
    ensures forall c :: c in m ==> m[c] + |Series(f, c)| == |ValuesOf(f, c)|
  {
    map c | c in Names(f) :: MissingCount(ValuesOf(f, c))
  }

  /** `basic_stats`: the description of every listed column's values. */
  function StatsMap(f: Frame, names: seq<string>, describe: seq<real> -> Description): (m: map<string, BasicStats>)
    ensures forall c :: c in m <==> c in names
    ensures forall c :: c in m ==> m[c].count == |Series(f, c)|
    ensures forall c :: c in m ==> m[c] == StatsOf(Series(f, c), describe)
  {
    map c | c in names :: StatsOf(Series(f, c), describe)
  }

  /** Every column is either numeric or categorical; the two lists together are as long as the frame is wide. */
  lemma ColumnsPartition(f: Frame)
    ensures |NumericNames(f)| + |CategoricalNamesOf(f.columns)| == |f.columns|
    ensures forall c :: c in Names(f) <==> c in NumericNames(f) || c in CategoricalNamesOf(f.columns)
  {
    forall c | c in Names(f) ensures c in NumericNames(f) || c in CategoricalNamesOf(f.columns) {
      var k :| 0 <= k < |Names(f)| && Names(f)[k] == c;
      assert f.columns[k].name == c;
    }
    forall c | c in CategoricalNamesOf(f.columns) ensures c in Names(f) {
      var k :| 0 <= k < |f.columns| && !f.columns[k].numeric && f.columns[k].name == c;
      assert Names(f)[k] == c;
    }
    NumericNamesAreColumns(f);
  }

  /**
   * `get_data_summary()`: a missing count for every column, and basic statistics
   * exactly for the numeric columns, where `count` plus the missing count is the
   * number of cells of the column.
   */
  function DataSummaryOf(f: Frame, describe: seq<real> -> Description): (s: DataSummary)
    ensures s.totalColumns == |f.columns| && s.totalRows == f.rows
    ensures s.numericColumns == NumericNames(f) && s.categoricalColumns == CategoricalNamesOf(f.columns)
    ensures forall c :: c in s.missingValues <==> c in Names(f)
    ensures forall c :: c in s.basicStats <==> c in s.numericColumns
    ensures forall c :: c in s.basicStats ==>
              c in s.missingValues && s.basicStats[c].count + s.missingValues[c] == |ValuesOf(f, c)|
    ensures forall c :: c in s.basicStats ==> s.basicStats[c] == StatsOf(Series(f, c), describe)
  {
    NumericNamesAreColumns(f);
    DataSummary(f.rows, |f.columns|, NumericNames(f), CategoricalNamesOf(f.columns),
                MissingMap(f), StatsMap(f, NumericNames(f), describe))
  }

  // ---------------------------------------------------------------------------
  // Correlation analysis
  // ---------------------------------------------------------------------------

  datatype CorrelationStrength = VeryWeak | Weak | Moderate | Strong {
    function Rank(): nat
    {
      match this
      case VeryWeak => 0
      case Weak => 1
      case Moderate => 2
      case Strong => 3
    }

    function Text(): string
    {
      match this
      case VeryWeak => "Very Weak"
      case Weak => "Weak"
      case Moderate => "Moderate"
      case Strong => "Strong"
    }
  }

  /** `_interpret_correlation`: inclusive thresholds 0.7, 0.3 and 0.1. */
  function InterpretCorrelation(v: real): (s: CorrelationStrength)
    ensures s == Strong <==> v >= 0.7
    ensures s == Moderate <==> 0.3 <= v < 0.7
    ensures s == Weak <==> 0.1 <= v < 0.3
    ensures s == VeryWeak <==> v < 0.1
  {
    if v >= 0.7 then Strong else if v >= 0.3 then Moderate else if v >= 0.1 then Weak else VeryWeak
  }

  /** A larger value never gets a weaker label. */
  lemma InterpretCorrelationMonotone(a: real, b: real)
    requires a <= b
    ensures InterpretCorrelation(a).Rank() <= InterpretCorrelation(b).Rank()
  {
  }

  datatype CorrelationEntry = CorrelationEntry(var1: string, var2: string, correlation: real,
                                               strength: CorrelationStrength)

  /** The entry for the pair at positions (i, j) of the column list; none for a NaN coefficient. */
  function CorrelationAt(cols: seq<string>, corr: (string, string) -> Option<real>, p: Pair): (r: Option<CorrelationEntry>)
    ensures r.Some? <==> p.i < |cols| && p.j < |cols| && corr(cols[p.i], cols[p.j]).Some?
    ensures r.Some? ==> && r.value.var1 == cols[p.i] && r.value.var2 == cols[p.j]
                        && Some(r.value.correlation) == corr(cols[p.i], cols[p.j])
                        && r.value.strength == InterpretCorrelation(Abs(r.value.correlation))
  {
    if p.i < |cols| && p.j < |cols| then
      match corr(cols[p.i], cols[p.j])
      case Some(v) => Some(CorrelationEntry(cols[p.i], cols[p.j], v, InterpretCorrelation(Abs(v))))
      case None => None
    else None
  }

  function CorrelationFinder(cols: seq<string>, corr: (string, string) -> Option<real>): Pair -> Option<CorrelationEntry>
  {
    p => CorrelationAt(cols, corr, p)
  }

  /** `correlations` before sorting: one entry per non-NaN pair i < j, in loop order. */
  function CorrelationPairs(cols: seq<string>, corr: (string, string) -> Option<real>): seq<CorrelationEntry>
  {
    Collect(UpperTriangle(|cols|), CorrelationFinder(cols, corr))
  }

  /** The sort key `abs(x['correlation'])`. */
  function AbsCorrelation(e: CorrelationEntry): real
  {
    Abs(e.correlation)
  }

  datatype CorrelationAnalysis = CorrelationAnalysis(topCorrelations: seq<CorrelationEntry>, pairCount: nat,
                                                     variableCount: nat, summary: string)

  function CorrelationSummary(pairs: nat, variables: nat): string
  {
    "Found " + DecimalString(pairs) + " correlation pairs among " + DecimalString(variables) + " numeric variables"
  }

  /** `run_correlation_analysis(columns)`. */
  function CorrelationAnalysisOf(f: Frame, columns: Option<seq<string>>, corr: (string, string) -> Option<real>)
    : (r: Outcome<CorrelationAnalysis>)
    ensures r.Failure? <==> |NumericSelection(f, columns)| < 2
    ensures r.Failure? ==> r.error == CorrelationError
    ensures !r.Raised?
    ensures r.Success? ==> r.value.variableCount == |NumericSelection(f, columns)|
    ensures r.Success? ==> r.value.pairCount == |CorrelationPairs(NumericSelection(f, columns), corr)|
  {
    var cols := NumericSelection(f, columns);
    if |cols| < 2 then Failure(CorrelationError)
    else
      var pairs := CorrelationPairs(cols, corr);
      Success(CorrelationAnalysis(Take(SortDesc(pairs, AbsCorrelation), 10), |pairs|, |cols|,
                                  CorrelationSummary(|pairs|, |cols|)))
  }

  /** Every entry names a pair i < j of columns, carries its coefficient and is labelled from its absolute value. */
  lemma CorrelationEntriesFromPairs(cols: seq<string>, corr: (string, string) -> Option<real>, e: CorrelationEntry)
    requires e in CorrelationPairs(cols, corr)
    ensures exists i, j :: 0 <= i < j < |cols| && e.var1 == cols[i] && e.var2 == cols[j] &&
                           corr(cols[i], cols[j]) == Some(e.correlation)
    ensures e.strength == InterpretCorrelation(Abs(e.correlation))
  {
    var find := CorrelationFinder(cols, corr);
    CollectUpperTriangle(|cols|, find);
    var i, j :| 0 <= i < j < |cols| && find(Pair(i, j)) == Some(e);
    assert CorrelationAt(cols, corr, Pair(i, j)) == Some(e);
  }

  /** Every pair i < j with a coefficient that is not NaN has its entry. */
  lemma CorrelationPairsCovered(cols: seq<string>, corr: (string, string) -> Option<real>, i: nat, j: nat, v: real)
    requires i < j < |cols| && corr(cols[i], cols[j]) == Some(v)
    ensures CorrelationEntry(cols[i], cols[j], v, InterpretCorrelation(Abs(v))) in CorrelationPairs(cols, corr)
  {
    var find := CorrelationFinder(cols, corr);
    CollectUpperTriangle(|cols|, find);
    assert find(Pair(i, j)) == Some(CorrelationEntry(cols[i], cols[j], v, InterpretCorrelation(Abs(v))));
  }

  /** There are at most n(n-1)/2 entries for n columns. */
  lemma CorrelationPairsCount(cols: seq<string>, corr: (string, string) -> Option<real>)
    ensures 2 * |CorrelationPairs(cols, corr)| <= |cols| * (|cols| - 1)
  {
    CollectLength(UpperTriangle(|cols|), CorrelationFinder(cols, corr));
    UpperTriangleShape(|cols|);
  }

  /**
   * `top_correlations`: the ten entries with the largest absolute coefficient,
   * in descending order; none of them is smaller than an entry left out, and
   * entries with equal keys keep their loop order.
   */
  lemma TopCorrelationsRanked(f: Frame, columns: Option<seq<string>>, corr: (string, string) -> Option<real>)
    requires CorrelationAnalysisOf(f, columns, corr).Success?
    ensures var pairs := CorrelationPairs(NumericSelection(f, columns), corr);
            var ranked := SortDesc(pairs, AbsCorrelation);
            var top := CorrelationAnalysisOf(f, columns, corr).value.topCorrelations;
            && top == Take(ranked, 10)
            && |top| == Min(10, |pairs|)
            && SortedDesc(top, AbsCorrelation)
            && multiset(top) <= multiset(pairs)
            && (forall a, b :: 0 <= a < |top| <= b < |ranked| ==> AbsCorrelation(ranked[a]) >= AbsCorrelation(ranked[b]))
            && (forall v :: WithKey(ranked, AbsCorrelation, v) == WithKey(pairs, AbsCorrelation, v))
  {
    var pairs := CorrelationPairs(NumericSelection(f, columns), corr);
    TopKeepsLargest(pairs, AbsCorrelation, 10);
    forall v ensures WithKey(SortDesc(pairs, AbsCorrelation), AbsCorrelation, v) == WithKey(pairs, AbsCorrelation, v) {
      SortDescStable(pairs, AbsCorrelation, v);
    }
  }

  // ---------------------------------------------------------------------------
  // Regression analysis
  // ---------------------------------------------------------------------------

  datatype FeatureImportance = FeatureImportance(feature: string, importance: real)

  datatype ModelChoice = RandomForest | LinearRegression {
    function Text(): string
    {
      match this
      case RandomForest => "Random Forest"
      case LinearRegression => "Linear Regression"
    }
  }

  /** `model_comparison`: the random forest only when its R² is strictly larger. */
  function ChooseModel(rfR2: real, lrR2: real): (m: ModelChoice)
    ensures m == RandomForest <==> rfR2 > lrR2
  {
    if rfR2 > lrR2 then RandomForest else LinearRegression
  }

  datatype RegressionAnalysis = RegressionAnalysis(targetColumn: string, featureColumns: seq<string>,
                                                   randomForestR2: real, linearRegressionR2: real,
                                                   featureImportance: seq<FeatureImportance>,
                                                   topDrivers: seq<FeatureImportance>,
                                                   modelComparison: ModelChoice, bestR2: real)

  /**
   * A column the models can be fitted on: it exists, is numeric and has a value,
   * so filling its gaps with its mean leaves no NaN (pandas and scikit-learn
   * raise on anything else).
   */
  predicate Usable(f: Frame, c: string)
  {
    c in NumericNames(f) && Series(f, c) != []
  }

  /** `[c for c in names if c != target]`. */
  function Except(names: seq<string>, target: string): (r: seq<string>)
    ensures forall c :: c in r <==> c in names && c != target
    ensures |r| <= |names|
  {
    if names == [] then []
    else (if names[0] != target then [names[0]] else []) + Except(names[1..], target)
  }

  /** The filter keeps the list's order: it distributes over concatenation. */
  lemma {:induction false} ExceptAppend(a: seq<string>, b: seq<string>, target: string)
    ensures Except(a + b, target) == Except(a, target) + Except(b, target)
  {
    if a == [] {
      assert a + b == b;
    } else {
      assert (a + b)[1..] == a[1..] + b;
      ExceptAppend(a[1..], b, target);
    }
  }

  /** A list without the target is kept exactly as given. */
  lemma {:induction false} ExceptWithoutTarget(names: seq<string>, target: string)
    requires target !in names
    ensures Except(names, target) == names
  {
    if names != [] {
      ExceptWithoutTarget(names[1..], target);
    }
  }

  /** `list(zip(features, importances))`: as long as the shorter list. */
  function Zip(features: seq<string>, importances: seq<real>): (r: seq<FeatureImportance>)
    ensures |r| == Min(|features|, |importances|)
    ensures forall k :: 0 <= k < |r| ==> r[k] == FeatureImportance(features[k], importances[k])
  {
    seq(Min(|features|, |importances|), k requires 0 <= k < Min(|features|, |importances|) =>
          FeatureImportance(features[k], importances[k]))
  }

  function ImportanceKey(fi: FeatureImportance): real
  {
    fi.importance
  }

  function Max(a: real, b: real): real
  {
    if a >= b then a else b
  }

  // ---------------------------------------------------------------------------
  // Clustering analysis
  // ---------------------------------------------------------------------------

  /** The end of `K_range = range(2, min(8, len(df) // 2))`. */
  function KRangeEnd(rows: nat): nat
  {
    Min(8, rows / 2)
  }

  /** `len(K_range)`. */
  function KRangeSize(rows: nat): nat
  {
    if KRangeEnd(rows) > 2 then KRangeEnd(rows) - 2 else 0
  }

  /** `inertias`: the inertia for each k of `K_range`, in order. */
  function Inertias(cols: seq<string>, rows: nat, inertia: (seq<string>, nat) -> real): (xs: seq<real>)
    ensures |xs| == KRangeSize(rows)
    ensures forall j :: 0 <= j < |xs| ==> xs[j] == inertia(cols, j + 2)
  {
    seq(KRangeSize(rows), j requires 0 <= j < KRangeSize(rows) => inertia(cols, j + 2))
  }

  /** `diffs = [inertias[i] - inertias[i+1] for i in range(len(inertias) - 1)]`. */
  function Diffs(xs: seq<real>): (d: seq<real>)
    ensures |d| == if |xs| == 0 then 0 else |xs| - 1
    ensures forall i :: 0 <= i < |d| ==> d[i] == xs[i] - xs[i + 1]
  {
    if |xs| < 2 then [] else seq(|xs| - 1, i requires 0 <= i < |xs| - 1 => xs[i] - xs[i + 1])
  }

  /**
   * The elbow choice: 3 with fewer than two inertias; otherwise the k of
   * `K_range` after which the inertia drops most, the first such k on a tie.
   */
  function ElbowClusters(inertias: seq<real>): (k: nat)
    ensures |inertias| < 2 ==> k == 3
    ensures |inertias| >= 2 ==> 2 <= k <= |inertias|
    ensures |inertias| >= 2 ==>
              forall i :: 0 <= i < |inertias| - 1 ==>
                inertias[i] - inertias[i + 1] <= inertias[k - 2] - inertias[k - 1]
    ensures |inertias| >= 2 ==>
              forall i :: 0 <= i < k - 2 ==> inertias[i] - inertias[i + 1] < inertias[k - 2] - inertias[k - 1]
  {
    if |inertias| < 2 then 3
    else
      var j := FirstArgMax(Diffs(inertias));
      LargestDrop(inertias, j);
      2 + j
  }

  /** The first largest entry of `Diffs(xs)` is the first largest drop `xs[j] - xs[j + 1]`. */
  lemma LargestDrop(xs: seq<real>, j: nat)
    requires |xs| >= 2 && j < |xs| - 1
    requires forall i :: 0 <= i < |Diffs(xs)| ==> Diffs(xs)[i] <= Diffs(xs)[j]
    requires forall i :: 0 <= i < j ==> Diffs(xs)[i] < Diffs(xs)[j]
    ensures forall i :: 0 <= i < |xs| - 1 ==> xs[i] - xs[i + 1] <= xs[j] - xs[j + 1]
    ensures forall i :: 0 <= i < j ==> xs[i] - xs[i + 1] < xs[j] - xs[j + 1]
  {
    var d := Diffs(xs);
    assert d[j] == xs[j] - xs[j + 1];
    assert forall i :: 0 <= i < |xs| - 1 ==> xs[i] - xs[i + 1] == d[i];
  }

  /** The elbow k lies in `K_range` whenever it was computed from the inertias. */
  lemma ElbowInKRange(cols: seq<string>, rows: nat, inertia: (seq<string>, nat) -> real)
    requires KRangeSize(rows) >= 2
    ensures 2 <= ElbowClusters(Inertias(cols, rows, inertia)) < KRangeEnd(rows)
  {
  }

  datatype ColumnContrast = ColumnContrast(mean: real, vsOverall: real)

  datatype ClusterInfo = ClusterInfo(clusterId: nat, size: nat, percentage: real,
                                     characteristics: map<string, ColumnContrast>)

  datatype ClusteringAnalysis = ClusteringAnalysis(nClusters: nat, clusterAssignments: seq<nat>,
                                                   clusterSummary: seq<ClusterInfo>, featuresUsed: seq<string>,
                                                   summary: string)

  /** The rows labelled `i` (`clusters == i`), in row order. */
  function LabelPositions(labels: seq<nat>, i: nat): (r: seq<nat>)
    ensures forall p: nat :: p in r <==> p < |labels| && labels[p] == i
  {
    if labels == [] then []
    else LabelPositions(labels[..|labels| - 1], i) + (if labels[|labels| - 1] == i then [|labels| - 1] else [])
  }

  /** The cells of the listed rows. */
  function Pick(vs: seq<Option<real>>, rows: seq<nat>): (r: seq<Option<real>>)
    ensures |r| == |rows|
  {
    seq(|rows|, k requires 0 <= k < |rows| => if rows[k] < |vs| then vs[rows[k]] else None)
  }

  /** A column's mean inside one cluster and its difference from the column's overall mean. */
  function ContrastOf(f: Frame, col: string, members: seq<nat>, describe: seq<real> -> Description): (cc: ColumnContrast)
    ensures cc.mean == describe(Present(Pick(ValuesOf(f, col), members))).mean
    ensures cc.vsOverall == cc.mean - describe(Series(f, col)).mean
  {
    var inside := describe(Present(Pick(ValuesOf(f, col), members))).mean;
    ColumnContrast(inside, inside - describe(Series(f, col)).mean)
  }

  /**
   * The entry of cluster `i`: its size, its share of the rows in percent, and for
   * every clustered column the cluster's mean and its difference from the column mean.
   */
  function ClusterInfoOf(f: Frame, cols: seq<string>, labels: seq<nat>, i: nat,
                         describe: seq<real> -> Description): (info: ClusterInfo)
    ensures info.clusterId == i && info.size == Count(labels, i)
    ensures info.percentage == Percentage(Count(labels, i), f.rows)
    ensures forall c :: c in info.characteristics <==> c in cols
    ensures forall c :: c in info.characteristics ==>
              info.characteristics[c] == ContrastOf(f, c, LabelPositions(labels, i), describe)
  {
    var members := LabelPositions(labels, i);
    ClusterInfo(i, Count(labels, i), Percentage(Count(labels, i), f.rows),
                map c | c in cols :: ContrastOf(f, c, members, describe))
  }

  /** `cluster_summary`: one entry per cluster 0 .. k-1. */
  function ClusterSummaryOf(f: Frame, cols: seq<string>, labels: seq<nat>, k: nat,
                            describe: seq<real> -> Description): (s: seq<ClusterInfo>)
    ensures |s| == k
    ensures forall i :: 0 <= i < k ==>
              && s[i].clusterId == i && s[i].size == Count(labels, i)
              && s[i].percentage == Percentage(Count(labels, i), f.rows)
              && s[i] == ClusterInfoOf(f, cols, labels, i, describe)
  {
    seq(k, i requires 0 <= i < k => ClusterInfoOf(f, cols, labels, i, describe))
  }

  function ClusteringSummary(k: nat): string
  {
    "Identified " + DecimalString(k) + " distinct groups in your data"
  }

  /** The cluster count: the caller's, or the elbow choice over `K_range`. */
  function ClusterCount(f: Frame, cols: seq<string>, nClusters: Option<int>, inertia: (seq<string>, nat) -> real)
    : (k: int)
    ensures nClusters.Some? ==> k == nClusters.value
    ensures nClusters.None? && KRangeSize(f.rows) < 2 ==> k == 3
    ensures nClusters.None? && KRangeSize(f.rows) >= 2 ==> 2 <= k < KRangeEnd(f.rows)
    ensures nClusters.None? ==> k == ElbowClusters(Inertias(cols, f.rows, inertia))
  {
    match nClusters
    case Some(k) => k
    case None =>
      if KRangeSize(f.rows) >= 2 then ElbowInKRange(cols, f.rows, inertia); ElbowClusters(Inertias(cols, f.rows, inertia))
      else ElbowClusters(Inertias(cols, f.rows, inertia))
  }

  /**
   * `run_clustering_analysis(columns, n_clusters)`. KMeans raises on a column
   * without values (its mean fill leaves NaN), on k < 1 and on k above the row count.
   */
  function ClusteringAnalysisOf(f: Frame, columns: Option<seq<string>>, nClusters: Option<int>, lib: Library)
    : (r: Outcome<ClusteringAnalysis>)
    ensures r.Failure? <==> |NumericSelection(f, columns)| < 2
    ensures r.Failure? ==> r.error == ClusteringError
    ensures var k := ClusterCount(f, NumericSelection(f, columns), nClusters, lib.inertia);
            r.Raised? <==> |NumericSelection(f, columns)| >= 2 &&
                           ((exists c :: c in NumericSelection(f, columns) && Series(f, c) == []) || k < 1 || k > f.rows)
    ensures r.Success? ==> 1 <= r.value.nClusters <= f.rows && |r.value.clusterSummary| == r.value.nClusters
    ensures r.Success? ==> r.value.featuresUsed == NumericSelection(f, columns)
    ensures r.Success? ==>
              var cols := NumericSelection(f, columns);
              var k := ClusterCount(f, cols, nClusters, lib.inertia);
              && r.value.nClusters == k
              && r.value.clusterAssignments == lib.clusterLabels(cols, k)
              && r.value.clusterSummary == ClusterSummaryOf(f, cols, r.value.clusterAssignments, k, lib.describe)
              && r.value.summary == ClusteringSummary(k)
  {
    var cols := NumericSelection(f, columns);
    if |cols| < 2 then Failure(ClusteringError)
    else
      var k := ClusterCount(f, cols, nClusters, lib.inertia);
      if (exists c :: c in cols && Series(f, c) == []) || k < 1 || k > f.rows then Raised
      else
        var labels := lib.clusterLabels(cols, k);
        Success(ClusteringAnalysis(k, labels, ClusterSummaryOf(f, cols, labels, k, lib.describe), cols,
                                   ClusteringSummary(k)))
  }

  /** The percentages of the listed clusters, added up. */
  function PercentTotal(infos: seq<ClusterInfo>): real
  {
    if infos == [] then 0.0 else PercentTotal(infos[..|infos| - 1]) + infos[|infos| - 1].percentage
  }

  lemma {:induction false} PercentTotalIsPercentSum(f: Frame, cols: seq<string>, labels: seq<nat>, k: nat,
                                                    describe: seq<real> -> Description, m: nat)
    requires m <= k
    ensures PercentTotal(ClusterSummaryOf(f, cols, labels, k, describe)[..m]) == PercentSum(labels, m, f.rows)
  {
    if m > 0 {
      var s := ClusterSummaryOf(f, cols, labels, k, describe);
      PercentTotalIsPercentSum(f, cols, labels, k, describe, m - 1);
      assert s[..m][..m - 1] == s[..m - 1];
      assert s[..m][m - 1].percentage == Percentage(Count(labels, m - 1), f.rows) by {
        assert s[..m][m - 1] == ClusterInfoOf(f, cols, labels, m - 1, describe);
      }
    }
  }

  /**
   * The cluster percentages sum to 100 when KMeans labels every row with one of
   * the k clusters.
   */
  lemma ClusterPercentagesSumTo100(f: Frame, columns: Option<seq<string>>, nClusters: Option<int>, lib: Library)
    requires ClusteringAnalysisOf(f, columns, nClusters, lib).Success?
    requires var a := ClusteringAnalysisOf(f, columns, nClusters, lib).value;
             && |a.clusterAssignments| == f.rows
             && forall p :: 0 <= p < |a.clusterAssignments| ==> a.clusterAssignments[p] < a.nClusters
    ensures PercentTotal(ClusteringAnalysisOf(f, columns, nClusters, lib).value.clusterSummary) == 100.0
  {
    var a := ClusteringAnalysisOf(f, columns, nClusters, lib).value;
    var cols := NumericSelection(f, columns);
    PercentTotalIsPercentSum(f, cols, a.clusterAssignments, a.nClusters, lib.describe, a.nClusters);
    assert a.clusterSummary[..a.nClusters] == a.clusterSummary;
    PercentagesSumTo100(a.clusterAssignments, a.nClusters);
  }

  // ---------------------------------------------------------------------------
  // Statistical tests
  // ---------------------------------------------------------------------------

  datatype TestKind = IndependentTTest | OneWayAnova {
    function Text(): string
    {
      match this
      case IndependentTTest => "Independent T-Test"
      case OneWayAnova => "One-Way ANOVA"
    }
  }

  datatype GroupOrder = Higher | Lower {
    function Text(): string
    {
      match this
      case Higher => "higher"
      case Lower => "lower"
    }
  }

  /** The `interpretation` sentences, with the p-value they quote. */
  datatype Interpretation =
    | DifferenceFound(p: real, firstGroup: GroupOrder)
    | NoDifferenceFound(p: real)
    | GroupDifferencesFound(p: real)
    | NoGroupDifferencesFound(p: real)

  /** `_interpret_ttest`: a direction is stated only for a significant difference. */
  function InterpretTTest(p: real, mean1: real, mean2: real): (i: Interpretation)
    ensures i.DifferenceFound? <==> p < 0.05
    ensures i.NoDifferenceFound? <==> p >= 0.05
    ensures i.DifferenceFound? ==> (i.firstGroup == Higher <==> mean1 > mean2)
    ensures i.p == p
  {
    if p < 0.05 then DifferenceFound(p, if mean1 > mean2 then Higher else Lower) else NoDifferenceFound(p)
  }

  /** `_interpret_anova`. */
  function InterpretAnova(p: real): (i: Interpretation)
    ensures i.GroupDifferencesFound? <==> p < 0.05
    ensures i.NoGroupDifferencesFound? <==> p >= 0.05
    ensures i.p == p
  {
    if p < 0.05 then GroupDifferencesFound(p) else NoGroupDifferencesFound(p)
  }

  datatype TestReport = TestReport(testType: TestKind, variables: seq<string>, statistic: real, pValue: real,
                                   significant: bool, interpretation: Interpretation, summary: string)

  /** `groups`: the non-missing values of each listed variable that is a column, in list order. */
  function Groups(f: Frame, variables: seq<string>): (g: seq<seq<real>>)
    ensures |g| == |Keep(variables, Names(f))|
    ensures forall k :: 0 <= k < |g| ==> g[k] == Series(f, Keep(variables, Names(f))[k])
  {
    if variables == [] then []
    else (if variables[0] in Names(f) then [Series(f, variables[0])] else []) + Groups(f, variables[1..])
  }

  // ---------------------------------------------------------------------------
  // Forecast
  // ---------------------------------------------------------------------------

  datatype Forecast = Forecast(targetColumn: string, historicalData: seq<real>, forecast: seq<real>,
                               forecastUpper: seq<real>, forecastLower: seq<real>, trendSlope: real,
                               rSquared: real, periodsForecasted: int)

  /** `len(np.arange(n, n + periods))`: no periods when `periods` is not positive. */
  function PeriodCount(periods: int): nat
  {
    if periods > 0 then periods else 0
  }

  /** The trend line at `x`. */
  function TrendAt(t: Trend, x: nat): real
  {
    t.slope * x as real + t.intercept
  }

  /** `slope * future_x + intercept` for `future_x = n, n+1, ...`. */
  function TrendLine(t: Trend, n: nat, count: nat): (ys: seq<real>)
    ensures |ys| == count
    ensures forall k :: 0 <= k < count ==> ys[k] == TrendAt(t, n + k)
  {
    seq(count, k requires 0 <= k < count => TrendAt(t, n + k))
  }

  /** Each value shifted by `delta`. */
  function Shift(ys: seq<real>, delta: real): (zs: seq<real>)
    ensures |zs| == |ys|
    ensures forall k :: 0 <= k < |ys| ==> zs[k] == ys[k] + delta
  {
    seq(|ys|, k requires 0 <= k < |ys| => ys[k] + delta)
  }

  /** `residuals ** 2`, with `residuals = data - (slope * x + intercept)`. */
  function SquaredResiduals(data: seq<real>, t: Trend): (sq: seq<real>)
    ensures |sq| == |data|
  {
    seq(|data|, i requires 0 <= i < |data| =>
          var e := data[i] - (t.slope * i as real + t.intercept); e * e)
  }

  /** `np.mean(residuals ** 2)`. */
  function MeanSquaredError(data: seq<real>, t: Trend): real
    requires |data| > 0
  {
    Sum(SquaredResiduals(data, t)) / |data| as real
  }

  /** `1.96 * std_error`, the half-width of the forecast band. */
  function BandWidth(data: seq<real>, t: Trend, sqrt: real -> real): real
    requires |data| > 0
  {
    1.96 * sqrt(MeanSquaredError(data, t))
  }

  lemma {:induction false} SumNonNegative(s: seq<real>)
    requires forall k :: 0 <= k < |s| ==> s[k] >= 0.0
    ensures Sum(s) >= 0.0
  {
    if s != [] {
      SumNonNegative(s[1..]);
    }
  }

  /** The mean squared error is never negative. */
  lemma MeanSquaredErrorNonNegative(data: seq<real>, t: Trend)
    requires |data| > 0
    ensures MeanSquaredError(data, t) >= 0.0
  {
    var sq := SquaredResiduals(data, t);
    forall k | 0 <= k < |sq| ensures sq[k] >= 0.0 {
      SquareNonNegative(data[k] - (t.slope * k as real + t.intercept));
    }
    SumNonNegative(sq);
    QuotientNonNegative(Sum(sq), |data| as real);
  }

  /** With a square root that is never negative, the band has a non-negative width. */
  lemma BandWidthNonNegative(data: seq<real>, t: Trend, sqrt: real -> real)
    requires |data| > 0
    requires forall x: real :: x >= 0.0 ==> sqrt(x) >= 0.0
    ensures BandWidth(data, t, sqrt) >= 0.0
  {
    MeanSquaredErrorNonNegative(data, t);
  }

  // ---------------------------------------------------------------------------
  // The engine
  // ---------------------------------------------------------------------------

  datatype DataAnalysisEngine = DataAnalysisEngine(df: Frame) {

    /** The `basic_stats` loop: describes each listed column in turn. */
    method DescribeColumns(names: seq<string>, lib: Library) returns (basicStats: map<string, BasicStats>)
      ensures basicStats == StatsMap(df, names, lib.describe)
    {
      basicStats := map[];
      for i := 0 to |names|
        invariant forall c :: c in basicStats <==> c in names[..i]
        invariant forall c :: c in basicStats ==> basicStats[c] == StatsOf(Series(df, c), lib.describe)
      {
        assert names[..i + 1] == names[..i] + [names[i]];
        var col := names[i];
        var series := Series(df, col);
        var d := lib.describe(series);
        basicStats := basicStats[col := BasicStats(d.mean, d.median, d.std, d.min, d.max, |series|)];
      }
      assert names[..|names|] == names;
    }

    /** `get_data_summary()`. */
    method GetDataSummary(lib: Library) returns (s: DataSummary)
      ensures s == DataSummaryOf(df, lib.describe)
    {
      var numeric := NumericNames(df);
      var basicStats := DescribeColumns(numeric, lib);
      s := DataSummary(df.rows, |df.columns|, numeric, CategoricalNamesOf(df.columns), MissingMap(df), basicStats);
    }

    /** `run_correlation_analysis(columns)`: the nested pair loop, then the sort and the cut. */
    method RunCorrelationAnalysis(columns: Option<seq<string>>, lib: Library) returns (r: Outcome<CorrelationAnalysis>)
      ensures r == CorrelationAnalysisOf(df, columns, lib.corr)
    {
      var cols := NumericSelection(df, columns);
      if |cols| < 2 {
        return Failure(CorrelationError);
      }
      var correlations := CollectTriangle(|cols|, CorrelationFinder(cols, lib.corr));
      var ranked := SortDesc(correlations, AbsCorrelation);
      r := Success(CorrelationAnalysis(Take(ranked, 10), |correlations|, |cols|,
                                       CorrelationSummary(|correlations|, |cols|)));
    }

    /** The feature list: the caller's, or every numeric column except the target. */
    /** `feature_columns`, or by default every numeric column except the target, in frame order. */
    function FeaturesFor(target: string, featureColumns: Option<seq<string>>): (fs: seq<string>)
      ensures featureColumns.Some? ==> fs == featureColumns.value
      ensures featureColumns.None? ==> forall c :: c in fs <==> c in NumericNames(df) && c != target
      ensures featureColumns.None? && target !in NumericNames(df) ==> fs == NumericNames(df)
    {
      match featureColumns
      case Some(fs) => fs
      case None =>
        var names := NumericNames(df);
        if target in names then Except(names, target)
        else ExceptWithoutTarget(names, target); Except(names, target)
    }

    /**
     * `run_regression_analysis(target_column, feature_columns)`. A target or a
     * feature that is not a usable column makes the fit raise.
     */
    function RunRegressionAnalysis(target: string, featureColumns: Option<seq<string>>, lib: Library)
      : (r: Outcome<RegressionAnalysis>)
      ensures !HasColumn(df, target) ==> r == Failure(TargetNotFound(target))
      ensures HasColumn(df, target) && FeaturesFor(target, featureColumns) == [] ==> r == Failure(NoFeaturesError)
      ensures r.Raised? <==>
                HasColumn(df, target) && FeaturesFor(target, featureColumns) != [] &&
                (!Usable(df, target) || exists c :: c in FeaturesFor(target, featureColumns) && !Usable(df, c))
      ensures r.Success? <==>
                HasColumn(df, target) && FeaturesFor(target, featureColumns) != [] && Usable(df, target) &&
                forall c :: c in FeaturesFor(target, featureColumns) ==> Usable(df, c)
      ensures r.Success? ==>
                var fits := lib.fitModels(target, FeaturesFor(target, featureColumns));
                var pairs := Zip(FeaturesFor(target, featureColumns), fits.importances);
                && r.value.targetColumn == target
                && r.value.randomForestR2 == fits.randomForestR2
                && r.value.linearRegressionR2 == fits.linearRegressionR2
                && r.value.featureColumns == FeaturesFor(target, featureColumns)
                && multiset(r.value.featureImportance) == multiset(pairs)
                && SortedDesc(r.value.featureImportance, ImportanceKey)
                && (forall v :: WithKey(r.value.featureImportance, ImportanceKey, v) == WithKey(pairs, ImportanceKey, v))
                && |r.value.topDrivers| == Min(5, |pairs|)
                && r.value.topDrivers == Take(r.value.featureImportance, 5)
                && (r.value.modelComparison == RandomForest <==> fits.randomForestR2 > fits.linearRegressionR2)
                && r.value.bestR2 == Max(fits.randomForestR2, fits.linearRegressionR2)
    {
      if !HasColumn(df, target) then Failure(TargetNotFound(target))
      else
        var features := FeaturesFor(target, featureColumns);
        if features == [] then Failure(NoFeaturesError)
        else if !Usable(df, target) || exists c :: c in features && !Usable(df, c) then Raised
        else
          var fits := lib.fitModels(target, features);
          var pairs := Zip(features, fits.importances);
          var ranked := SortDesc(pairs, ImportanceKey);
          SortDescPermutes(pairs, ImportanceKey);
          SortDescSorted(pairs, ImportanceKey);
          assert forall v :: WithKey(ranked, ImportanceKey, v) == WithKey(pairs, ImportanceKey, v) by {
            forall v ensures WithKey(ranked, ImportanceKey, v) == WithKey(pairs, ImportanceKey, v) {
              SortDescStable(pairs, ImportanceKey, v);
            }
          }
          Success(RegressionAnalysis(target, features, fits.randomForestR2, fits.linearRegressionR2, ranked,
                                     Take(ranked, 5),
                                     ChooseModel(fits.randomForestR2, fits.linearRegressionR2),
                                     Max(fits.randomForestR2, fits.linearRegressionR2)))
    }

    /** The `inertias` loop over `K_range`. */
    method CollectInertias(cols: seq<string>, lib: Library) returns (inertias: seq<real>)
      ensures inertias == Inertias(cols, df.rows, lib.inertia)
    {
      var hi := KRangeEnd(df.rows);
      inertias := [];
      var k := 2;
      while k < hi
        invariant 2 <= k && (k <= hi || k == 2)
        invariant |inertias| == k - 2
        invariant forall j :: 0 <= j < k - 2 ==> inertias[j] == lib.inertia(cols, j + 2)
      {
        inertias := inertias + [lib.inertia(cols, k)];
        k := k + 1;
      }
    }

    /** The `cluster_summary` loop, with its inner loop over the numeric columns. */
    method SummariseClusters(cols: seq<string>, labels: seq<nat>, k: nat, lib: Library) returns (summary: seq<ClusterInfo>)
      ensures summary == ClusterSummaryOf(df, cols, labels, k, lib.describe)
    {
      summary := [];
      for i := 0 to k
        invariant |summary| == i
        invariant forall q :: 0 <= q < i ==> summary[q] == ClusterInfoOf(df, cols, labels, q, lib.describe)
      {
        var members := LabelPositions(labels, i);
        var characteristics: map<string, ColumnContrast> := map[];
        for j := 0 to |cols|
          invariant forall c :: c in characteristics <==> c in cols[..j]
          invariant forall c :: c in characteristics ==> characteristics[c] == ContrastOf(df, c, members, lib.describe)
        {
          assert cols[..j + 1] == cols[..j] + [cols[j]];
          var col := cols[j];
          var inside := lib.describe(Present(Pick(ValuesOf(df, col), members))).mean;
          characteristics := characteristics[col := ColumnContrast(inside, inside - lib.describe(Series(df, col)).mean)];
        }
        assert cols[..|cols|] == cols;
        assert characteristics == map c | c in cols :: ContrastOf(df, c, members, lib.describe);
        var size := Count(labels, i);
        summary := summary + [ClusterInfo(i, size, Percentage(size, df.rows), characteristics)];
      }
    }

    /** `run_clustering_analysis(columns, n_clusters)`. */
    method RunClusteringAnalysis(columns: Option<seq<string>>, nClusters: Option<int>, lib: Library)
      returns (r: Outcome<ClusteringAnalysis>)
      ensures r == ClusteringAnalysisOf(df, columns, nClusters, lib)
    {
      var cols := NumericSelection(df, columns);
      if |cols| < 2 {
        return Failure(ClusteringError);
      }
      var k: int;
      if nClusters.Some? {
        k := nClusters.value;
      } else {
        var inertias := CollectInertias(cols, lib);
        k := ElbowClusters(inertias);
      }
      if (exists c :: c in cols && Series(df, c) == []) || k < 1 || k > df.rows {
        return Raised;
      }
      var labels := lib.clusterLabels(cols, k);
      var summary := SummariseClusters(cols, labels, k, lib);
      r := Success(ClusteringAnalysis(k, labels, summary, cols, ClusteringSummary(k)));
    }

    /** `run_statistical_tests(test_type, variables)`; `None` is the empty result. */
    function RunStatisticalTests(testType: string, variables: seq<string>, lib: Library): (r: Option<TestReport>)
      ensures r.Some? <==>
                || (testType == "ttest" && |variables| == 2 && HasColumn(df, variables[0]) && HasColumn(df, variables[1]))
                || (testType == "anova" && |variables| >= 2 && |Keep(variables, Names(df))| >= 2)
      ensures r.Some? ==> r.value.variables == variables
      ensures r.Some? ==> (r.value.significant <==> r.value.pValue < 0.05)
      ensures r.Some? ==> r.value.interpretation.p == r.value.pValue
      ensures r.Some? && testType == "ttest" ==>
                var t := lib.ttest(Series(df, variables[0]), Series(df, variables[1]));
                && r.value.testType == IndependentTTest
                && r.value.statistic == t.statistic && r.value.pValue == t.p
                && r.value.interpretation == InterpretTTest(r.value.pValue, lib.describe(Series(df, variables[0])).mean,
                                                            lib.describe(Series(df, variables[1])).mean)
      ensures r.Some? && testType == "anova" ==>
                var t := lib.anova(Groups(df, variables));
                && r.value.testType == OneWayAnova && r.value.interpretation == InterpretAnova(r.value.pValue)
                && r.value.statistic == t.statistic && r.value.pValue == t.p
    {
      if testType == "ttest" && |variables| == 2 then
        var var1, var2 := variables[0], variables[1];
        if HasColumn(df, var1) && HasColumn(df, var2) then
          var data1, data2 := Series(df, var1), Series(df, var2);
          var t := lib.ttest(data1, data2);
          Some(TestReport(IndependentTTest, variables, t.statistic, t.p, t.p < 0.05,
                          InterpretTTest(t.p, lib.describe(data1).mean, lib.describe(data2).mean),
                          "Comparing " + var1 + " vs " + var2))
        else None
      else if testType == "anova" && |variables| >= 2 then
        var groups := Groups(df, variables);
        if |groups| >= 2 then
          var t := lib.anova(groups);
          Some(TestReport(OneWayAnova, variables, t.statistic, t.p, t.p < 0.05, InterpretAnova(t.p),
                          "Comparing means across " + DecimalString(|variables|) + " groups"))
        else None
      else None
    }

    /** `run_time_series_forecast(target_column, periods)`. */
    function RunTimeSeriesForecast(target: string, periods: int, lib: Library): (r: Outcome<Forecast>)
      ensures !HasColumn(df, target) ==> r == Failure(TargetNotFound(target))
      ensures HasColumn(df, target) && |Series(df, target)| < 3 ==> r == Failure(TooFewPointsError)
      ensures r.Success? <==> HasColumn(df, target) && |Series(df, target)| >= 3
      ensures r.Success? ==>
                var data := Series(df, target);
                var t := lib.linregress(data);
                var band := BandWidth(data, t, lib.sqrt);
                var out := r.value;
                && out.historicalData == data
                && |out.forecast| == |out.forecastUpper| == |out.forecastLower| == PeriodCount(periods)
                && (forall k :: 0 <= k < |out.forecast| ==> out.forecast[k] == TrendAt(t, |data| + k))
                && (forall k :: 0 <= k < |out.forecast| ==>
                      out.forecastUpper[k] - out.forecast[k] == band && out.forecast[k] - out.forecastLower[k] == band)
                && out.trendSlope == t.slope && out.rSquared == t.r * t.r && out.periodsForecasted == periods
    {
      if !HasColumn(df, target) then Failure(TargetNotFound(target))
      else
        var data := Series(df, target);
        if |data| < 3 then Failure(TooFewPointsError)
        else
          var t := lib.linregress(data);
          var forecast := TrendLine(t, |data|, PeriodCount(periods));
          var band := BandWidth(data, t, lib.sqrt);
          Success(Forecast(target, data, forecast, Shift(forecast, band), Shift(forecast, -band),
                           t.slope, t.r * t.r, periods))
    }
  }

  lemma TrendStep(t: Trend, x: nat)
    ensures TrendAt(t, x + 1) - TrendAt(t, x) == t.slope
  {
    assert (x + 1) as real == x as real + 1.0;
    Distribute(x as real, 1.0, t.slope);
  }

  /** Consecutive forecasts differ by the slope. */
  lemma ForecastSteps(engine: DataAnalysisEngine, target: string, periods: int, lib: Library)
    requires engine.RunTimeSeriesForecast(target, periods, lib).Success?
    ensures var out := engine.RunTimeSeriesForecast(target, periods, lib).value;
            forall k :: 0 <= k < |out.forecast| - 1 ==> out.forecast[k + 1] - out.forecast[k] == out.trendSlope
  {
    var out := engine.RunTimeSeriesForecast(target, periods, lib).value;
    var n := |Series(engine.df, target)|;
    var t := lib.linregress(Series(engine.df, target));
    forall k | 0 <= k < |out.forecast| - 1 ensures out.forecast[k + 1] - out.forecast[k] == out.trendSlope {
      TrendStep(t, n + k);
      assert out.forecast[k + 1] == TrendAt(t, n + k + 1);
    }
  }

  /** With a non-negative square root, the band brackets every forecast. */
  lemma ForecastBand(engine: DataAnalysisEngine, target: string, periods: int, lib: Library)
    requires engine.RunTimeSeriesForecast(target, periods, lib).Success?
    requires forall x: real :: x >= 0.0 ==> lib.sqrt(x) >= 0.0
    ensures var out := engine.RunTimeSeriesForecast(target, periods, lib).value;
            forall k :: 0 <= k < |out.forecast| ==> out.forecastLower[k] <= out.forecast[k] <= out.forecastUpper[k]
  {
    var data := Series(engine.df, target);
    BandWidthNonNegative(data, lib.linregress(data), lib.sqrt);
  }

  /** Consecutive forecasts differ by the slope, and the band brackets the forecast. */
  lemma ForecastShape(engine: DataAnalysisEngine, target: string, periods: int, lib: Library)
    requires engine.RunTimeSeriesForecast(target, periods, lib).Success?
    requires forall x: real :: x >= 0.0 ==> lib.sqrt(x) >= 0.0
    ensures var out := engine.RunTimeSeriesForecast(target, periods, lib).value;
            && (forall k :: 0 <= k < |out.forecast| - 1 ==> out.forecast[k + 1] - out.forecast[k] == out.trendSlope)
            && (forall k :: 0 <= k < |out.forecast| ==>
                  out.forecastLower[k] <= out.forecast[k] <= out.forecastUpper[k])
  {
    ForecastSteps(engine, target, periods, lib);
    ForecastBand(engine, target, periods, lib);
  }

  /**
   * The default features are the numeric columns with the target taken out and
   * the others in frame order: the order `zip` pairs them with the importances.
   */
  lemma DefaultFeaturesOrder(engine: DataAnalysisEngine, target: string, before: seq<string>, after: seq<string>)
    requires NumericNames(engine.df) == before + [target] + after
    requires target !in before && target !in after
    ensures engine.FeaturesFor(target, None) == before + after
  {
    var names := NumericNames(engine.df);
    assert target in names;
    assert engine.FeaturesFor(target, None) == Except(names, target);
    calc {
      Except(before + [target] + after, target);
      { ExceptAppend(before + [target], after, target); }
      Except(before + [target], target) + Except(after, target);
      { ExceptAppend(before, [target], target); }
      Except(before, target) + Except([target], target) + Except(after, target);
      { ExceptWithoutTarget(before, target); ExceptWithoutTarget(after, target); }
      before + Except([target], target) + after;
      { assert Except([target], target) == []; }
      before + after;
    }
  }

  // ---------------------------------------------------------------------------
  // Request dispatch
  // ---------------------------------------------------------------------------

  /** The analysis configuration, by its `type`. */
  datatype Request =
    | CorrelationRequest(columns: Option<seq<string>>)
    | RegressionRequest(targetColumn: string, featureColumns: Option<seq<string>>)
    | ClusteringRequest(clusterColumns: Option<seq<string>>, nClusters: Option<int>)
    | TestsRequest(testType: string, variables: seq<string>)
    | ForecastRequest(forecastTarget: string, periods: Option<int>)
    | ComprehensiveRequest
    | OtherRequest(analysisType: string)

  datatype Analyses = Analyses(correlation: Option<Outcome<CorrelationAnalysis>>,
                               regression: Option<Outcome<RegressionAnalysis>>,
                               clustering: Option<Outcome<ClusteringAnalysis>>,
                               statisticalTests: Option<Option<TestReport>>,
                               forecast: Option<Outcome<Forecast>>)

  const NoAnalyses := Analyses(None, None, None, None, None)

  /** `analysis_config.get('periods', 6)`. */
  const DefaultPeriods := 6

  /** The printed result: the summary and the analyses, or the catch-all error. */
  datatype Response = Crashed | Completed(dataSummary: DataSummary, analyses: Analyses)

  predicate AnyRaised(a: Analyses)
  {
    || (a.correlation.Some? && a.correlation.value.Raised?)
    || (a.regression.Some? && a.regression.value.Raised?)
    || (a.clustering.Some? && a.clustering.value.Raised?)
    || (a.forecast.Some? && a.forecast.value.Raised?)
  }

  /** An exception in any analysis replaces the whole result by the error. */
  function Settle(summary: DataSummary, a: Analyses): (resp: Response)
    ensures resp.Crashed? <==> AnyRaised(a)
    ensures resp.Completed? ==> resp.dataSummary == summary && resp.analyses == a
  {
    if AnyRaised(a) then Crashed else Completed(summary, a)
  }

  /**
   * The analyses `main` runs for a request: exactly those of its type, all three
   * of a comprehensive request only with two or more numeric columns.
   */
  function AnalysesFor(data: Frame, request: Request, lib: Library): (a: Analyses)
    ensures var all := request.ComprehensiveRequest? && |NumericNames(data)| >= 2;
            && (a.correlation.Some? <==> request.CorrelationRequest? || all)
            && (a.regression.Some? <==> request.RegressionRequest? || all)
            && (a.clustering.Some? <==> request.ClusteringRequest? || all)
            && (a.statisticalTests.Some? <==> request.TestsRequest?)
            && (a.forecast.Some? <==> request.ForecastRequest?)
    ensures request.ForecastRequest? ==>
              a.forecast.value == DataAnalysisEngine(data).RunTimeSeriesForecast(
                                    request.forecastTarget, request.periods.GetOr(DefaultPeriods), lib)
  {
    var engine := DataAnalysisEngine(data);
    match request
    case CorrelationRequest(cols) => NoAnalyses.(correlation := Some(CorrelationAnalysisOf(data, cols, lib.corr)))
    case RegressionRequest(t, fs) => NoAnalyses.(regression := Some(engine.RunRegressionAnalysis(t, fs, lib)))
    case ClusteringRequest(cols, k) => NoAnalyses.(clustering := Some(ClusteringAnalysisOf(data, cols, k, lib)))
    case TestsRequest(tt, vs) => NoAnalyses.(statisticalTests := Some(engine.RunStatisticalTests(tt, vs, lib)))
    case ForecastRequest(t, p) =>
      NoAnalyses.(forecast := Some(engine.RunTimeSeriesForecast(t, p.GetOr(DefaultPeriods), lib)))
    case ComprehensiveRequest =>
      var numeric := NumericNames(data);
      if |numeric| >= 2 then
        NoAnalyses.(correlation := Some(CorrelationAnalysisOf(data, None, lib.corr)),
                    regression := Some(engine.RunRegressionAnalysis(numeric[0], Some(numeric[1..]), lib)),
                    clustering := Some(ClusteringAnalysisOf(data, None, None, lib)))
      else NoAnalyses
    case OtherRequest(_) => NoAnalyses
  }

  /** Splitting the numeric columns into the first and the rest loses no column without values. */
  lemma UnusableSplit(data: Frame)
    requires |NumericNames(data)| >= 2
    ensures var numeric := NumericNames(data);
            (!Usable(data, numeric[0]) || exists c :: c in numeric[1..] && !Usable(data, c)) <==>
            exists c :: c in numeric && Series(data, c) == []
  {
    var numeric := NumericNames(data);
    assert numeric == [numeric[0]] + numeric[1..];
    if exists c :: c in numeric && Series(data, c) == [] {
      var c :| c in numeric && Series(data, c) == [];
      assert c == numeric[0] || c in numeric[1..];
    }
  }

  /**
   * Regressing the first numeric column on the others never reports a missing
   * target or an empty feature list; it raises exactly when some numeric column
   * has no values.
   */
  lemma NumericSplitRegression(data: Frame, lib: Library)
    requires |NumericNames(data)| >= 2
    ensures var numeric := NumericNames(data);
            var r := DataAnalysisEngine(data).RunRegressionAnalysis(numeric[0], Some(numeric[1..]), lib);
            && !r.Failure?
            && (r.Raised? <==> exists c :: c in numeric && Series(data, c) == [])
  {
    var numeric := NumericNames(data);
    NumericNamesAreColumns(data);
    assert numeric[0] in numeric && HasColumn(data, numeric[0]);
    assert DataAnalysisEngine(data).FeaturesFor(numeric[0], Some(numeric[1..])) == numeric[1..] != [];
    UnusableSplit(data);
  }

  /** A comprehensive request on at least two numeric columns regresses the first numeric column on the others. */
  lemma ComprehensiveRegression(data: Frame, lib: Library)
    requires |NumericNames(data)| >= 2
    ensures var numeric := NumericNames(data);
            var r := AnalysesFor(data, ComprehensiveRequest, lib).regression;
            && r == Some(DataAnalysisEngine(data).RunRegressionAnalysis(numeric[0], Some(numeric[1..]), lib))
            && !r.value.Failure?
            && (r.value.Raised? <==> exists c :: c in numeric && Series(data, c) == [])
  {
    NumericSplitRegression(data, lib);
  }

  /** `main` after parsing: summarise the data, run the requested analyses, catch exceptions. */
  method HandleRequest(data: Frame, request: Request, lib: Library) returns (resp: Response)
    ensures resp == Settle(DataSummaryOf(data, lib.describe), AnalysesFor(data, request, lib))
    ensures request.OtherRequest? ==> resp == Completed(DataSummaryOf(data, lib.describe), NoAnalyses)
  {
    var engine := DataAnalysisEngine(data);
    var summary := engine.GetDataSummary(lib);
    var analyses := NoAnalyses;
    match request {
      case CorrelationRequest(cols) =>
        var r := engine.RunCorrelationAnalysis(cols, lib);
        analyses := analyses.(correlation := Some(r));
      case RegressionRequest(t, fs) =>
        analyses := analyses.(regression := Some(engine.RunRegressionAnalysis(t, fs, lib)));
      case ClusteringRequest(cols, k) =>
        var r := engine.RunClusteringAnalysis(cols, k, lib);
        analyses := analyses.(clustering := Some(r));
      case TestsRequest(tt, vs) =>
        analyses := analyses.(statisticalTests := Some(engine.RunStatisticalTests(tt, vs, lib)));
      case ForecastRequest(t, p) =>
        analyses := analyses.(forecast := Some(engine.RunTimeSeriesForecast(t, p.GetOr(DefaultPeriods), lib)));
      case ComprehensiveRequest =>
        var numeric := summary.numericColumns;
        if |numeric| >= 2 {
          var c := engine.RunCorrelationAnalysis(None, lib);
          analyses := analyses.(correlation := Some(c));
          analyses := analyses.(regression := Some(engine.RunRegressionAnalysis(numeric[0], Some(numeric[1..]), lib)));
          var k := engine.RunClusteringAnalysis(None, None, lib);
          analyses := analyses.(clustering := Some(k));
        }
      case OtherRequest(_) =>
    }
    resp := Settle(summary, analyses);
  }
}
