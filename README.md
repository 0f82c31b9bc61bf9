# analyseX analysis engines: a verified model of their decision logic

analyseX sends tabular business data to two Python analysis scripts and shows
the insights they return:

- `scripts/statistical_analysis_engine.py`. `analyze_data` filters the selected
  columns, checks for empty data and for numeric columns, and dispatches on the
  analysis type to one of five routines: time series, regression drivers,
  PCA/clustering, statistical tests, or exploratory.
- `scripts/analysis_engine.py`. The `DataAnalysisEngine` offers a data summary,
  correlation ranking, regression with feature importance, elbow-method
  clustering, t-test and ANOVA comparisons, and a linear-trend forecast. `main`
  dispatches a request on its `type`.

Both scripts are glue around pandas, scipy and scikit-learn. This project
models the layer of decisions around those library calls:

- which columns are analysed;
- which routine runs;
- which series, pairs and clusters are reported, and in which order;
- how labels are picked from thresholds;
- how the derived numbers (importances, percentages, forecast bands) are
  combined.

The model does not compute any statistics. Every number the libraries produce
is an input supplied by a `Library` record: means, standard deviations,
regression fits, p-values, inertias, KMeans labels and PCA ratios. NaN is
`Option.None`.

Modules (one Dafny file each):

- `Wrappers` (`wrappers.dfy`): `Option`.
- `Seqs` (`seqs.dfy`):
  - sums;
  - Python's `s[:n]`;
  - the first arg-max that `max(...)` and `list.index(max(...))` pick;
  - cluster label counts and percentages.
- `Text` (`text.dfy`): ASCII `str.lower()`, the substring test `in`, and
  `str(n)`.
- `Frames` (`frames.dfy`): a data frame as named columns of optional reals.
  - A column is numeric or not, standing for `select_dtypes`.
  - It provides column lookup, `dropna`, the numeric columns, projection and
    the rows complete in a set of columns.
- `Pairs` (`pairs.dfy`):
  - the upper-triangle pair enumeration `for i ...: for j in range(i+1, n)`;
  - the generic "append when defined" loop over it (`CollectTriangle`), proved
    against its specification `Collect`.
- `Sorting` (`sorting.dfy`): `list.sort(key=..., reverse=True)` as a stable
  sort by descending key. It is proved sorted, a permutation and stable, and so
  is its top-n cut.
- `StatisticalEngine` (`statistical_engine.dfy`): `analyze_data` and the five
  `perform_*` routines.
  - Each routine is a method whose loops build the result dictionaries.
  - Each is proved against a predicate that states the whole report
    declaratively.
- `AnalysisEngine` (`analysis_engine.dfy`): `DataAnalysisEngine` and the
  request dispatch of `main`.
  - The engine is a value `DataAnalysisEngine(df)`, because `self.df` is
    assigned once in `__init__` and never changed.
  - The `run_*` methods that loop are methods proved equal to specification
    functions.
  - The loop-free ones are functions with contracts.
  - Every analysis outcome is `Failure(error)` (the returned error dictionary),
    `Raised` (an exception, which `main` turns into its catch-all error) or
    `Success(report)`.

## Model

| member | source | states |
|---|---|---|
| Seqs.FirstArgMax | scripts/analysis_engine.py:153-154 | `diffs.index(max(diffs))`: the index holds a maximal element, and every earlier element is strictly smaller (the first maximum wins) |
| Seqs.CountsPartition | scripts/statistical_analysis_engine.py:264-267 | when every label is below k, the sizes of clusters 0..k-1 add up to the number of labelled rows |
| Seqs.PercentagesSumTo100 | scripts/statistical_analysis_engine.py:264-268 | when every row carries one of the k labels, the cluster percentages size/rows·100 sum to exactly 100 |
| Seqs.PercentSumIsScaledCount | scripts/statistical_analysis_engine.py:268 | the summed percentages of clusters 0..k-1 equal the percentage of their summed sizes |
| Text.Contains | scripts/statistical_analysis_engine.py:77 | Python's `sub in s` is true exactly when `sub` occurs at some position of `s` |
| Text.ToLower | scripts/statistical_analysis_engine.py:77 | same length; capitals become their lower-case letter, every other character is kept, and no capital remains |
| Frames.Keep | scripts/statistical_analysis_engine.py:39 | `[c for c in selected if c in names]`: a name is kept exactly when it is selected and listed, and the result is no longer than the selection |
| Frames.KeepAppend | scripts/statistical_analysis_engine.py:39 | the filter works element by element, so it keeps the selection's order (filtering a concatenation concatenates the filtered parts) |
| Frames.KeepAllListed | scripts/statistical_analysis_engine.py:39 | a selection whose names are all columns is kept unchanged |
| Frames.Find | scripts/statistical_analysis_engine.py:86 | column lookup `data[col]` succeeds exactly when some column has that name |
| Frames.Present | scripts/statistical_analysis_engine.py:86 | `dropna` keeps at most as many values as there are cells |
| Frames.NumericNamesOf | scripts/statistical_analysis_engine.py:48 | `select_dtypes(include=[np.number])`: a name is listed exactly when a numeric column carries it, and there are at most as many as columns |
| Frames.NumericNamesAreColumns | scripts/statistical_analysis_engine.py:48 | every numeric name is a column of the frame |
| Frames.Project | scripts/statistical_analysis_engine.py:41 | `data[available_cols]` has exactly the requested columns, in request order, each the frame's column of that name, and keeps the row count |
| Frames.CompleteRowsBelow | scripts/statistical_analysis_engine.py:155-161 | the aligned rows (the index intersection after `dropna`) are exactly the rows where every listed column has a value |
| Pairs.RowPairsMembers | scripts/statistical_analysis_engine.py:324 | the inner loop visits exactly the pairs (i, j') with i < j' < j |
| Pairs.RowPairsLength | scripts/statistical_analysis_engine.py:324 | the inner loop visits j - i - 1 pairs (none when j <= i) |
| Pairs.RowPairsOrdered | scripts/statistical_analysis_engine.py:324 | the inner loop visits its pairs in increasing j |
| Pairs.TrianglePairsMembers | scripts/statistical_analysis_engine.py:323-324 | the first rows of the nested loop give exactly the pairs i < j < n with i below the rows done |
| Pairs.TrianglePairsSize | scripts/statistical_analysis_engine.py:323-324 | the number of pairs visited after r outer rounds is r(2n-r-1)/2 |
| Pairs.TrianglePairsOrdered | scripts/statistical_analysis_engine.py:323-324 | the pairs come in lexicographic loop order, without repetition |
| Pairs.UpperTriangleShape | scripts/analysis_engine.py:61-62 | the nested loop visits exactly the pairs i < j < n, n(n-1)/2 of them, in strictly increasing order |
| Pairs.CollectMembers | scripts/analysis_engine.py:60-70 | appending the defined results of a pair list collects a value exactly when some pair yields it |
| Pairs.CollectUpperTriangle | scripts/analysis_engine.py:60-70 | over the nested loop, a value is collected exactly when some pair i < j yields it |
| Pairs.CollectLength | scripts/analysis_engine.py:60-70 | at most one value is appended per pair |
| Pairs.CollectRow | scripts/analysis_engine.py:62-70 | the inner loop appends, in order, the defined results of the pairs of row i to what the earlier rows collected |
| Pairs.CollectTriangle | scripts/analysis_engine.py:60-70 | the nested append loop returns the defined results of all pairs i < j in loop order |
| Sorting.SortDescPermutes | scripts/analysis_engine.py:73 | the sort returns a permutation of the list |
| Sorting.SortDescSorted | scripts/analysis_engine.py:73 | the sort returns the list in descending order of the key |
| Sorting.SortDescStable | scripts/analysis_engine.py:113 | Python's sort is stable under `reverse=True`: entries with equal keys keep their original order |
| Sorting.TopKeepsLargest | scripts/analysis_engine.py:77 | `sorted[:n]` has min(n, len) entries, is descending, comes from the list, and none of its entries ranks below an entry cut off |
| StatisticalEngine.Dispatch | scripts/statistical_analysis_engine.py:54-63 | both time-series types route to the time-series routine, each other known type to its routine, and any other type to exploratory analysis |
| StatisticalEngine.AnalysedFrame | scripts/statistical_analysis_engine.py:38-45 | the selected columns present in the data are analysed, in selection order, each with the data's own values; when none is present (or nothing is selected), the whole frame is analysed; rows are kept |
| StatisticalEngine.TrendDirection | scripts/statistical_analysis_engine.py:121 | increasing, decreasing or stable exactly by the sign of the slope |
| StatisticalEngine.StrengthOf | scripts/statistical_analysis_engine.py:122 | strong exactly when abs(r) > 0.7, moderate when 0.4 < abs(r) <= 0.7, weak otherwise |
| StatisticalEngine.StrengthMonotone | scripts/statistical_analysis_engine.py:122 | a larger abs(r) never gets a weaker strength label |
| StatisticalEngine.VolatilityOf | scripts/statistical_analysis_engine.py:127 | high exactly when std > 0.3·mean, moderate when 0.1·mean < std <= 0.3·mean, low otherwise (NaN compares false) |
| StatisticalEngine.SeasonalityStrength | scripts/statistical_analysis_engine.py:99-107 | 0 with fewer than 12 values or a zero mean; otherwise the population std of the first 12 values divided by the mean |
| StatisticalEngine.SeasonalityUsesFirstTwelve | scripts/statistical_analysis_engine.py:101-105 | two series that agree on their first 12 values have the same seasonality strength |
| StatisticalEngine.SeasonalityOf | scripts/statistical_analysis_engine.py:128 | strong exactly when the strength exceeds 0.2 |
| StatisticalEngine.NextPeriodForecast | scripts/statistical_analysis_engine.py:129 | defined exactly when abs(r) > 0.3, and then equal to slope·n + intercept |
| StatisticalEngine.ModelQualityOf | scripts/statistical_analysis_engine.py:196 | excellent above 0.8, good in (0.6, 0.8], moderate in (0.4, 0.6], poor otherwise |
| StatisticalEngine.ModelQualityMonotone | scripts/statistical_analysis_engine.py:196 | a larger R² never gets a worse quality label |
| StatisticalEngine.PredictabilityOf | scripts/statistical_analysis_engine.py:203 | high above 0.7, moderate in (0.4, 0.7], low otherwise |
| StatisticalEngine.ComplexityOf | scripts/statistical_analysis_engine.py:285 | high exactly when the first explained-variance ratio is below 0.6 |
| StatisticalEngine.NormalityTestFor | scripts/statistical_analysis_engine.py:314-318 | Shapiro-Wilk exactly for at most 5000 values, Jarque-Bera above |
| StatisticalEngine.DataQualityOf | scripts/statistical_analysis_engine.py:354 | good exactly when the normal columns are more than half of the numeric columns |
| StatisticalEngine.FirstTimeLike | scripts/statistical_analysis_engine.py:75-79 | finds the first column whose lower-cased name contains month, date or time; none when no name does |
| StatisticalEngine.FindTimeColumn | scripts/statistical_analysis_engine.py:75-82 | the loop with `break` returns that first time-like column, else column 0; the result is always a column |
| StatisticalEngine.TimeColumn | scripts/statistical_analysis_engine.py:74-82 | the time column is a column: the first time-like one, or column 0 when no name is time-like |
| StatisticalEngine.MonthlyMeans | scripts/statistical_analysis_engine.py:101-104 | the append loop collects exactly the first min(12, n) values |
| StatisticalEngine.AnalyseSeries | scripts/statistical_analysis_engine.py:88-130 | the statistics and insights of one series are its trend fit, summary, seasonality and the labels above |
| StatisticalEngine.PerformTimeSeriesAnalysis | scripts/statistical_analysis_engine.py:70-138 | exactly the numeric columns other than the time column with more than 3 values are reported, each with its statistics and insights; the time column never is |
| StatisticalEngine.AbsSum | scripts/statistical_analysis_engine.py:176-177 | the sum of absolute coefficients is never negative |
| StatisticalEngine.Importance | scripts/statistical_analysis_engine.py:180 | for a positive sum, importance · sum = abs(coef); 0 otherwise; within [0, 1] when abs(coef) is at most the sum |
| StatisticalEngine.ImportancesOf | scripts/statistical_analysis_engine.py:179-180 | one importance per feature, in feature order, each abs(coef)/Σabs(coef) (0 when the sum is 0) |
| StatisticalEngine.ImportancesSumScaled | scripts/statistical_analysis_engine.py:176-180 | for a positive total, the importances add up to Σabs(coef)/total |
| StatisticalEngine.AbsTermBounded | scripts/statistical_analysis_engine.py:176-180 | each absolute coefficient is at most the sum of all of them |
| StatisticalEngine.AbsSumZero | scripts/statistical_analysis_engine.py:176-180 | a zero sum of absolute coefficients means every coefficient is 0 |
| StatisticalEngine.NormalisedImportances | scripts/statistical_analysis_engine.py:176-185 | every importance lies in [0, 1]; they sum to 1 when the coefficient sum is positive and are all 0 when it is 0 |
| StatisticalEngine.TopDriverIsMaximal | scripts/statistical_analysis_engine.py:195-201 | the top driver is a feature, and no feature has a larger importance than the reported impact |
| StatisticalEngine.PerformRegressionAnalysis | scripts/statistical_analysis_engine.py:140-215 | the target is the last numeric column and the features are the others in order; there is a result exactly with 2+ numeric columns and 3+ aligned rows, each feature carrying its coefficient, importance and correlation |
| StatisticalEngine.BestClusterCountUnique | scripts/statistical_analysis_engine.py:239-256 | the best-score condition determines at most one k |
| StatisticalEngine.ChooseClusterCount | scripts/statistical_analysis_engine.py:239-256 | the sweep over 2..min(6, rows)-1 picks the earliest k with the maximal score above -1, and 2 when no score beats -1 |
| StatisticalEngine.TotalPercentageIsPercentSum | scripts/statistical_analysis_engine.py:264-268 | the reported percentages add up like the per-cluster percentages of the label counts |
| StatisticalEngine.ClusterPercentagesSumTo100 | scripts/statistical_analysis_engine.py:264-268 | when KMeans labels every aligned row with one of the k clusters, the reported percentages sum to 100 |
| StatisticalEngine.SummariseClusters | scripts/statistical_analysis_engine.py:262-276 | the nested loop gives, for each cluster in order, its size, its share of the aligned rows and the mean and std of each numeric column over its rows |
| StatisticalEngine.PerformClusteringAnalysis | scripts/statistical_analysis_engine.py:217-299 | a result exactly with 2+ numeric columns and 3+ aligned rows, with the best k, its cluster statistics and the PCA-derived insights |
| StatisticalEngine.NormalityTestOf | scripts/statistical_analysis_engine.py:311-319 | a column is normal exactly when p > 0.05, and Shapiro-Wilk is used exactly for at most 5000 values |
| StatisticalEngine.PairTestShape | scripts/statistical_analysis_engine.py:323-340 | a pair gets a correlation test exactly when its two columns share more than 3 complete rows; the test names the pair in loop order, is significant exactly when p < 0.05, and carries the strength label of r |
| StatisticalEngine.PairTest | scripts/statistical_analysis_engine.py:325-340 | a test carries the coefficient and p-value of `pearsonr` on the two columns' values over their common complete rows |
| StatisticalEngine.CorrelationTestsOf | scripts/statistical_analysis_engine.py:322-340 | at most one test per pair i < j of the columns |
| StatisticalEngine.CorrelationTestsCoverPairs | scripts/statistical_analysis_engine.py:321-340 | the correlation tests are exactly the tests of pairs i < j |
| StatisticalEngine.CountSignificant | scripts/statistical_analysis_engine.py:349 | no more relationships are significant than there are correlation tests |
| StatisticalEngine.PerformStatisticalTests | scripts/statistical_analysis_engine.py:301-366 | a result exactly with 2+ numeric columns: normality tests for the columns with more than 3 values, the pair tests, the counts and the data-quality label |
| StatisticalEngine.TotalVariance | scripts/statistical_analysis_engine.py:390 | the total variance is defined exactly when no std is NaN, and is then non-negative |
| StatisticalEngine.ColumnEntries | scripts/statistical_analysis_engine.py:374-387 | at most one entry per column; each entry is for a listed column with values, counts them and carries their description |
| StatisticalEngine.ColumnEntriesCover | scripts/statistical_analysis_engine.py:375-378 | every listed column with a value gets an entry |
| StatisticalEngine.VarianceAbove | scripts/statistical_analysis_engine.py:391 | the high-variance list is no longer than the column list |
| StatisticalEngine.VarianceAboveMembers | scripts/statistical_analysis_engine.py:391 | a column is listed exactly when its variance exceeds the threshold |
| StatisticalEngine.SumAboveAtMostTotal | scripts/statistical_analysis_engine.py:390-391 | the variances of the flagged columns add up to at most the total variance |
| StatisticalEngine.SumAboveExceedsCount | scripts/statistical_analysis_engine.py:391 | the flagged variances add up to at least, and when any is flagged more than, their count times the threshold |
| StatisticalEngine.SumAboveBounds | scripts/statistical_analysis_engine.py:390-391 | the variances of the listed columns add up to at most the total, and to more than their count times the threshold |
| StatisticalEngine.AboveMeanBound | scripts/statistical_analysis_engine.py:391 | if h columns each exceed 1.5 times the mean variance, then 3·h is less than twice the column count |
| StatisticalEngine.HighVarianceIsMinority | scripts/statistical_analysis_engine.py:390-391 | fewer than two thirds of the columns can be high-variance (or none is) |
| StatisticalEngine.HighVarianceColumns | scripts/statistical_analysis_engine.py:390-391 | none when a std is NaN; otherwise a column is listed exactly when its variance exceeds 1.5 times the mean variance |
| StatisticalEngine.PerformExploratoryAnalysis | scripts/statistical_analysis_engine.py:368-414 | column statistics for the numeric columns with values, the high-variance columns, the first 3 of them as most variable, and the data shape |
| StatisticalEngine.AnalyzeData | scripts/statistical_analysis_engine.py:14-68 | empty data gives "No data provided"; no numeric column after the filter gives "No numeric columns found for analysis"; otherwise the counts, the type and the dispatched routine's report |
| AnalysisEngine.NumericSelection | scripts/analysis_engine.py:49-52 | without a column list every numeric column, otherwise exactly the requested columns that are numeric |
| AnalysisEngine.MissingCount | scripts/analysis_engine.py:29 | a column's missing count plus its present values is its number of cells |
| AnalysisEngine.CategoricalNamesOf | scripts/analysis_engine.py:28 | a name is listed exactly when a non-numeric column carries it; together with the numeric list, it is as long as the column list |
| AnalysisEngine.MissingMap | scripts/analysis_engine.py:29 | every column has a missing count, and it complements the column's present values |
| AnalysisEngine.StatsOf | scripts/analysis_engine.py:36-43 | the six statistics of a column: mean, median, std, min and max from its description, `count` the number of present values |
| AnalysisEngine.StatsMap | scripts/analysis_engine.py:35-43 | statistics exactly for the listed columns, each the description of that column's present values |
| AnalysisEngine.ColumnsPartition | scripts/analysis_engine.py:26-28 | every column is numeric or categorical, and the two lists are together as long as the column list |
| AnalysisEngine.DataSummaryOf | scripts/analysis_engine.py:22-45 | the numeric and categorical name lists of the frame, a missing count for every column, and basic statistics exactly for the numeric ones, each the description of the column with `count` + missing = cells |
| AnalysisEngine.DataAnalysisEngine.DescribeColumns | scripts/analysis_engine.py:35-43 | the loop fills `basic_stats` with the description of each numeric column |
| AnalysisEngine.DataAnalysisEngine.GetDataSummary | scripts/analysis_engine.py:22-45 | the method returns the specified summary |
| AnalysisEngine.InterpretCorrelation | scripts/analysis_engine.py:268-277 | Strong at 0.7 or more, Moderate in [0.3, 0.7), Weak in [0.1, 0.3), Very Weak below 0.1 |
| AnalysisEngine.InterpretCorrelationMonotone | scripts/analysis_engine.py:268-277 | a larger value never gets a weaker label |
| AnalysisEngine.CorrelationAt | scripts/analysis_engine.py:63-70 | a pair gets an entry exactly when both indices are columns and the coefficient is not NaN; the entry names the two columns, carries the coefficient and the label of its absolute value |
| AnalysisEngine.CorrelationAnalysisOf | scripts/analysis_engine.py:47-79 | the error exactly when fewer than 2 columns are selected; never raises; counts the selected variables and every non-NaN pair i < j of them |
| AnalysisEngine.CorrelationEntriesFromPairs | scripts/analysis_engine.py:61-70 | every entry names a pair i < j of the columns, carries its non-NaN coefficient and the label of its absolute value |
| AnalysisEngine.CorrelationPairsCovered | scripts/analysis_engine.py:61-70 | every pair i < j with a non-NaN coefficient has its entry |
| AnalysisEngine.CorrelationPairsCount | scripts/analysis_engine.py:60-70 | there are at most n(n-1)/2 entries for n columns |
| AnalysisEngine.TopCorrelationsRanked | scripts/analysis_engine.py:72-77 | the top list is the first 10 of the ranked pairs: min(10, pairs) entries, descending by absolute coefficient, drawn from the pairs, none below an entry left out, ties in loop order |
| AnalysisEngine.DataAnalysisEngine.RunCorrelationAnalysis | scripts/analysis_engine.py:47-79 | the nested loop, sort and cut return the specified correlation analysis |
| AnalysisEngine.ChooseModel | scripts/analysis_engine.py:122 | Random Forest exactly when its R² is strictly larger; ties go to Linear Regression |
| AnalysisEngine.Except | scripts/analysis_engine.py:87-88 | a name is kept exactly when it is listed and is not the target |
| AnalysisEngine.ExceptAppend | scripts/analysis_engine.py:87-88 | the comprehension filters element by element: filtering a concatenation concatenates the filtered parts, so the order is kept |
| AnalysisEngine.ExceptWithoutTarget | scripts/analysis_engine.py:87-88 | a list that does not hold the target is kept unchanged |
| AnalysisEngine.DataAnalysisEngine.FeaturesFor | scripts/analysis_engine.py:86-88 | a given feature list is used as is; without one, a name is a feature exactly when it is numeric and not the target, and all numeric columns are features when the target is not numeric |
| AnalysisEngine.DefaultFeaturesOrder | scripts/analysis_engine.py:86-88 | without a feature list, the features are the numeric columns before the target followed by those after it, in frame order |
| AnalysisEngine.Zip | scripts/analysis_engine.py:112 | `zip` pairs features and importances position by position, as long as the shorter list |
| AnalysisEngine.DataAnalysisEngine.RunRegressionAnalysis | scripts/analysis_engine.py:81-124 | missing target gives its error; an empty feature list gives its error; a result exactly when the target exists, the features are not empty and the target and every feature are usable, and it raises exactly on an unusable one; the R² values are those of the fits; the importances are sorted descending, stably, as a permutation of the zipped pairs, the top drivers are their first 5 and Random Forest is chosen iff its R² is larger |
| AnalysisEngine.Inertias | scripts/analysis_engine.py:143-148 | one inertia per k of `range(2, min(8, rows // 2))`, the j-th being the inertia of k = j + 2 |
| AnalysisEngine.DataAnalysisEngine.CollectInertias | scripts/analysis_engine.py:143-148 | the loop appends the inertia of each k of the range, in order |
| AnalysisEngine.Diffs | scripts/analysis_engine.py:153 | one fewer difference than inertias, each `inertias[i] - inertias[i+1]` |
| AnalysisEngine.ElbowClusters | scripts/analysis_engine.py:150-154 | 3 with fewer than 2 inertias; otherwise the k after which the inertia drops most, the first such k on a tie |
| AnalysisEngine.ElbowInKRange | scripts/analysis_engine.py:144-154 | the elbow choice is always a k of the range |
| AnalysisEngine.ClusterCount | scripts/analysis_engine.py:142-154 | a given `n_clusters` is used; otherwise 3 when the range has fewer than 2 values of k, else the elbow choice, which lies in `range(2, min(8, rows // 2))` |
| AnalysisEngine.LabelPositions | scripts/analysis_engine.py:163 | `df[clusters == i]` selects exactly the rows labelled i |
| AnalysisEngine.Pick | scripts/analysis_engine.py:163 | selecting rows keeps one cell per selected row |
| AnalysisEngine.ContrastOf | scripts/analysis_engine.py:172-175 | the in-cluster mean is the mean of the cluster's present values, and `vs_overall` is that mean minus the column's overall mean |
| AnalysisEngine.ClusterInfoOf | scripts/analysis_engine.py:162-177 | cluster i has id i, size the number of rows labelled i, percentage size / rows · 100, and one characteristic per used column, its contrast over the rows labelled i |
| AnalysisEngine.ClusterSummaryOf | scripts/analysis_engine.py:161-177 | one entry per cluster 0..k-1, the i-th with id i, the number of rows labelled i, their percentage of all rows and the contrasts of cluster i |
| AnalysisEngine.DataAnalysisEngine.SummariseClusters | scripts/analysis_engine.py:161-177 | the nested loop gives, for each cluster, its size, its percentage of all rows and each column's in-cluster mean and difference from the overall mean |
| AnalysisEngine.ClusteringAnalysisOf | scripts/analysis_engine.py:126-185 | the error exactly with fewer than 2 columns; raises exactly on a column without values or a k outside 1..rows; otherwise the chosen k, the KMeans labels for that k, the cluster summary over those labels and the selected columns |
| AnalysisEngine.DataAnalysisEngine.RunClusteringAnalysis | scripts/analysis_engine.py:126-185 | the method returns the specified clustering analysis |
| AnalysisEngine.PercentTotalIsPercentSum | scripts/analysis_engine.py:162-167 | the summary's percentages add up like the per-cluster percentages of the label counts |
| AnalysisEngine.ClusterPercentagesSumTo100 | scripts/analysis_engine.py:162-167 | when KMeans labels every row with one of the k clusters, the percentages sum to 100 |
| AnalysisEngine.InterpretTTest | scripts/analysis_engine.py:279-285 | a difference exactly when p < 0.05, and then "higher" exactly when mean1 > mean2; the p-value is quoted |
| AnalysisEngine.InterpretAnova | scripts/analysis_engine.py:287-292 | group differences exactly when p < 0.05; the p-value is quoted |
| AnalysisEngine.Groups | scripts/analysis_engine.py:213 | one group per listed variable that is a column, in list order, each its values without NaN |
| AnalysisEngine.DataAnalysisEngine.RunStatisticalTests | scripts/analysis_engine.py:187-227 | a result exactly for "ttest" with two present variables or "anova" with 2+ variables of which 2+ are present; the statistic and p-value are those of `ttest_ind` on the two columns' values or `f_oneway` on the groups; significant exactly when p < 0.05; the interpretation matches the test |
| AnalysisEngine.TrendLine | scripts/analysis_engine.py:245-246 | `slope * future_x + intercept` at x = n, n+1, ... |
| AnalysisEngine.Shift | scripts/analysis_engine.py:253-254 | each forecast value moved by the same offset |
| AnalysisEngine.SquaredResiduals | scripts/analysis_engine.py:249-250 | one squared residual per data point |
| AnalysisEngine.MeanSquaredErrorNonNegative | scripts/analysis_engine.py:249-251 | the mean squared residual is never negative, so its square root is defined |
| AnalysisEngine.BandWidthNonNegative | scripts/analysis_engine.py:249-254 | with a square root that is never negative, the band half-width 1.96·sqrt(mse) is never negative |
| AnalysisEngine.DataAnalysisEngine.RunTimeSeriesForecast | scripts/analysis_engine.py:229-266 | missing target and fewer than 3 points give their errors; otherwise max(periods, 0) forecasts at x = n.., with upper - forecast = forecast - lower = 1.96·std_error |
| AnalysisEngine.ForecastSteps | scripts/analysis_engine.py:245-246 | consecutive forecasts differ by exactly the trend slope |
| AnalysisEngine.ForecastBand | scripts/analysis_engine.py:248-254 | with a non-negative square root, lower bound <= forecast <= upper bound at every step |
| AnalysisEngine.ForecastShape | scripts/analysis_engine.py:245-254 | consecutive forecasts differ by the slope, and the band brackets every forecast |
| AnalysisEngine.Settle | scripts/analysis_engine.py:300-363 | an analysis that raises turns the whole output into the catch-all error; otherwise the output is the summary and the analyses (JSON serialisation is not modelled, see below) |
| AnalysisEngine.AnalysesFor | scripts/analysis_engine.py:315-358 | each analysis is run exactly for its request type (correlation, regression and clustering also for a comprehensive request on 2+ numeric columns); a forecast uses the given periods, 6 by default |
| AnalysisEngine.UnusableSplit | scripts/analysis_engine.py:353-356 | splitting the numeric columns into first and rest keeps every column without values |
| AnalysisEngine.NumericSplitRegression | scripts/analysis_engine.py:353-356 | regressing the first numeric column on the others never reports an error, and raises exactly when a numeric column has no values |
| AnalysisEngine.ComprehensiveRegression | scripts/analysis_engine.py:346-358 | a comprehensive request on 2+ numeric columns regresses the first numeric column on the rest |
| AnalysisEngine.HandleRequest | scripts/analysis_engine.py:308-358 | the summary first, then exactly the analyses of the request's type (all three for comprehensive with 2+ numeric columns, none for other types), a forecast over 6 periods when none is given |

## Left out

- JSON parsing, command-line arguments and printing in both scripts are I/O. The model starts from a parsed frame and a request and ends at the value that would be printed.
- All statistics and machine learning are inputs of the model, not computed: pandas summaries, `linregress`, `pearsonr`, `shapiro`, `jarque_bera`, `ttest_ind`, `f_oneway`, `skew`, `kurtosis`, StandardScaler, PCA, KMeans, RandomForestRegressor, LinearRegression, `r2_score` and the pairwise-distance silhouette proxy. KMeans labels are a given sequence; the model assumes, where a lemma says so, one label per row below k.
- Floating point is modelled as exact reals. NaN appears only where the code tests for it or where pandas yields it (`std` of fewer than two values, `corr`). Rounding and the `:.3f` and `:.1%` formatting are not modelled. The interpretation texts are datatypes that carry the p-value they quote. The regression and forecast `summary` strings, which format a percentage, are not modelled.
- Reals have no NaN or infinity. A library value that is NaN in Python (the mean of an empty cluster, say) is any real in the model.
- `select_dtypes` is a numeric flag per column. Categorical columns are taken as the non-numeric ones, whereas `object` excludes booleans and dates. The `data_types` map of dtype names is not modelled.
- Frame well-formedness is not modelled: nothing states that every column has one cell per row or that column names are unique. Names are unique in frames built from JSON records. A name selected twice (`selected_columns` at scripts/statistical_analysis_engine.py:39-41, or `columns` and `feature_columns` in scripts/analysis_engine.py) gives pandas two equal columns, while `Project` and `AnalysedFrame` list the name twice and every lookup by name finds its one column. Results keyed by `f"{col1}_vs_{col2}"` and `f"cluster_{i}"` are sequences in loop order, so key collisions are not modelled.
- `correlation_matrix` and `__init__`'s `self.results` are not modelled. `self.results` is never read.
- Python's in-place `list.sort` is modelled as a pure stable sort on values.
- The `except` blocks of the `perform_*` routines, which store a "... failed" message, are not modelled. The library inputs are total functions, so those exceptions cannot arise in the model.
- AnalysisEngine.DataAnalysisEngine.RunStatisticalTests: scipy raising on non-numeric compared columns is not modelled; the columns are taken to be numeric.
- AnalysisEngine.DataAnalysisEngine.RunTimeSeriesForecast: a non-numeric target, on which `linregress` raises, is not modelled; `periods` is taken to be an integer.
- AnalysisEngine.DataAnalysisEngine.RunRegressionAnalysis: the failures of pandas and scikit-learn are abstracted as "a target or feature that is missing, non-numeric or without values raises".
- AnalysisEngine.HandleRequest: a request missing a required key (`target_column`, `test_type`, `variables`) raises `KeyError` during parsing. That case is outside the model, whose `Request` always carries its fields. The optional keys are `Option`s: `periods` defaults to 6 (`DefaultPeriods`), and `columns`, `feature_columns` and `n_clusters` default to `None`.
- AnalysisEngine.Settle: the model's `Completed` response is the value handed to `json.dumps` at scripts/analysis_engine.py:360, not its serialisation. `json.dumps` raises `TypeError` on values that are not plain Python types. Two such values occur: the pandas `Index` stored in `features_used` (line 183) when clustering runs without a column list (line 129), and the numpy booleans in `significant` (lines 205 and 222). In those cases the real output is the catch-all error of line 363. This covers every comprehensive request on 2+ numeric columns, every clustering request without `columns` that gets past the column check, and every test result.
- StatisticalEngine.AnalyzeData: the report is likewise the value handed to `json.dumps` at scripts/statistical_analysis_engine.py:431. The numpy booleans in `is_normal` and `significant` (lines 316 and 338) make that call raise whenever a normality or correlation test is reported, and the printed output is then the error of line 434.
- `Text.ToLower` lower-cases ASCII letters only. Python's `str.lower()` also folds other Unicode letters, which does not matter for the words month, date and time that are searched for.
- StatisticalEngine.PerformExploratoryAnalysis: the constant insight strings "good" and "ready" are not modelled.
