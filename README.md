# Probability-laws teaching app: simulation core in Dafny

The app lets a user change parameters and watch classical probability laws
appear in simulated data: the central limit theorem (means of repeated
samples), the law of large numbers (running means), regression to the mean
(selecting the best scorers of a noisy first test), and the law of small
numbers (means of small reseeded samples). It also has a five-question quiz.
This project models the deterministic logic around those simulations:

- `Random` (random.dfy): numpy's process-wide generator as a value. A
  `Generator` supplies the `i`-th value of a call drawing `count` values of a
  distribution in a given state, the state that call leaves, and the state
  `np.random.seed(k)` sets. Every simulation is a function of it. `Rejects`
  says which parameters numpy refuses with `ValueError`.
- `Series` (series.dfy): `np.sum`, `np.mean` (NaN, here `None`, for an empty
  array), `np.min`, `np.max`, and bounds on means.
- `Utils` (utils.py): the tag-to-generator dispatch with defaults and the
  Normal fallback, the bimodal generator, repeated sample means (a loop), and
  the guarded summary statistics.
- `LawOfLargeNumbers` (law_of_large_numbers.py): the theoretical-mean table,
  the running mean as a specification function and as a loop, and the tab.
- `Regression` (regression.py): cohort drawing, threshold mask, paired
  boolean indexing, the means, and the reported shrinkage.
- `SmallSamples` (small_samples.py): the reseeding loop.
- `KnowledgeTest` (knowledge_test.py): the quiz session state as a class.
- `StreamlitApp` (streamlit_app.py) and `ProbabilityDemo`
  (probability_demo_app_fixed.py): the two single-page scripts' generators,
  `means` lists and running means.

Numbers are `real`; NaN is `None`. Behaviour of the code worth noting:

- `safe_statistics` is all-or-nothing: one raising statistic makes every
  field NaN. It does not mark single fields undefined.
- The running mean of no data is empty, not an error.
- `np.random.uniform` accepts `low >= high`. Only the refusals numpy
  actually makes are modelled.
- The law-of-large-numbers tab in streamlit_app.py draws its "theoretical"
  line from the empirical mean of the data. It is therefore always the last
  running mean.
- In probability_demo_app_fixed.py the bimodal sample has `2 * (size // 2)`
  values, so an odd size loses one.

## Model

| member | source | states |
|---|---|---|
| `Utils.FamilyOf` | app_tabs/utils.py:12-21 | a known tag selects its own family; any other tag selects Normal |
| `Utils.FamilyOfTagOf` | app_tabs/utils.py:12-20 | every family's tag is known and selects that family again |
| `Utils.SpecOf` | app_tabs/utils.py:13-19 | the selected spec belongs to the tag's family; with no parameters it is the family's defaults (mu=0, sigma=1, a=0, b=1, scale=1, n=20, p=0.5, lam=5, mu1=-2, mu2=2, sigma1=sigma2=1) |
| `Utils.SpecOfParams` | app_tabs/utils.py:13-19 | each parameter of the family is the supplied value if named, the default otherwise; keys outside the family are ignored |
| `Utils.GenerateBimodal` | app_tabs/utils.py:24-31 | exactly `size` values: the first `size//2` are component 1's draws in order, the rest component 2's draws from the state the first call left; never interleaved |
| `Utils.Generate` | app_tabs/utils.py:12-20 | every spec yields exactly `size` values; every non-bimodal spec is exactly one numpy call of its distribution; the bimodal spec is `generate_bimodal_data` with its four parameters |
| `Utils.GenerateDistributionData` | app_tabs/utils.py:10-21 | fails exactly when numpy refuses the selected parameters; otherwise the `size` values that `Generate` draws for the tag's spec with missing parameters taken from the defaults |
| `Utils.UnknownTagIsNormal` | app_tabs/utils.py:21 | an unrecognised tag gives the same result as the Normal tag |
| `Utils.DefaultsAccepted` | app_tabs/utils.py:13-19 | with no parameters no tag fails |
| `Utils.CltShape` | app_tabs/utils.py:39-47 | uniform, exponential and bimodal tags use their default-parameter shapes; every other tag uses N(0,1) |
| `Utils.RepeatedMeans` | app_tabs/utils.py:37-48 | exactly `k` means |
| `Utils.RepeatedMeansAt` | app_tabs/utils.py:38-48 | mean `j` is the mean of the sample drawn in the state the first `j` samples left |
| `Utils.RepeatedMeansPrefix` | app_tabs/utils.py:37-48 | more samples only append means |
| `Utils.RepeatedMeansDefined` | app_tabs/utils.py:48 | with a positive sample size no mean is NaN |
| `Utils.CalculateSampleMeans` | app_tabs/utils.py:35-49 | the loop returns the repeated means of the tag's fixed shape and the final generator state |
| `Utils.SafeStatistics` | app_tabs/utils.py:53-67 | all seven fields NaN exactly for empty data; otherwise mean, median, std, min, max defined with min <= mean <= max; skewness and kurtosis NaN for length <= 2 |
| `Series.MeanBetweenMinMax` | app_tabs/utils.py:57-61 | the mean of a non-empty array lies between its minimum and maximum |
| `LawOfLargeNumbers.TheoreticalMean` | app_tabs/law_of_large_numbers.py:7-14 | for every tag generating a normal, uniform or exponential sample, the value is the expectation of that family's default distribution (0, 0.5, 1); every tag other than uniform and exponential gets 0.0 |
| `LawOfLargeNumbers.TheoreticalMeanBinomialGap` | app_tabs/law_of_large_numbers.py:14 | the binomial tag gets 0.0 though its default distribution has mean 10 |
| `LawOfLargeNumbers.PrefixMeans` | app_tabs/law_of_large_numbers.py:33 | one running mean per value; element `i` times `i+1` is the sum of the first `i+1` values |
| `LawOfLargeNumbers.CumulativeMean` | app_tabs/law_of_large_numbers.py:33 | the accumulating loop computes exactly the running means |
| `LawOfLargeNumbers.PrefixMeanFirst` | app_tabs/law_of_large_numbers.py:33 | the first running mean is the first value |
| `LawOfLargeNumbers.PrefixMeanLast` | app_tabs/law_of_large_numbers.py:33 | the last running mean is the mean of all the data |
| `LawOfLargeNumbers.PrefixMeanStep` | app_tabs/law_of_large_numbers.py:33 | `c[i+1] = (c[i]*(i+1) + data[i+1])/(i+2)` |
| `LawOfLargeNumbers.PrefixMeansPrefix` | app_tabs/law_of_large_numbers.py:33 | running means of a prefix are the prefix of the running means |
| `LawOfLargeNumbers.PrefixMeansExample` | app_tabs/law_of_large_numbers.py:33 | [2,4,6] gives [2,3,4] |
| `LawOfLargeNumbers.LawOfLargeNumbersTab` | app_tabs/law_of_large_numbers.py:32-34 | the data are `trials` draws of the tag's default-parameter spec; `cumulative` is exactly their running means, the first being the first value and the last the data mean; the line is the table value |
| `Regression.DrawCohort` | app_tabs/regression.py:13-15 | both tests have `n` scores; each subject's two scores are its ability plus a separate noise draw |
| `Regression.Mask` | app_tabs/regression.py:17 | bit `i` is set exactly when `test1[i] >= threshold` |
| `Regression.CompressPaired` | app_tabs/regression.py:17-21 | the two selections have equal length and stay paired subject by subject, in order |
| `Regression.CompressMask` | app_tabs/regression.py:16-21 | every selected score reaches the threshold; every score reaching it is selected; nothing is selected exactly when no score reaches it |
| `Regression.Select` | app_tabs/regression.py:17-25 | `None` exactly when no score reaches the threshold; otherwise paired non-empty selections, best test-1 mean at least the threshold, and the four means of the right arrays |
| `Regression.GenerateRegressionData` | app_tabs/regression.py:9-32 | `None` for no subjects, a negative sigma or a percentile outside [0, 100] (numpy raises inside the `try`); otherwise exactly the selection made on the drawn cohort at the computed threshold, so `None` also exactly when nothing is selected; a result has `n` scores per test and best test-1 mean at least the threshold |
| `Regression.BestSubjectSelected` | app_tabs/regression.py:16-19 | with at least one subject, a valid percentile and a threshold at most the largest score, a result exists and contains the best subject |
| `Series.MeanAtLeast` | app_tabs/regression.py:24 | the mean of values that all reach `t` reaches `t` |
| `Regression.Shrinkage` | app_tabs/regression.py:87-88 | `diff` is the drop between the two means; `pct_diff` is `diff` as a percentage of the first mean, or 0 when that mean is 0 |
| `SmallSamples.SmallShape` | app_tabs/small_samples.py:31-42 | each offered tag samples its family's default shape, the same as the central-limit shapes |
| `SmallSamples.SeededSample` | app_tabs/small_samples.py:30-42 | simulation `i` draws `n_small` values right after seeding with `i+1000`: one call of the tag's distribution, or for bimodal `n//2` and `n - n//2` values of its two components |
| `SmallSamples.SeededMeans` | app_tabs/small_samples.py:28-43 | exactly `k` means |
| `SmallSamples.SeededMeansAt` | app_tabs/small_samples.py:29-43 | mean `i` depends only on the tag, `n_small` and `i` |
| `SmallSamples.SeededMeansPrefix` | app_tabs/small_samples.py:29-43 | raising `num_sim` only appends |
| `SmallSamples.SmallSampleMeans` | app_tabs/small_samples.py:28-45 | the loop computes exactly the seeded means |
| `KnowledgeTest.Bank` | app_tabs/knowledge_test.py:19-70 | five questions, four options each, each right answer a valid option index |
| `KnowledgeTest.Grade` | app_tabs/knowledge_test.py:92-101 | top band exactly at >= 80%, middle band exactly in [60%, 80%) |
| `KnowledgeTest.GradeOfFive` | app_tabs/knowledge_test.py:92-101 | with five questions: 4-5 top, 3 middle, 0-2 lowest |
| `KnowledgeTest.Session.Init` | app_tabs/knowledge_test.py:14-17 | sets score 0, question 0, not completed only when the score is absent; keeps `0 <= score <= question <= 5` and completed iff all answered |
| `KnowledgeTest.Session.CurrentQuestion` | app_tabs/knowledge_test.py:72-73 | while unfinished the question index is in bounds |
| `KnowledgeTest.Session.Answer` | app_tabs/knowledge_test.py:77-90 | the question advances by one, the score rises by one iff the answer is right, the fifth answer completes the quiz; the invariant holds |
| `KnowledgeTest.Session.Result` | app_tabs/knowledge_test.py:92-101 | a completed quiz is top band iff score >= 4, middle iff score is 3 |
| `KnowledgeTest.Session.Reset` | app_tabs/knowledge_test.py:104-108 | score 0, question 0, not completed; the invariant holds |
| `StreamlitApp.Generate` | streamlit_app.py:53-62 | `size` values; uniform draws U(0,1), exponential Exp(1), any other non-bimodal tag N(0,1); bimodal split `size//2` / rest |
| `StreamlitApp.Means` | streamlit_app.py:64 | `num_samples` means, each of one `generate` call in the state the previous calls left |
| `StreamlitApp.LlnShape` | streamlit_app.py:87-93 | uniform and exponential use their defaults; every other tag, bimodal included, draws N(0,1) |
| `StreamlitApp.LawOfLargeNumbersTab` | streamlit_app.py:95-97 | `data` is `trials` draws of `LlnShape(tag)` (N(0,1) for every tag but uniform and exponential); `cumulative` is its running means; `expected` is its empirical mean, equal to the last running mean |
| `ProbabilityDemo.GenerateDistribution` | probability_demo_app_fixed.py:70-82 | `size` values, except `2*(size//2)` for bimodal in two blocks of `size//2`; uniform is U(-1,1); exponential is Exp(1); unknown tags draw N(0,1) |
| `ProbabilityDemo.BimodalOddSizeShort` | probability_demo_app_fixed.py:77-80 | an odd size yields one value fewer |
| `ProbabilityDemo.Means` | probability_demo_app_fixed.py:84 | `num_samples` means, element `j` the mean of the `j`-th `generate_distribution` call in the state the earlier calls left; all defined for non-bimodal tags and positive size |
| `ProbabilityDemo.BimodalSizeOneMeansUndefined` | probability_demo_app_fixed.py:84 | bimodal samples of size 1 are empty, so every mean is NaN |
| `ProbabilityDemo.LawOfLargeNumbersTab` | probability_demo_app_fixed.py:98-105 | `data` is `trials` draws of `LlnDraw(choice)` (N(0,1) or U(-1,1)); running means satisfy `c[i]*(i+1) == sum(data[..i+1])`; the reference 0 is that draw's true mean |

## Left out

- Random generation itself. The distributions behind numpy's draws are not modelled: the values come from the `Generator` parameter. Distributional claims (1/sqrt(n) shrinkage, regression "on average") are therefore not stated.
- `@st.cache_data` memoization: its keying and eviction belong to the Streamlit library.
- Float numerics. Values are `real`. `np.percentile` interpolation, `np.median`, `np.std`, `stats.skew` and `stats.kurtosis` are supplied as functions and are not computed.
- Regression.GenerateRegressionData: the percentile function is a parameter with no constraint. Only the upper half of numpy's guarantee, that the threshold is at most max(test1), is assumed, and only as a hypothesis of `Regression.BestSubjectSelected`. The `st.error` message shown before `None` is returned is not modelled.
- Utils.SafeStatistics: a NaN from skew or kurtosis on three or more values is left to the supplied estimator. The warning message is not modelled.
- numpy's remaining refusals are not modelled: negative sizes, Poisson rates too large, and non-integer binomial trial counts. The generators take sizes as `nat`; `Regression.GenerateRegressionData` alone takes an `int` size and gives `None` for a non-positive one.
- SmallSamples.SmallSampleMeans: a tag outside the four offered ones would crash on an unbound `sample`; it is excluded by a precondition. The state left by the last reseed is also dropped, though it leaks into later draws elsewhere in the process.
- Plotting, widgets, markdown, `st.rerun`, `time.sleep` and downloads are not modelled. This covers `create_download_button`, `format_stat_display`, the PDF export, the three-sigma tabs, app_tabs/distribution_types.py, app_tabs/central_limit.py, app_tabs/comparison.py, app_tabs/three_sigma.py and app_tabs/main_app.py with its view counters.
- KnowledgeTest: question and option wording and explanations are presentation. A question is its option count and the index of its right answer.
