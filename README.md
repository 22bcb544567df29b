# Folie à Deux co-training core, in Dafny

Folie à Deux trains two claim verifiers against each other. Each verifier
answers "yes" or "no" to a factual claim.

- A baseline round optimises both verifiers against ground-truth accuracy on
  a labeled development set.
- Each co-training round then re-optimises verifier A to agree with B, and B
  to agree with A, using a copy of the partner taken at the start of the
  round.
- An anchoring weight `alpha` can blend truth accuracy into the agreement
  metric. An ablation study sweeps five such weights.

This project models the deterministic logic around the external optimizer
and language model, and proves properties of it:

- **`Text`**: Python's `str.strip()` and (ASCII) `str.lower()`.
- **`Config`**: the experiment configuration, its defaults, the ordered range
  checks of `validate`, and the rule that parses boolean environment flags.
- **`Data`**:
  - examples and the labeled development set;
  - the repeated-and-shuffled unlabeled training set, where the shuffle is an
    in-place Fisher-Yates pass over an array;
  - dataset validation with its first-failure error.
- **`Metrics`**:
  - verdict normalisation;
  - the truth, agreement and blended metrics, each a defunctionalised closure
    over a partner verifier;
  - critical values and the confidence interval.
- **`Verifier`**: the yes/no resolution rule of `Verifier.forward`, including
  its random fallback. It is a method that rewrites the prediction object in
  place.
- **`Evaluation`**:
  - the exception fallback of `evaluate`;
  - the counting loops of `agreement_rate`, `detailed_evaluation` and
    `compare_programs`, as methods with loop invariants. Each is proved
    against a per-example classification and the count of each class.
- **`Experiment`**:
  - the results log, a class whose `rounds` field is appended to;
  - the round state machine of `folie_a_deux`, as reference functions
    (`SlotsAfter`, `CallOf`, `RecordAt`) and as a method with a loop. The
    method is proved to make exactly the prescribed optimizer calls, in
    order, and to log the prescribed records;
  - the ablation sweep.

Agents (verifiers) are functions `claim -> Option<verdict>`, where `None`
means the call raised. The optimizer and the evaluator are parameters of the
run (`Environment`).

## Model

| member | source | states |
|---|---|---|
| Text.TrimStartShape | folie_a_deux/metrics.py:12 | removing leading whitespace leaves a suffix, removes only whitespace, and leaves no leading whitespace |
| Text.TrimEndShape | folie_a_deux/metrics.py:12 | removing trailing whitespace leaves a prefix, removes only whitespace, and leaves no trailing whitespace |
| Text.StripShape | folie_a_deux/metrics.py:12 | `strip()` yields a trimmed string no longer than its input, and is the identity on trimmed strings |
| Text.StripPadding | folie_a_deux/metrics.py:12 | two spaces on each side of a trimmed text are stripped off |
| Text.LowerShape | folie_a_deux/metrics.py:12 | `lower()` keeps the length and maps each character independently |
| Text.LowerKeepsTrimmed | folie_a_deux/metrics.py:12 | lower-casing keeps a trimmed text trimmed and leaves no upper-case letter |
| Text.LowerOfNoUpper | folie_a_deux/metrics.py:12 | a text without upper-case letters is its own lower-case form |
| Config.Validate | folie_a_deux/config.py:49-61 | passes iff alpha is in [0,1], rounds >= 1, temperature >= 0 and max_tokens >= 1; otherwise it reports the first violated guard, in source order, with the offending value; it returns a verdict and changes no field |
| Config.DefaultsAreValid | folie_a_deux/config.py:15-29 | the dataclass defaults pass validation |
| Config.ParseFlag | folie_a_deux/config.py:42-46 | a flag is true iff the variable is set and its 4 characters lower-case to "true"; an unset variable is false |
| Config.ParseFlagExamples | folie_a_deux/config.py:42-46 | "TRUE" and "True" are true; unset, " true" and "1" are false |
| Data.CreateExample | folie_a_deux/data.py:11-25 | the claim is the input; the verdict field is present iff a verdict is given, and then holds it |
| Data.DevLabeled | folie_a_deux/data.py:28-63 | the development set has 30 examples, each created with its claim and a "yes"/"no" verdict, in order |
| Data.DevLabeledValid | folie_a_deux/data.py:28-63 | the development set passes validation with labels required |
| Data.BaseExamples | folie_a_deux/data.py:79-97 | one unlabeled example per base claim, in order |
| Data.RepeatShape | folie_a_deux/data.py:97 | list repetition `s * n` has length `|s| * max(n, 0)` and only elements of `s` |
| Data.RepeatMultiplicity | folie_a_deux/data.py:97 | in `s * n`, each element occurs `max(n, 0)` times as often as in `s` |
| Data.BaseClaimsDistinct | folie_a_deux/data.py:79-94 | the fourteen base claims are pairwise distinct |
| Data.BaseExamplesDistinct | folie_a_deux/data.py:79-97 | the base examples are pairwise distinct |
| Data.Shuffle | folie_a_deux/data.py:99-100 | the in-place Fisher-Yates pass leaves a permutation of the array |
| Data.GetTrainUnlabeled | folie_a_deux/data.py:66-103 | the training set has `14 * max(r, 0)` examples, all with a claim and none with a verdict; it equals the repetition when not shuffled, and is a permutation of it when shuffled |
| Data.TrainMultiplicity | folie_a_deux/data.py:97-100 | each base claim occurs exactly `max(r, 0)` times in the training set, shuffled or not, and no other claim occurs |
| Data.ExampleError | folie_a_deux/data.py:123-131 | the checks on one example, in order: missing claim, then missing required verdict, then a verdict outside {"yes", "no"}; no error iff the example passes all three |
| Data.FirstError | folie_a_deux/data.py:123-131 | the scan from a position returns the error of the first failing example, and nothing iff every later example passes |
| Data.ValidateDataset | folie_a_deux/data.py:106-134 | an empty dataset fails first; otherwise the first failing index is reported with its error; success (true) iff the dataset is non-empty and every example passes |
| Data.UnlabeledValid | folie_a_deux/data.py:106-134 | a non-empty dataset of unlabeled examples with claims passes validation without labels |
| Data.CreatedExamplesValidate | folie_a_deux/data.py:11-25 | a created labeled example validates with labels iff its verdict is "yes" or "no"; an unlabeled one passes without labels and fails at index 0 with labels |
| Metrics.NormalizeVerdict | folie_a_deux/metrics.py:10-12 | a missing verdict normalises to "" |
| Metrics.NormalizedIsNormal | folie_a_deux/metrics.py:10-12 | a normalised verdict has no whitespace at either end and no upper-case letter |
| Metrics.NormalizeIdempotent | folie_a_deux/metrics.py:10-12 | normalising twice equals normalising once |
| Metrics.NormalizeOfNormal | folie_a_deux/metrics.py:10-12 | a trimmed, lower-case text normalises to itself |
| Metrics.NormalizePaddedYes | folie_a_deux/metrics.py:10-12 | "  YES  " normalises to "yes" |
| Metrics.NormalizeIgnoresCase | folie_a_deux/metrics.py:10-12 | "TRUE" and "true" normalise to the same verdict |
| Metrics.TruthAccuracy | folie_a_deux/metrics.py:15-37 | 1.0 iff the normalised example verdict equals the normalised prediction, otherwise 0.0 |
| Metrics.AgreementScore | folie_a_deux/metrics.py:51-73 | 1.0 iff the partner answers the example's claim and both normalised verdicts are equal; 0.0 when the partner raises; always 0 or 1 |
| Metrics.BlendedMetricFactory | folie_a_deux/metrics.py:78-92 | a weight outside [0,1] is rejected with that weight before any metric exists; otherwise the blended metric over the partner |
| Metrics.BlendedScore | folie_a_deux/metrics.py:94-119 | the truth term is 0 without a verdict; alpha = 0 gives the agreement score; alpha = 1 with a verdict gives truth accuracy; the score is in [0,1] for alpha in [0,1] |
| Metrics.Score | folie_a_deux/metrics.py:15-121 | every well-formed metric scores in [0,1] |
| Metrics.SumBounds | folie_a_deux/metrics.py:141 | n values in [lo, hi] sum to a value in [n*lo, n*hi] |
| Metrics.MeanBounds | folie_a_deux/metrics.py:141 | the mean of values in [lo, hi] lies in [lo, hi] |
| Metrics.CriticalValue | folie_a_deux/metrics.py:150-155 | below 30 scores: 1.645, 1.96 or 2.576 for 0.90, 0.95 or 0.99, and 1.96 for any other level; from 30 scores on, always 1.96 |
| Metrics.ConfidenceInterval | folie_a_deux/metrics.py:124-159 | no scores give (0,0,0); one score m gives (m,m,m); otherwise the interval is centred on the mean, with half-width equal to the critical value times the standard error, and it contains the mean |
| Metrics.IntervalOfScores | folie_a_deux/metrics.py:138-144 | for scores in [0,1], the interval's mean is in [0,1] |
| Metrics.WidthGrowsWithConfidence | folie_a_deux/metrics.py:150-157 | for 2..29 scores and positive standard error, the width at 0.90 < the width at 0.95 < the width at 0.99, over the same mean |
| Metrics.LargeSampleIgnoresConfidence | folie_a_deux/metrics.py:150-157 | from 30 scores on, the confidence level does not change the interval |
| Verifier.ContainsIffOccurs | folie_a_deux/verifier.py:50-53 | the substring test `sub in s` holds iff `sub` occurs at some position of `s` |
| Verifier.Resolve | folie_a_deux/verifier.py:48-57 | on the stripped, lower-cased text: "yes" iff it contains "yes" but not "no"; "no" iff it contains "no" but not "yes"; ambiguous iff it contains both or neither |
| Verifier.NegatedTextNormal | folie_a_deux/verifier.py:48 | "not no, but yes" is unchanged by normalisation |
| Verifier.NegatedTextMentionsBoth | folie_a_deux/verifier.py:50-53 | "not no, but yes" contains both "yes" and "no" |
| Verifier.NegatedWordIsAmbiguous | folie_a_deux/verifier.py:50-57 | "not no, but yes" is ambiguous |
| Verifier.EmptyIsAmbiguous | folie_a_deux/verifier.py:48-57 | a missing or empty verdict is ambiguous |
| Verifier.Prediction.constructor | folie_a_deux/verifier.py:67 | a new prediction holds the given verdict |
| Verifier.Forward | folie_a_deux/verifier.py:32-68 | the returned verdict is always exactly "yes" or "no"; a clear text is replaced by its resolution in the step's own prediction object; when the step raised, a fresh prediction is returned |
| Evaluation.Evaluate | folie_a_deux/evaluation.py:11-39 | the metric defaults to truth accuracy; the evaluator's score is returned, or 0.0 when the evaluator raises |
| Evaluation.OccurrencesAll | folie_a_deux/evaluation.py:61-77 | a value's count equals the length iff it is at every position |
| Evaluation.Rate | folie_a_deux/evaluation.py:134-136 | 0.0 for an empty dataset; in [0,1] whenever count <= total |
| Evaluation.RateOne | folie_a_deux/evaluation.py:77 | on a non-empty dataset the rate is 1.0 iff every example counts |
| Evaluation.Pair | folie_a_deux/evaluation.py:61-75 | one example seen by two programs: raised iff either program raises; agreed iff both answer with equal normalised verdicts; otherwise disagreed |
| Evaluation.Pairs | folie_a_deux/evaluation.py:61-75 | one pair outcome per example, in order |
| Evaluation.PairPartition | folie_a_deux/evaluation.py:61-75 | raised, agreed and disagreed examples add up to the total |
| Evaluation.AgreementRateOf | folie_a_deux/evaluation.py:42-79 | agreements over the dataset size; 0.0 on an empty dataset; always in [0,1] |
| Evaluation.AgreementRate | folie_a_deux/evaluation.py:42-79 | the loop's rate is the agreement rate: 0.0 on an empty dataset, in [0,1], and an example on which a program raises counts as a disagreement |
| Evaluation.AgreementRateOne | folie_a_deux/evaluation.py:61-77 | on a non-empty dataset the rate is 1.0 iff both programs answer and agree on every example |
| Evaluation.AgreementRateHalf | folie_a_deux/evaluation.py:61-77 | one agreement in two examples gives 0.5 |
| Evaluation.AgreementRateHalfExample | folie_a_deux/evaluation.py:61-77 | programs answering "true"/"true" then "false"/"true" agree at rate 0.5 |
| Evaluation.GradeOf | folie_a_deux/evaluation.py:112-130 | errored iff the program raises; ungraded iff it answers an unlabeled example; correct iff it answers a labeled example with the normalised label |
| Evaluation.Grades | folie_a_deux/evaluation.py:102-132 | one grade per example, in order |
| Evaluation.GradePartition | folie_a_deux/evaluation.py:102-132 | the four grades add up to the total |
| Evaluation.ExampleRecord | folie_a_deux/evaluation.py:103-131 | the record of example i has index i, the claim, the ground truth, the program's answer, and correct/error flags that match its grade |
| Evaluation.EvaluateExample | folie_a_deux/evaluation.py:103-131 | the loop body builds exactly the record of the example, and its flags determine the grade |
| Evaluation.CountGrade | folie_a_deux/evaluation.py:116-130 | exactly the counter of the example's grade goes up by one; an ungraded example changes none |
| Evaluation.TallyExample | folie_a_deux/evaluation.py:102-132 | one pass turns the counts over the first i examples into the counts over i+1, and yields record i |
| Evaluation.TallyAll | folie_a_deux/evaluation.py:102-132 | the loop's counters are the counts of correct, incorrect and errored grades over the dataset, with one record per example in index order |
| Evaluation.DetailedEvaluation | folie_a_deux/evaluation.py:82-143 | total, the three counts, accuracy = correct/total (0.0 when empty, within [0,1]), and exactly one record per example in index order |
| Evaluation.DetailedCounts | folie_a_deux/evaluation.py:102-132 | correct + incorrect + errors <= total, with equality when every example is labeled |
| Evaluation.OccurrencesPresent | folie_a_deux/evaluation.py:102-132 | a value that is counted has a position |
| Evaluation.CellOf | folie_a_deux/evaluation.py:201-217 | an example is scored iff both programs answer and it is labeled; a scored one lands in both-correct, both-incorrect, A-only or B-only according to which normalised answers equal the normalised label |
| Evaluation.Cells | folie_a_deux/evaluation.py:172-222 | one cell per example, in order |
| Evaluation.CellPartition | folie_a_deux/evaluation.py:172-222 | the four cells and the unscored examples add up to the total |
| Evaluation.ComparisonRecord | folie_a_deux/evaluation.py:173-217 | the record of example i: no predictions or correctness when a program raises; otherwise both predictions, agreement of the normalised verdicts, and per-program correctness exactly when labeled |
| Evaluation.CompareExample | folie_a_deux/evaluation.py:173-217 | the loop body builds exactly the record of the example, and its fields determine the pair outcome and the cell |
| Evaluation.CountComparison | folie_a_deux/evaluation.py:194-217 | exactly the agreement counter of the pair outcome and the table counter of the cell go up by one |
| Evaluation.TallyComparison | folie_a_deux/evaluation.py:172-222 | one pass turns the six counts over the first i examples into the counts over i+1, and yields record i |
| Evaluation.TallyComparisons | folie_a_deux/evaluation.py:172-222 | the loop's six counters are the counts of pair outcomes and cells over the dataset, with one record per example in index order |
| Evaluation.ComparePrograms | folie_a_deux/evaluation.py:146-233 | the agreement and disagreement counts, the 2x2 table, the agreement rate (the same value as the agreement rate of the two programs), and one record per example in index order |
| Evaluation.ComparisonStep | folie_a_deux/evaluation.py:194-217 | how each of the six counts grows by one example |
| Evaluation.ComparisonPartition | folie_a_deux/evaluation.py:184-220 | agreements + disagreements + examples on which a program raised = total |
| Evaluation.CellsAgreeWithPairs | folie_a_deux/evaluation.py:195-217 | both-correct <= agreements; A-only + B-only <= disagreements; the table covers at most the answered examples, and exactly them when every example is labeled |
| Experiment.Values | folie_a_deux/experiment.py:69-71 | one column of the log, one value per round, in order |
| Experiment.Max | folie_a_deux/experiment.py:69-71 | `max` returns an element that bounds every element |
| Experiment.ExperimentResults.constructor | folie_a_deux/experiment.py:19-22 | a new log is empty and holds no verifiers |
| Experiment.ExperimentResults.AddRound | folie_a_deux/experiment.py:24-41 | appends exactly one record of the five values, keeps earlier records and the verifiers, and makes it the final record |
| Experiment.ExperimentResults.FinalAccuracies | folie_a_deux/experiment.py:43-48 | (0.0, 0.0) on an empty log, else the last round's two accuracies |
| Experiment.ExperimentResults.FinalAgreement | folie_a_deux/experiment.py:50-54 | 0.0 on an empty log, else the last round's dev agreement |
| Experiment.ExperimentResults.Summary | folie_a_deux/experiment.py:56-72 | only the round count 0 for an empty log; otherwise the round count, the final values, and maxima that are at least the final values |
| Experiment.SummaryMaxima | folie_a_deux/experiment.py:69-71 | each maximum bounds its column in every round and is reached in some round |
| Experiment.ApplyOverrides | folie_a_deux/experiment.py:97-103 | each given override replaces its field; no other field changes; without overrides the configuration is unchanged |
| Experiment.Preflight | folie_a_deux/experiment.py:105-117 | passes iff the configuration is in range, the dev set validates with labels and the train set without; the checks run in the order configuration, dev set, train set, and the first failing check's error is reported |
| Experiment.PreflightOnOwnData | folie_a_deux/experiment.py:113-117 | with the development set and a non-empty unlabeled training set, the checks fail only on the configuration |
| Experiment.RoundMetric | folie_a_deux/experiment.py:144-152 | alpha > 0 selects the blended metric with that weight, alpha = 0 pure agreement, both over the given partner |
| Experiment.Baseline | folie_a_deux/experiment.py:130-138 | the baseline fails only at optimizer call 0 or 1 |
| Experiment.Advance | folie_a_deux/experiment.py:141-162 | round k+1 fails only at call 2k+2 or 2k+3 |
| Experiment.SlotsAfter | folie_a_deux/experiment.py:129-162 | after the baseline and k rounds, either the verifiers or a failure at an earlier optimizer call |
| Experiment.FailurePersists | folie_a_deux/experiment.py:129-201 | once a call fails, later rounds never run and the failure is final |
| Experiment.EarlierSucceeds | folie_a_deux/experiment.py:129-162 | a round is reached only if every earlier round succeeded |
| Experiment.RunFailure | folie_a_deux/experiment.py:105-201 | a failing run raises its check's error, or an optimizer failure at a call before 2R+2 |
| Experiment.CallOf | folie_a_deux/experiment.py:130-162 | call i has ordinal i and the configured mode; the two baseline calls compile an untrained verifier against truth accuracy on the dev set; every later call uses the train set |
| Experiment.MatchesIndex | folie_a_deux/experiment.py:130-162 | position j of a trace that matches from ordinal s is the expected value s+j |
| Experiment.MatchesAppend | folie_a_deux/experiment.py:130-162 | two traces that match back to back concatenate into one matching trace |
| Experiment.FollowsIndex | folie_a_deux/experiment.py:130-162 | position j of a run's trace from ordinal s is call s+j |
| Experiment.FollowsAppend | folie_a_deux/experiment.py:130-162 | the calls of consecutive stretches of a run concatenate |
| Experiment.RoundCalls | folie_a_deux/experiment.py:144-162 | round r makes call 2r on A against B's start-of-round version, then call 2r+1 on B against A's start-of-round version, unless call 2r raised; and the resulting state |
| Experiment.PartnersAreSnapshots | folie_a_deux/experiment.py:144-162 | within a round, the partner in A's metric is B's start-of-round version, and the partner in B's metric is A's start-of-round version |
| Experiment.TrainSample | folie_a_deux/experiment.py:170-174 | the agreement sample is the prefix of length min(60, n) |
| Experiment.RecordAt | folie_a_deux/experiment.py:164-177 | round r's record exists iff round r completes, carries round number r and agreement rates in [0,1] |
| Experiment.LoggedAppend | folie_a_deux/experiment.py:177 | appending the next round's record keeps the log the run's log |
| Experiment.LoggedIndex | folie_a_deux/experiment.py:141-177 | entry i of the log is round i+1's record |
| Experiment.LoggedNumbers | folie_a_deux/experiment.py:141-177 | a logged run numbers its rounds 1, 2, 3, ... in order |
| Experiment.FolieADeux | folie_a_deux/experiment.py:75-201 | succeeds iff the checks pass and every optimizer call returns, otherwise raises the first error; the optimizer calls made are the prescribed ones in order, 2+2R of them on success and up to the failing one otherwise; on success, a fresh results object with exactly R records numbered 1..R, each the prescribed record, holding the final verifiers |
| Experiment.RunChecked | folie_a_deux/experiment.py:129-197 | after the checks: the baseline then the rounds, with the outcome, trace and log of the run |
| Experiment.RunFromBaseline | folie_a_deux/experiment.py:141-197 | after the baseline: the rounds, their trace from call 2, and the final verifiers stored on success |
| Experiment.CheckInputs | folie_a_deux/experiment.py:105-117 | the checks run in order and give the preflight outcome |
| Experiment.RunRounds | folie_a_deux/experiment.py:141-188 | the loop ends in the state after R rounds or at the first failure, with the calls from ordinal 2 and, on success, R logged records |
| Experiment.TrainBaseline | folie_a_deux/experiment.py:130-138 | the baseline state, with calls 0 and 1 as prescribed, stopping at the first that raised |
| Experiment.PlayRound | folie_a_deux/experiment.py:141-177 | one pass trains both verifiers and, if both calls returned, logs the round's record |
| Experiment.LogRound | folie_a_deux/experiment.py:164-177 | measures round r and appends its record, which is the prescribed one |
| Experiment.TrainRoundAfter | folie_a_deux/experiment.py:154-162 | one round's training, with its calls appended after those of the rounds before |
| Experiment.TrainRound | folie_a_deux/experiment.py:144-162 | both metrics are built before either verifier changes; the state after the round; calls 2r and 2r+1 as prescribed, stopping at the first that raised |
| Experiment.MeasureRound | folie_a_deux/experiment.py:164-174 | the measured record is round r's prescribed record: dev accuracies (0.0 when evaluation raises), dev agreement, and agreement on the train prefix of length min(60, n) |
| Experiment.RunIsolated | folie_a_deux/experiment.py:242-246 | one caught run with no overrides: None iff the run raises, otherwise that run's own results, with its R prescribed records numbered 1..R (`Logged`) and the final verifiers `SlotsAfter` gives |
| Experiment.RunSweep | folie_a_deux/experiment.py:224-246 | for weights with distinct keys, the keys are exactly the sweep's keys, and key i holds, for the base configuration with only the weight changed in environment `envs(i)`, None iff that run fails and otherwise that run's own records and final verifiers |
| Experiment.RunAblationStudy | folie_a_deux/experiment.py:204-249 | exactly the five keys alpha_0.0 ... alpha_0.5; each key holds None iff the run with only that weight changed fails in its own environment (its own shuffle and optimizer randomness), and otherwise that run's own records and final verifiers, independently of the other keys |
| Experiment.SweepKeysDistinct | folie_a_deux/experiment.py:219-243 | the five weights have distinct keys |
| Experiment.SweepKeys | folie_a_deux/experiment.py:219-243 | the sweep's keys are exactly the five literal keys |

## Left out

- Experiment.RunSweep: requires the weights' keys to be distinct. The source loops over one literal list whose keys are distinct (`Experiment.SweepKeysDistinct`). With a repeated key, a later run would overwrite an earlier one, and the model does not state that case.
- `MIPROv2`, `dspy.Predict`/`ChainOfThought` and `dspy.Evaluate` are foreign library calls. They are parameters of the run (`Environment.optimize`, `Environment.untrained`, `Environment.evaluator`); optimizer instance `i` gets its ordinal so that two instances may differ.
- `setup_dspy` and `setup_logging` configure foreign libraries and are not modelled. Neither are logging or the `print` in the round loop.
- `ExperimentConfig.from_env` reads the process environment. Only its boolean-flag rule (`Config.ParseFlag`) is modelled. Neither is the `config is None` default of `folie_a_deux` and `run_ablation_study`: the configuration is always passed in.
- Experiment.ApplyOverrides: the overrides are written into the caller's configuration object in place; the model returns the overridden configuration instead (the method also returns it as `effective`).
- `folie_a_deux` loads its datasets itself. The model takes them from `Environment`. `run_ablation_study` gives run `i` its own environment `envs(i)`, because each run reloads and reshuffles the training set and draws fresh optimizer randomness. Nothing relates the five environments to each other. `Experiment.PreflightOnOwnData` states what happens when they are the repository's own datasets.
- Floats are `real`. `statistics.stdev(scores) / math.sqrt(n)` is the non-negative parameter `standardError` of `Metrics.ConfidenceInterval`.
- `random.shuffle` takes its draws from a parameter. `random.choice` in `Verifier.forward` is a nondeterministic choice.
- Lower-casing covers ASCII letters only. Stripping uses the full `str.isspace` set.
  - This is exact for every comparison with a constant ("yes", "no", "true").
  - Comparisons of two agents' free text with each other can differ from the source on non-ASCII letters: the agreement metric, `agreement_rate`, `compare_programs` and the label comparisons. For example, Python's `.lower()` makes "É" and "é" agree, but the model does not.
  - This does not matter for the run itself: its verifiers go through `Verifier.Forward`, which only ever produces "yes" or "no".
- Error messages become error values. For example, `ValueError("Example 3 missing 'claim' field")` becomes `MissingClaim(3)`, and an agent error becomes `None`.
- A prediction whose `verdict` attribute is `None` is not separated from a raising agent: an agent answers `Some(text)` or raises. `Verifier.Forward` never returns a `None` verdict.
- Agents are functions, so they are deterministic. Two consequences:
  - an agent called twice on the same claim answers the same;
  - the fact that `compare_programs` and `agreement_rate` skip program B's call when A raises only matters for ordering, which the model does not observe.
- `blended_metric` catches exceptions, but its `try` body cannot raise once the claim exists. That branch is not modelled.
- `agreement_rate`, `detailed_evaluation`, `compare_programs` and the agreement metric require every example to carry a claim. In the source, a missing claim raises even inside their exception handlers.
- `truth_accuracy` requires its example to carry a verdict. Reading a missing one raises.
- Experiment.FolieADeux: the results object is created after the baseline, not before. Nothing observes this, because it is returned only on success. The partially filled results object on a failed run is not exposed.
- Metrics.NormalizeVerdict: its own contract states only the `None` case; what the result is otherwise is stated by `Metrics.NormalizedIsNormal`, `Metrics.NormalizeOfNormal` and `Metrics.NormalizeIdempotent`.
- `folie_a_deux/main.py`, the plotting scripts, `scripts/folie_a_deux_ollama.py` and `folie_a_deux/__init__.py` are command-line and plotting code and are not part of this model.
