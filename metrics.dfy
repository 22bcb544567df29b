/** The metric layer: verdict normalisation, the truth, agreement and blended
    metrics, and the confidence-interval helper. */
module Metrics {
  import opened Wrappers
  import opened Text
  import opened Data

  /** A verifier seen from outside: called on a claim, it either returns a
      verdict or raises (`None`). */
  type Agent = string -> Option<string>

  /** `_normalize_verdict`: trimmed and lower-cased; a missing verdict becomes
      the empty string. */
  function NormalizeVerdict(verdict: Option<string>): (r: string)
    ensures verdict.None? ==> r == ""
  {
    Lower(Strip(verdict.GetOr("")))
  }

  /** A normalised verdict never has whitespace at either end nor an
      upper-case letter. */
  lemma NormalizedIsNormal(verdict: Option<string>)
    ensures Trimmed(NormalizeVerdict(verdict)) && NoUpper(NormalizeVerdict(verdict))
  {
    StripShape(verdict.GetOr(""));
    LowerKeepsTrimmed(Strip(verdict.GetOr("")));
  }

  /** Normalising twice is normalising once. */
  lemma NormalizeIdempotent(verdict: Option<string>)
    ensures NormalizeVerdict(Some(NormalizeVerdict(verdict))) == NormalizeVerdict(verdict)
  {
    NormalizedIsNormal(verdict);
    NormalizeOfNormal(NormalizeVerdict(verdict));
  }

  /** A text that is already trimmed and lower-case normalises to itself. */
  lemma NormalizeOfNormal(s: string)
    requires Trimmed(s) && NoUpper(s)
    ensures NormalizeVerdict(Some(s)) == s
  {
    StripShape(s);
    LowerOfNoUpper(s);
  }

  /** Surrounding whitespace and case do not matter: "  YES  " normalises to "yes". */
  lemma NormalizePaddedYes()
    ensures NormalizeVerdict(Some("  YES  ")) == "yes"
  {
    assert "  YES  " == "  " + "YES" + "  ";
    StripPadding("YES");
    assert Lower("YES") == "yes" by {
      assert |Lower("YES")| == 3;
      assert Lower("YES")[0] == 'y' && Lower("YES")[1] == 'e' && Lower("YES")[2] == 's';
    }
  }

  /** "TRUE" and "true" normalise to the same verdict. */
  lemma NormalizeIgnoresCase()
    ensures NormalizeVerdict(Some("TRUE")) == NormalizeVerdict(Some("true"))
  {
    var upper, lower := "TRUE", "true";
    assert Trimmed(upper) && Trimmed(lower);
    assert Strip(upper) == upper && Strip(lower) == lower;
    assert NoUpper(lower);
    LowerOfNoUpper(lower);
    var l := Lower(upper);
    assert l[0] == 't' && l[1] == 'r' && l[2] == 'u' && l[3] == 'e';
    assert l == lower;
  }

  /** `truth_accuracy`: 1.0 exactly when the example's verdict and the
      predicted verdict normalise to the same string, else 0.0. The example
      must carry a verdict (reading a missing one raises). */
  function TruthAccuracy(example: Example, pred: Option<string>): (r: real)
    requires example.verdict.Some?
    ensures r == 1.0 <==> NormalizeVerdict(example.verdict) == NormalizeVerdict(pred)
    ensures r == 0.0 || r == 1.0
  {
    if NormalizeVerdict(pred) == NormalizeVerdict(example.verdict) then 1.0 else 0.0
  }

  /** The metric built by `agreement_metric_factory(partner)`: it asks the
      partner about the example's claim and scores 1.0 exactly when the partner
      answered and both verdicts normalise to the same string. A partner that
      raises scores 0.0; the failure never escapes. */
  function AgreementScore(partner: Agent, example: Example, pred: Option<string>): (r: real)
    requires example.claim.Some?
    ensures r == 1.0 <==> partner(example.claim.value).Some? &&
                          NormalizeVerdict(pred) == NormalizeVerdict(partner(example.claim.value))
    ensures r == 0.0 || r == 1.0
    ensures partner(example.claim.value).None? ==> r == 0.0
  {
    match partner(example.claim.value)
    case None => 0.0
    case Some(other) =>
      if NormalizeVerdict(pred) == NormalizeVerdict(Some(other)) then 1.0 else 0.0
  }

  /** A metric closure, kept as the values it captured: the truth metric, the
      agreement metric over a partner snapshot, or the blend of both with
      weight `alpha` on truth. */
  datatype Metric = Truth | Agreement(partner: Agent) | Blended(partner: Agent, alpha: real)

  datatype MetricError = AlphaOutOfRange(alpha: real)

  /** `blended_metric_factory`: rejects a weight outside [0, 1] before any
      metric is built. */
  function BlendedMetricFactory(partner: Agent, alpha: real): (r: Result<Metric, MetricError>)
    ensures r.Success? <==> 0.0 <= alpha <= 1.0
    ensures r.Success? ==> r.value == Blended(partner, alpha)
    ensures r.Failure? ==> r.error == AlphaOutOfRange(alpha)
  {
    if !(0.0 <= alpha <= 1.0) then Failure(AlphaOutOfRange(alpha))
    else Success(Blended(partner, alpha))
  }

  /** The blended metric: `(1 - alpha) * agreement + alpha * truth`, where the
      truth term is 0.0 for an example without a verdict. Weight 0 is pure
      agreement, weight 1 is pure truth on labeled examples, and for a weight
      in [0, 1] the score lies in [0, 1]. */
  function BlendedScore(partner: Agent, alpha: real, example: Example, pred: Option<string>): (r: real)
    requires example.claim.Some?
    ensures alpha == 0.0 ==> r == AgreementScore(partner, example, pred)
    ensures alpha == 1.0 && example.verdict.Some? ==> r == TruthAccuracy(example, pred)
    ensures example.verdict.None? ==> r == (1.0 - alpha) * AgreementScore(partner, example, pred)
    ensures 0.0 <= alpha <= 1.0 ==> 0.0 <= r <= 1.0
  {
    var agreement := AgreementScore(partner, example, pred);
    var truth := if example.verdict.Some? then TruthAccuracy(example, pred) else 0.0;
    BlendOfBits(alpha, agreement, truth);
    (1.0 - alpha) * agreement + alpha * truth
  }

  /** With both terms 0 or 1, the blend is a sum of the weights of the terms
      that are 1. */
  lemma BlendOfBits(alpha: real, agreement: real, truth: real)
    requires agreement == 0.0 || agreement == 1.0
    requires truth == 0.0 || truth == 1.0
    ensures (1.0 - alpha) * agreement + alpha * truth ==
            (if agreement == 1.0 then 1.0 - alpha else 0.0) + (if truth == 1.0 then alpha else 0.0)
  {
  }

  /** The metric may be applied to the example: the truth metric needs a
      verdict, the partner-based ones need a claim to ask the partner about. */
  predicate Applicable(m: Metric, example: Example) {
    if m.Truth? then example.verdict.Some? else example.claim.Some?
  }

  /** A metric whose blend weight, if any, is in [0, 1]. */
  predicate WellFormed(m: Metric) {
    m.Blended? ==> 0.0 <= m.alpha <= 1.0
  }

  /** Calling a metric on an example and a predicted verdict. Every metric
      scores in [0, 1]. */
  function Score(m: Metric, example: Example, pred: Option<string>): (r: real)
    requires Applicable(m, example)
    ensures WellFormed(m) ==> 0.0 <= r <= 1.0
  {
    match m
    case Truth => TruthAccuracy(example, pred)
    case Agreement(partner) => AgreementScore(partner, example, pred)
    case Blended(partner, alpha) => BlendedScore(partner, alpha, example, pred)
  }

  /** Sum of a sequence of scores. */
  function Sum(xs: seq<real>): real {
    if xs == [] then 0.0 else Sum(xs[..|xs| - 1]) + xs[|xs| - 1]
  }

  /** Arithmetic mean (`statistics.mean`). */
  function Mean(xs: seq<real>): real
    requires xs != []
  {
    Sum(xs) / |xs| as real
  }

  /** The sum of `n` values in [lo, hi] lies in [n * lo, n * hi]. */
  lemma {:induction false} SumBounds(xs: seq<real>, lo: real, hi: real)
    requires forall i :: 0 <= i < |xs| ==> lo <= xs[i] <= hi
    ensures |xs| as real * lo <= Sum(xs) <= |xs| as real * hi
  {
    if xs != [] {
      var n := |xs|;
      SumBounds(xs[..n - 1], lo, hi);
      assert (n - 1) as real * lo + lo == n as real * lo;
      assert (n - 1) as real * hi + hi == n as real * hi;
    }
  }

  /** The mean of values in [lo, hi] lies in [lo, hi]; in particular the mean
      of scores in [0, 1] is a score. */
  lemma MeanBounds(xs: seq<real>, lo: real, hi: real)
    requires xs != []
    requires forall i :: 0 <= i < |xs| ==> lo <= xs[i] <= hi
    ensures lo <= Mean(xs) <= hi
  {
    SumBounds(xs, lo, hi);
    var n := |xs| as real;
    assert n * lo <= Sum(xs) <= n * hi;
    assert lo == (n * lo) / n && hi == (n * hi) / n;
  }

  /** The multiplier of the margin: for fewer than 30 scores a lookup of
      {0.90: 1.645, 0.95: 1.96, 0.99: 2.576} with 1.96 for any other level;
      from 30 scores on always 1.96, whatever level was asked for. */
  function CriticalValue(n: nat, confidence: real): (t: real)
    ensures t == 1.645 || t == 1.96 || t == 2.576
    ensures n >= 30 ==> t == 1.96
    ensures n < 30 && confidence == 0.90 ==> t == 1.645
    ensures n < 30 && confidence == 0.99 ==> t == 2.576
    ensures n < 30 && confidence != 0.90 && confidence != 0.99 ==> t == 1.96
  {
    if n < 30 then
      if confidence == 0.90 then 1.645
      else if confidence == 0.95 then 1.96
      else if confidence == 0.99 then 2.576
      else 1.96
    else 1.96
  }

  /** (mean, lower, upper). */
  datatype Interval = Interval(mean: real, lower: real, upper: real)

  /** `compute_confidence_interval`. The standard error `stdev(scores) /
      sqrt(n)` is supplied by the caller (any non-negative value). No scores
      give (0, 0, 0), one score `m` gives (m, m, m), and otherwise the interval
      is the mean plus or minus `CriticalValue * standardError`, so it is
      symmetric about the mean and contains it. */
  function ConfidenceInterval(scores: seq<real>, confidence: real, standardError: real): (r: Interval)
    requires standardError >= 0.0
    ensures scores == [] ==> r == Interval(0.0, 0.0, 0.0)
    ensures |scores| == 1 ==> r == Interval(scores[0], scores[0], scores[0])
    ensures scores != [] ==> r.mean == Mean(scores)
    ensures r.lower <= r.mean <= r.upper
    ensures r.upper - r.mean == r.mean - r.lower
    ensures |scores| >= 2 ==> r.upper - r.mean == CriticalValue(|scores|, confidence) * standardError
  {
    if scores == [] then Interval(0.0, 0.0, 0.0)
    else
      var mean := Mean(scores);
      if |scores| == 1 then
        assert scores[..0] == [];
        assert Sum(scores) == scores[0];
        Interval(mean, mean, mean)
      else
        var margin := CriticalValue(|scores|, confidence) * standardError;
        Interval(mean, mean - margin, mean + margin)
  }

  /** For scores in [0, 1] (as every metric gives), the interval's centre is
      itself a score in [0, 1]. */
  lemma IntervalOfScores(scores: seq<real>, confidence: real, standardError: real)
    requires standardError >= 0.0
    requires forall i :: 0 <= i < |scores| ==> 0.0 <= scores[i] <= 1.0
    ensures 0.0 <= ConfidenceInterval(scores, confidence, standardError).mean <= 1.0
  {
    if scores != [] {
      MeanBounds(scores, 0.0, 1.0);
    }
  }

  /** Width of an interval. */
  function Width(r: Interval): real {
    r.upper - r.lower
  }

  /** For fewer than 30 scores with a positive standard error, a higher
      confidence level gives a strictly wider interval with the same mean. */
  lemma WidthGrowsWithConfidence(scores: seq<real>, standardError: real)
    requires 2 <= |scores| < 30 && standardError > 0.0
    ensures ConfidenceInterval(scores, 0.90, standardError).mean == ConfidenceInterval(scores, 0.99, standardError).mean
    ensures Width(ConfidenceInterval(scores, 0.90, standardError)) < Width(ConfidenceInterval(scores, 0.95, standardError))
    ensures Width(ConfidenceInterval(scores, 0.95, standardError)) < Width(ConfidenceInterval(scores, 0.99, standardError))
  {
    var n := |scores|;
    assert CriticalValue(n, 0.95) == 1.96;
    assert 1.645 * standardError < 1.96 * standardError < 2.576 * standardError;
  }

  /** From 30 scores on, the requested confidence level has no effect. */
  lemma LargeSampleIgnoresConfidence(scores: seq<real>, c1: real, c2: real, standardError: real)
    requires |scores| >= 30 && standardError >= 0.0
    ensures ConfidenceInterval(scores, c1, standardError) == ConfidenceInterval(scores, c2, standardError)
  {
  }
}
