/** The co-training experiment: the append-only log of round results, the
    round state machine that re-optimises two verifiers against each other,
    and the sweep over truth-anchoring weights.

    The state machine is specified twice: as functions of the configuration
    and the collaborators (`SlotsAfter`, `CallOf`, `RecordAt`), and as the
    method `FolieADeux`, whose loop is proved to follow them. */
module Experiment {
  import opened Wrappers
  import opened Config
  import opened Data
  import opened Metrics
  import opened Evaluation

  // ---------------------------------------------------------------------
  // The results log

  /** What one round records. */
  datatype RoundRecord = RoundRecord(
    round: int,
    accuracyA: real,
    accuracyB: real,
    agreementDev: real,
    agreementTrain: real)

  /** The three columns the summary takes maxima of. */
  datatype Column = AccuracyA | AccuracyB | AgreementDev

  function Field(r: RoundRecord, c: Column): real {
    match c
    case AccuracyA => r.accuracyA
    case AccuracyB => r.accuracyB
    case AgreementDev => r.agreementDev
  }

  /** One column of the log, in round order. */
  function Values(rounds: seq<RoundRecord>, c: Column): (v: seq<real>)
    ensures |v| == |rounds|
    ensures forall i :: 0 <= i < |rounds| ==> v[i] == Field(rounds[i], c)
  {
    seq(|rounds|, i requires 0 <= i < |rounds| => Field(rounds[i], c))
  }

  /** Python's `max` over a non-empty sequence: an element that bounds all others. */
  function Max(xs: seq<real>): (m: real)
    requires xs != []
    ensures m in xs
    ensures forall i :: 0 <= i < |xs| ==> xs[i] <= m
  {
    if |xs| == 1 then xs[0]
    else
      var rest := Max(xs[1..]);
      if xs[0] >= rest then xs[0] else rest
  }

  datatype Stats = Stats(
    finalAccuracyA: real,
    finalAccuracyB: real,
    finalAgreement: real,
    maxAccuracyA: real,
    maxAccuracyB: real,
    maxAgreement: real)

  /** `summary()`: the round count, and the statistics when there is a round. */
  datatype RunSummary = RunSummary(totalRounds: nat, stats: Option<Stats>)

  /** The experiment's result object: the round log, appended to once per
      round, and the two final verifiers, stored when the run completes. */
  class ExperimentResults {
    var rounds: seq<RoundRecord>
    var verifierA: Option<Agent>
    var verifierB: Option<Agent>

    constructor ()
      ensures rounds == [] && verifierA.None? && verifierB.None?
    {
      rounds := [];
      verifierA := None;
      verifierB := None;
    }

    /** `add_round`: appends exactly one record holding the five values;
        earlier records and the stored verifiers stay as they were. */
    method AddRound(roundNum: int, accA: real, accB: real, agreeDev: real, agreeTrain: real)
      modifies this
      ensures rounds == old(rounds) + [RoundRecord(roundNum, accA, accB, agreeDev, agreeTrain)]
      ensures verifierA == old(verifierA) && verifierB == old(verifierB)
      ensures FinalAccuracies() == (accA, accB) && FinalAgreement() == agreeDev
    {
      rounds := rounds + [RoundRecord(roundNum, accA, accB, agreeDev, agreeTrain)];
    }

    /** `get_final_accuracies`: (0.0, 0.0) on an empty log, else the last
        round's two accuracies. */
    function FinalAccuracies(): (r: (real, real))
      reads this
      ensures rounds == [] ==> r == (0.0, 0.0)
      ensures rounds != [] ==> r == (rounds[|rounds| - 1].accuracyA, rounds[|rounds| - 1].accuracyB)
    {
      if rounds == [] then (0.0, 0.0)
      else
        var last := rounds[|rounds| - 1];
        (last.accuracyA, last.accuracyB)
    }

    /** `get_final_agreement`: 0.0 on an empty log, else the last dev agreement. */
    function FinalAgreement(): (r: real)
      reads this
      ensures rounds == [] ==> r == 0.0
      ensures rounds != [] ==> r == rounds[|rounds| - 1].agreementDev
    {
      if rounds == [] then 0.0 else rounds[|rounds| - 1].agreementDev
    }

    /** `summary`: only the round count for an empty log; otherwise the final
        values and, per column, a maximum that some round attains and that
        bounds every round, the final one included. */
    function Summary(): (s: RunSummary)
      reads this
      ensures rounds == [] <==> s == RunSummary(0, None)
      ensures s.totalRounds == |rounds|
      ensures rounds != [] ==>
                && s.stats.Some?
                && (s.stats.value.finalAccuracyA, s.stats.value.finalAccuracyB) == FinalAccuracies()
                && s.stats.value.finalAgreement == FinalAgreement()
                && s.stats.value.finalAccuracyA <= s.stats.value.maxAccuracyA
                && s.stats.value.finalAccuracyB <= s.stats.value.maxAccuracyB
                && s.stats.value.finalAgreement <= s.stats.value.maxAgreement
    {
      if rounds == [] then RunSummary(0, None)
      else
        var (accA, accB) := FinalAccuracies();
        var maxA, maxB, maxAgree :=
          Max(Values(rounds, AccuracyA)), Max(Values(rounds, AccuracyB)), Max(Values(rounds, AgreementDev));
        assert Values(rounds, AccuracyA)[|rounds| - 1] == accA;
        assert Values(rounds, AccuracyB)[|rounds| - 1] == accB;
        assert Values(rounds, AgreementDev)[|rounds| - 1] == FinalAgreement();
        RunSummary(|rounds|, Some(Stats(accA, accB, FinalAgreement(), maxA, maxB, maxAgree)))
    }
  }

  /** Each maximum in the summary bounds its column in every round and is
      reached in some round. */
  lemma SummaryMaxima(results: ExperimentResults, c: Column)
    requires results.rounds != []
    ensures var st := results.Summary().stats.value;
            var m := match c case AccuracyA => st.maxAccuracyA
                             case AccuracyB => st.maxAccuracyB
                             case AgreementDev => st.maxAgreement;
            && (forall i :: 0 <= i < |results.rounds| ==> Field(results.rounds[i], c) <= m)
            && (exists i :: 0 <= i < |results.rounds| && Field(results.rounds[i], c) == m)
  {
    var v := Values(results.rounds, c);
    var m := Max(v);
    var i :| 0 <= i < |v| && v[i] == m;
    assert Field(results.rounds[i], c) == m;
  }

  // ---------------------------------------------------------------------
  // Collaborators and configuration overrides

  /** A compilation by the external optimizer: called with the ordinal of the
      optimizer instance, the student program, the metric, the training set
      and the optimizer mode, it yields the compiled program or raises. */
  type Optimizer = (nat, Agent, Metric, seq<Example>, string) -> Option<Agent>

  /** What the experiment runs against: the two datasets, the untrained
      verifier for a chain-of-thought setting, the optimizer and the
      evaluator. */
  datatype Environment = Environment(
    dev: seq<Example>,
    train: seq<Example>,
    untrained: bool -> Agent,
    optimize: Optimizer,
    evaluator: Evaluator)

  /** The optional keyword overrides of `folie_a_deux`. */
  datatype Overrides = Overrides(rounds: Option<int>, useCot: Option<bool>, alpha: Option<real>)

  const NoOverrides := Overrides(None, None, None)

  /** The configuration after the overrides: a given override replaces its
      field, and nothing else changes. */
  function ApplyOverrides(c: ExperimentConfig, o: Overrides): (r: ExperimentConfig)
    ensures r.rounds == o.rounds.GetOr(c.rounds)
    ensures r.useCot == o.useCot.GetOr(c.useCot)
    ensures r.alpha == o.alpha.GetOr(c.alpha)
    ensures r.(rounds := c.rounds, useCot := c.useCot, alpha := c.alpha) == c
    ensures o == NoOverrides ==> r == c
  {
    var r := if o.rounds.Some? then c.(rounds := o.rounds.value) else c;
    var r := if o.useCot.Some? then r.(useCot := o.useCot.value) else r;
    if o.alpha.Some? then r.(alpha := o.alpha.value) else r
  }

  /** Why a run fails: a rejected configuration or dataset, or the optimizer
      call with the given ordinal raised. */
  datatype RunError =
    | InvalidConfig(configError: ConfigError)
    | InvalidDataset(datasetError: DatasetError)
    | OptimizerFailed(call: nat)

  /** The checks before any optimisation, in order: the configuration, the
      labeled dev set, the unlabeled train set. */
  function Preflight(c: ExperimentConfig, env: Environment): (r: Outcome<RunError>)
    ensures r.Pass? <==>
              InRange(c) && ValidateDataset(env.dev, true).Success? &&
              ValidateDataset(env.train, false).Success?
    ensures !InRange(c) ==> r == Fail(InvalidConfig(Validate(c).error))
    ensures InRange(c) && ValidateDataset(env.dev, true).Failure? ==>
              r == Fail(InvalidDataset(ValidateDataset(env.dev, true).error))
    ensures InRange(c) && ValidateDataset(env.dev, true).Success? &&
            ValidateDataset(env.train, false).Failure? ==>
              r == Fail(InvalidDataset(ValidateDataset(env.train, false).error))
    ensures r.Pass? ==> HasClaims(env.dev) && AllLabeled(env.dev) && HasClaims(env.train)
  {
    match Validate(c)
    case Fail(e) => Fail(InvalidConfig(e))
    case Pass =>
      match ValidateDataset(env.dev, true)
      case Failure(e) => Fail(InvalidDataset(e))
      case Success(_) =>
        match ValidateDataset(env.train, false)
        case Failure(e) => Fail(InvalidDataset(e))
        case Success(_) => Pass
  }

  /** With the repository's own datasets (the labeled development set and a
      non-empty training set built from unlabeled examples, as
      `GetTrainUnlabeled` returns for a positive repetition count) the
      checks fail only on the configuration. */
  lemma PreflightOnOwnData(c: ExperimentConfig, env: Environment)
    requires env.dev == DevLabeled()
    requires env.train != []
    requires forall i :: 0 <= i < |env.train| ==> env.train[i].claim.Some? && env.train[i].verdict.None?
    ensures Preflight(c, env).Pass? <==> InRange(c)
  {
    DevLabeledValid();
    UnlabeledValid(env.train);
  }

  // ---------------------------------------------------------------------
  // The round state machine, as functions

  /** The two verifier slots. */
  datatype Slots = Slots(a: Agent, b: Agent)

  /** The metric a round trains against: blended with the truth when the
      anchoring weight is positive, pure agreement when it is zero. */
  function RoundMetric(alpha: real, partner: Agent): (m: Metric)
    requires 0.0 <= alpha <= 1.0
    ensures alpha > 0.0 ==> m.Blended? && m.alpha == alpha
    ensures alpha == 0.0 ==> m.Agreement?
    ensures m.partner == partner
  {
    if alpha > 0.0 then BlendedMetricFactory(partner, alpha).value else Agreement(partner)
  }

  /** The baseline: optimizer instances 0 and 1 each compile an untrained
      verifier against truth accuracy on the dev set. */
  function Baseline(c: ExperimentConfig, env: Environment): (r: Result<Slots, RunError>)
    ensures r.Failure? ==> r.error == OptimizerFailed(0) || r.error == OptimizerFailed(1)
  {
    var a := env.optimize(0, env.untrained(c.useCot), Truth, env.dev, c.autoMode);
    if a.None? then Failure(OptimizerFailed(0))
    else
      var b := env.optimize(1, env.untrained(c.useCot), Truth, env.dev, c.autoMode);
      if b.None? then Failure(OptimizerFailed(1))
      else Success(Slots(a.value, b.value))
  }

  /** Round `k + 1` (counting from one): both metrics are built from the slots
      as they were at the start of the round, then instance 2k+2 re-optimises
      A and instance 2k+3 re-optimises B on the train set. */
  function Advance(c: ExperimentConfig, env: Environment, k: nat, s: Slots): (r: Result<Slots, RunError>)
    requires 0.0 <= c.alpha <= 1.0
    ensures r.Failure? ==> r.error == OptimizerFailed(2 * k + 2) || r.error == OptimizerFailed(2 * k + 3)
  {
    var metricA, metricB := RoundMetric(c.alpha, s.b), RoundMetric(c.alpha, s.a);
    var a := env.optimize(2 * k + 2, s.a, metricA, env.train, c.autoMode);
    if a.None? then Failure(OptimizerFailed(2 * k + 2))
    else
      var b := env.optimize(2 * k + 3, s.b, metricB, env.train, c.autoMode);
      if b.None? then Failure(OptimizerFailed(2 * k + 3))
      else Success(Slots(a.value, b.value))
  }

  /** The slots after the baseline and `k` rounds, or the first failure. */
  function SlotsAfter(c: ExperimentConfig, env: Environment, k: nat): (r: Result<Slots, RunError>)
    requires 0.0 <= c.alpha <= 1.0
    ensures r.Failure? ==> r.error.OptimizerFailed? && r.error.call < 2 * k + 2
  {
    if k == 0 then Baseline(c, env)
    else
      match SlotsAfter(c, env, k - 1)
      case Failure(e) => Failure(e)
      case Success(s) => Advance(c, env, k - 1, s)
  }

  /** Once a call fails, no later round runs: the failure stays as it was. */
  lemma {:induction false} FailurePersists(c: ExperimentConfig, env: Environment, k: nat, n: nat)
    requires 0.0 <= c.alpha <= 1.0
    requires k <= n && SlotsAfter(c, env, k).Failure?
    ensures SlotsAfter(c, env, n) == SlotsAfter(c, env, k)
    decreases n - k
  {
    if k < n {
      FailurePersists(c, env, k, n - 1);
    }
  }

  /** A later round is only reached through every earlier one. */
  lemma EarlierSucceeds(c: ExperimentConfig, env: Environment, k: nat, n: nat)
    requires 0.0 <= c.alpha <= 1.0
    requires k <= n && SlotsAfter(c, env, n).Success?
    ensures SlotsAfter(c, env, k).Success?
  {
    if SlotsAfter(c, env, k).Failure? {
      FailurePersists(c, env, k, n);
    }
  }

  /** The run completes: the checks pass and every optimizer call returns. */
  predicate Succeeds(c: ExperimentConfig, env: Environment) {
    Preflight(c, env).Pass? && SlotsAfter(c, env, c.rounds as nat).Success?
  }

  /** The error a failing run raises. */
  function RunFailure(c: ExperimentConfig, env: Environment): (e: RunError)
    requires !Succeeds(c, env)
    ensures Preflight(c, env).Fail? ==> e == Preflight(c, env).error
    ensures Preflight(c, env).Pass? ==> e.OptimizerFailed? && e.call < 2 * c.rounds + 2
  {
    if Preflight(c, env).Fail? then Preflight(c, env).error
    else SlotsAfter(c, env, c.rounds as nat).error
  }

  /** What the optimizer is given in one call. */
  datatype OptimizerCall = OptimizerCall(
    instance: nat,
    student: Agent,
    metric: Metric,
    trainset: seq<Example>,
    mode: string)

  /** The `i`-th optimizer call of a run, when the calls before it returned:
      the two baseline calls train untrained verifiers against truth accuracy
      on the dev set; in round `k + 1`, call 2k+2 re-optimises A against B
      and call 2k+3 re-optimises B against A, both as they stood after round
      `k`, on the train set. */
  function CallOf(c: ExperimentConfig, env: Environment, i: nat): (r: Option<OptimizerCall>)
    requires 0.0 <= c.alpha <= 1.0
    ensures i == 0 ==> r.Some?
    ensures r.Some? ==> r.value.instance == i && r.value.mode == c.autoMode
    ensures r.Some? && i < 2 ==>
              r.value.student == env.untrained(c.useCot) && r.value.metric.Truth? &&
              r.value.trainset == env.dev
    ensures r.Some? && i >= 2 ==> r.value.trainset == env.train
  {
    if i < 2 then
      if i == 1 && env.optimize(0, env.untrained(c.useCot), Truth, env.dev, c.autoMode).None? then None
      else Some(OptimizerCall(i, env.untrained(c.useCot), Truth, env.dev, c.autoMode))
    else
      var k := (i - 2) / 2;
      match SlotsAfter(c, env, k)
      case Failure(_) => None
      case Success(s) =>
        if i % 2 == 0 then
          Some(OptimizerCall(i, s.a, RoundMetric(c.alpha, s.b), env.train, c.autoMode))
        else if env.optimize(i - 1, s.a, RoundMetric(c.alpha, s.b), env.train, c.autoMode).None? then None
        else Some(OptimizerCall(i, s.b, RoundMetric(c.alpha, s.a), env.train, c.autoMode))
  }

  /** `calls` are the values of `expected` from ordinal `start` on. */
  ghost predicate Matches(calls: seq<OptimizerCall>, expected: nat -> Option<OptimizerCall>, start: nat)
    decreases |calls|
  {
    calls == [] || (Some(calls[0]) == expected(start) && Matches(calls[1..], expected, start + 1))
  }

  /** Position `j` of a matching trace is value `start + j`. */
  lemma {:induction false} MatchesIndex(calls: seq<OptimizerCall>, expected: nat -> Option<OptimizerCall>,
                                        start: nat, j: nat)
    requires Matches(calls, expected, start) && j < |calls|
    ensures Some(calls[j]) == expected(start + j)
    decreases j
  {
    if j > 0 {
      MatchesIndex(calls[1..], expected, start + 1, j - 1);
    }
  }

  /** A matching trace from `start` followed by one from right after it. */
  lemma {:induction false} MatchesAppend(xs: seq<OptimizerCall>, ys: seq<OptimizerCall>,
                                         expected: nat -> Option<OptimizerCall>, start: nat, mid: nat)
    requires mid == start + |xs|
    requires Matches(xs, expected, start) && Matches(ys, expected, mid)
    ensures Matches(xs + ys, expected, start)
    decreases |xs|
  {
    if xs != [] {
      MatchesAppend(xs[1..], ys, expected, start + 1, mid);
      assert (xs + ys)[1..] == xs[1..] + ys;
    } else {
      assert xs + ys == ys;
    }
  }

  /** The calls of a run, by ordinal. */
  function Expected(c: ExperimentConfig, env: Environment): nat -> Option<OptimizerCall> {
    (i: nat) => if 0.0 <= c.alpha <= 1.0 then CallOf(c, env, i) else None
  }

  /** `calls` are the calls of a run from ordinal `start` on. */
  ghost predicate Follows(c: ExperimentConfig, env: Environment, calls: seq<OptimizerCall>, start: nat) {
    Matches(calls, Expected(c, env), start)
  }

  /** Position `j` of a following trace is call `start + j`. */
  lemma FollowsIndex(c: ExperimentConfig, env: Environment,
                     calls: seq<OptimizerCall>, start: nat, j: nat)
    requires 0.0 <= c.alpha <= 1.0
    requires Follows(c, env, calls, start) && j < |calls|
    ensures Some(calls[j]) == CallOf(c, env, start + j)
  {
    MatchesIndex(calls, Expected(c, env), start, j);
  }

  /** Calls from `start` followed by the calls right after them. */
  lemma FollowsAppend(c: ExperimentConfig, env: Environment, xs: seq<OptimizerCall>,
                      ys: seq<OptimizerCall>, start: nat, mid: nat)
    requires mid == start + |xs|
    requires Follows(c, env, xs, start) && Follows(c, env, ys, mid)
    ensures Follows(c, env, xs + ys, start)
  {
    MatchesAppend(xs, ys, Expected(c, env), start, mid);
  }

  /** Round `round` from the slots `s` it starts with, in the ordinals of its
      two calls: the state after it and the two calls it makes. */
  lemma RoundCalls(c: ExperimentConfig, env: Environment, round: nat, s: Slots)
    requires 0.0 <= c.alpha <= 1.0
    requires round >= 1 && SlotsAfter(c, env, round - 1) == Success(s)
    ensures var metricA, metricB := RoundMetric(c.alpha, s.b), RoundMetric(c.alpha, s.a);
            var a := env.optimize(2 * round, s.a, metricA, env.train, c.autoMode);
            var b := env.optimize(2 * round + 1, s.b, metricB, env.train, c.autoMode);
            && CallOf(c, env, 2 * round) == Some(OptimizerCall(2 * round, s.a, metricA, env.train, c.autoMode))
            && CallOf(c, env, 2 * round + 1) ==
                 (if a.None? then None else Some(OptimizerCall(2 * round + 1, s.b, metricB, env.train, c.autoMode)))
            && SlotsAfter(c, env, round) ==
                 (if a.None? then Failure(OptimizerFailed(2 * round))
                  else if b.None? then Failure(OptimizerFailed(2 * round + 1))
                  else Success(Slots(a.value, b.value)))
  {
    var k := round - 1;
    assert 2 * k + 2 == 2 * round && 2 * k + 3 == 2 * round + 1;
    assert (2 * round - 2) / 2 == k && (2 * round + 1 - 2) / 2 == k;
  }

  /** Within a round each verifier is trained against the other's version from
      before the round: the partner in A's metric is the student of B's call,
      and the partner in B's metric is the student of A's call. */
  lemma PartnersAreSnapshots(c: ExperimentConfig, env: Environment, k: nat)
    requires 0.0 <= c.alpha <= 1.0
    requires CallOf(c, env, 2 * k + 3).Some?
    ensures CallOf(c, env, 2 * k + 2).Some?
    ensures CallOf(c, env, 2 * k + 2).value.metric.partner == CallOf(c, env, 2 * k + 3).value.student
    ensures CallOf(c, env, 2 * k + 3).value.metric.partner == CallOf(c, env, 2 * k + 2).value.student
  {
    assert (2 * k + 3 - 2) / 2 == k && (2 * k + 2 - 2) / 2 == k;
  }

  /** The train-set sample for the agreement measure: its first min(60, n)
      examples. */
  function TrainSample(train: seq<Example>): (r: seq<Example>)
    ensures |r| == if |train| < 60 then |train| else 60
    ensures r == train[..|r|]
  {
    train[..if 60 < |train| then 60 else |train|]
  }

  /** The record of round `round`: both accuracies on the dev set, and the
      agreement on the dev set and on the train sample. */
  function RecordAt(c: ExperimentConfig, env: Environment, round: nat): (r: Option<RoundRecord>)
    requires Preflight(c, env).Pass?
    ensures r.Some? <==> SlotsAfter(c, env, round).Success?
    ensures r.Some? ==> r.value.round == round
    ensures r.Some? ==> 0.0 <= r.value.agreementDev <= 1.0 && 0.0 <= r.value.agreementTrain <= 1.0
  {
    match SlotsAfter(c, env, round)
    case Failure(_) => None
    case Success(s) =>
      Some(RoundRecord(round,
                       Evaluate(env.evaluator, s.a, env.dev, None),
                       Evaluate(env.evaluator, s.b, env.dev, None),
                       AgreementRateOf(s.a, s.b, env.dev),
                       AgreementRateOf(s.a, s.b, TrainSample(env.train))))
  }

  /** `rounds` are the records of rounds 1..|rounds| of a run. */
  ghost predicate Logged(c: ExperimentConfig, env: Environment, rounds: seq<RoundRecord>)
    requires Preflight(c, env).Pass?
  {
    rounds == [] ||
    (Logged(c, env, rounds[..|rounds| - 1]) && Some(rounds[|rounds| - 1]) == RecordAt(c, env, |rounds|))
  }

  lemma LoggedAppend(c: ExperimentConfig, env: Environment, rounds: seq<RoundRecord>, r: RoundRecord)
    requires Preflight(c, env).Pass?
    requires Logged(c, env, rounds) && Some(r) == RecordAt(c, env, |rounds| + 1)
    ensures Logged(c, env, rounds + [r])
  {
    assert (rounds + [r])[..|rounds|] == rounds;
  }

  /** Position `i` of a logged run is the record of round `i + 1`; in
      particular the rounds are numbered 1, 2, 3, ... in order. */
  lemma {:induction false} LoggedIndex(c: ExperimentConfig, env: Environment, rounds: seq<RoundRecord>, i: nat)
    requires Preflight(c, env).Pass? && Logged(c, env, rounds) && i < |rounds|
    ensures Some(rounds[i]) == RecordAt(c, env, i + 1)
    ensures rounds[i].round == i + 1
    decreases |rounds|
  {
    if i < |rounds| - 1 {
      LoggedIndex(c, env, rounds[..|rounds| - 1], i);
    }
  }

  /** A logged run numbers its rounds 1, 2, 3, ... in order. */
  lemma LoggedNumbers(c: ExperimentConfig, env: Environment, rounds: seq<RoundRecord>)
    requires Preflight(c, env).Pass? && Logged(c, env, rounds)
    ensures forall i :: 0 <= i < |rounds| ==> rounds[i].round == i + 1
  {
    forall i | 0 <= i < |rounds|
      ensures rounds[i].round == i + 1
    {
      LoggedIndex(c, env, rounds, i);
    }
  }

  // ---------------------------------------------------------------------
  // The round state machine, as the method

  /** `folie_a_deux`: applies the overrides, runs the checks, trains the
      baseline, then runs the rounds, logging one record per round. On
      success the log has exactly `rounds` records numbered 1..rounds, the
      optimizer was called 2 + 2 * rounds times, and every call and record
      is the one the functions above prescribe; on failure the error is the
      first one raised. */
  method FolieADeux(config: ExperimentConfig, overrides: Overrides, env: Environment)
    returns (outcome: Result<ExperimentResults, RunError>, effective: ExperimentConfig,
             calls: seq<OptimizerCall>)
    ensures effective == ApplyOverrides(config, overrides)
    ensures outcome.Success? <==> Succeeds(effective, env)
    ensures outcome.Failure? ==> outcome.error == RunFailure(effective, env)
    ensures Preflight(effective, env).Fail? ==> calls == []
    ensures Preflight(effective, env).Pass? ==> Follows(effective, env, calls, 0)
    ensures outcome.Failure? && outcome.error.OptimizerFailed? ==> |calls| == outcome.error.call + 1
    ensures outcome.Success? ==>
              && fresh(outcome.value)
              && |calls| == 2 + 2 * effective.rounds
              && |outcome.value.rounds| == effective.rounds
              && (forall i :: 0 <= i < effective.rounds ==> outcome.value.rounds[i].round == i + 1)
              && Logged(effective, env, outcome.value.rounds)
              && outcome.value.verifierA == Some(SlotsAfter(effective, env, effective.rounds as nat).value.a)
              && outcome.value.verifierB == Some(SlotsAfter(effective, env, effective.rounds as nat).value.b)
  {
    effective := ApplyOverrides(config, overrides);
    calls := [];
    var checked := CheckInputs(effective, env);
    if checked.Fail? {
      return Failure(checked.error), effective, calls;
    }
    outcome, calls := RunChecked(effective, env);
    if outcome.Success? {
      LoggedNumbers(effective, env, outcome.value.rounds);
    }
  }

  /** `folie_a_deux` once the checks passed: the baseline, then the rounds. */
  method RunChecked(c: ExperimentConfig, env: Environment)
    returns (outcome: Result<ExperimentResults, RunError>, calls: seq<OptimizerCall>)
    requires Preflight(c, env).Pass?
    ensures outcome.Success? <==> SlotsAfter(c, env, c.rounds as nat).Success?
    ensures outcome.Failure? ==> outcome.error == SlotsAfter(c, env, c.rounds as nat).error
    ensures Follows(c, env, calls, 0)
    ensures outcome.Failure? ==> outcome.error.OptimizerFailed? && |calls| == outcome.error.call + 1
    ensures outcome.Success? ==>
              && fresh(outcome.value)
              && |calls| == 2 + 2 * c.rounds
              && |outcome.value.rounds| == c.rounds
              && Logged(c, env, outcome.value.rounds)
              && outcome.value.verifierA == Some(SlotsAfter(c, env, c.rounds as nat).value.a)
              && outcome.value.verifierB == Some(SlotsAfter(c, env, c.rounds as nat).value.b)
  {
    var slots;
    slots, calls := TrainBaseline(c, env);
    if slots.Failure? {
      FailurePersists(c, env, 0, c.rounds as nat);
      return Failure(slots.error), calls;
    }
    var roundCalls;
    outcome, roundCalls := RunFromBaseline(c, env, slots.value);
    FollowsAppend(c, env, calls, roundCalls, 0, 2);
    calls := calls + roundCalls;
  }

  /** `folie_a_deux` once the baseline is trained: the rounds, then the final
      verifiers stored in the results. */
  method RunFromBaseline(c: ExperimentConfig, env: Environment, start: Slots)
    returns (outcome: Result<ExperimentResults, RunError>, calls: seq<OptimizerCall>)
    requires Preflight(c, env).Pass? && SlotsAfter(c, env, 0) == Success(start)
    ensures outcome.Success? <==> SlotsAfter(c, env, c.rounds as nat).Success?
    ensures outcome.Failure? ==> outcome.error == SlotsAfter(c, env, c.rounds as nat).error
    ensures Follows(c, env, calls, 2)
    ensures outcome.Failure? ==> outcome.error.OptimizerFailed? && |calls| == outcome.error.call - 1
    ensures outcome.Success? ==>
              && fresh(outcome.value)
              && |calls| == 2 * c.rounds
              && |outcome.value.rounds| == c.rounds
              && Logged(c, env, outcome.value.rounds)
              && outcome.value.verifierA == Some(SlotsAfter(c, env, c.rounds as nat).value.a)
              && outcome.value.verifierB == Some(SlotsAfter(c, env, c.rounds as nat).value.b)
  {
    var results := new ExperimentResults();
    var final;
    final, calls := RunRounds(c, env, start, results);
    if final.Failure? {
      return Failure(final.error), calls;
    }
    results.verifierA := Some(final.value.a);
    results.verifierB := Some(final.value.b);
    outcome := Success(results);
  }

  /** The checks at the start of `folie_a_deux`, in order. */
  method CheckInputs(c: ExperimentConfig, env: Environment) returns (r: Outcome<RunError>)
    ensures r == Preflight(c, env)
  {
    var checked := Validate(c);
    if checked.Fail? {
      return Fail(InvalidConfig(checked.error));
    }
    var devChecked := ValidateDataset(env.dev, true);
    if devChecked.Failure? {
      return Fail(InvalidDataset(devChecked.error));
    }
    var trainChecked := ValidateDataset(env.train, false);
    if trainChecked.Failure? {
      return Fail(InvalidDataset(trainChecked.error));
    }
    return Pass;
  }

  /** The round loop of `folie_a_deux`: round by round, train both verifiers,
      measure them and log the record, until every round ran or an optimizer
      call raised. */
  method RunRounds(c: ExperimentConfig, env: Environment, start: Slots, results: ExperimentResults)
    returns (final: Result<Slots, RunError>, calls: seq<OptimizerCall>)
    requires Preflight(c, env).Pass? && SlotsAfter(c, env, 0) == Success(start)
    requires results.rounds == []
    modifies results
    ensures final == SlotsAfter(c, env, c.rounds as nat)
    ensures Follows(c, env, calls, 2)
    ensures final.Success? ==> |calls| == 2 * c.rounds
    ensures final.Failure? ==> |calls| == final.error.call - 1
    ensures final.Success? ==> |results.rounds| == c.rounds && Logged(c, env, results.rounds)
  {
    calls := [];
    final := Success(start);
    var round := 1;
    // An optimizer call that raises ends the loop, as the exception does.
    while round <= c.rounds && final.Success?
      invariant 1 <= round <= c.rounds + 1
      invariant final == SlotsAfter(c, env, round - 1)
      invariant Follows(c, env, calls, 2)
      invariant final.Success? ==> |calls| == 2 * (round - 1)
      invariant final.Failure? ==> |calls| == final.error.call - 1
      invariant final.Success? ==> |results.rounds| == round - 1 && Logged(c, env, results.rounds)
    {
      var next, allCalls := PlayRound(c, env, round, final.value, results, calls);
      calls := allCalls;
      final := next;
      round := round + 1;
    }
    if final.Failure? {
      FailurePersists(c, env, round - 1, c.rounds as nat);
    }
  }

  /** The baseline part of `folie_a_deux`: optimizer instances 0 and 1 train
      untrained verifiers against truth accuracy on the dev set; the calls
      made, up to the first that raised, are the first calls of the run. */
  method TrainBaseline(c: ExperimentConfig, env: Environment)
    returns (slots: Result<Slots, RunError>, calls: seq<OptimizerCall>)
    requires 0.0 <= c.alpha <= 1.0
    ensures slots == SlotsAfter(c, env, 0)
    ensures slots.Success? ==> |calls| == 2
    ensures slots.Failure? ==> |calls| == slots.error.call + 1
    ensures Follows(c, env, calls, 0)
  {
    var mode := c.autoMode;
    var verifierA := env.untrained(c.useCot);
    var verifierB := env.untrained(c.useCot);
    calls := [OptimizerCall(0, verifierA, Truth, env.dev, mode)];
    var compiled := env.optimize(0, verifierA, Truth, env.dev, mode);
    if compiled.None? {
      return Failure(OptimizerFailed(0)), calls;
    }
    verifierA := compiled.value;
    calls := calls + [OptimizerCall(1, verifierB, Truth, env.dev, mode)];
    compiled := env.optimize(1, verifierB, Truth, env.dev, mode);
    if compiled.None? {
      return Failure(OptimizerFailed(1)), calls;
    }
    verifierB := compiled.value;
    slots := Success(Slots(verifierA, verifierB));
  }

  /** One pass of the round loop: train both verifiers and, when both
      calls returned, measure them and log the record of the round. */
  method PlayRound(c: ExperimentConfig, env: Environment, round: nat, before: Slots,
                   results: ExperimentResults, prior: seq<OptimizerCall>)
    returns (next: Result<Slots, RunError>, calls: seq<OptimizerCall>)
    requires Preflight(c, env).Pass?
    requires Follows(c, env, prior, 2) && |prior| == 2 * (round - 1)
    requires round >= 1 && SlotsAfter(c, env, round - 1) == Success(before)
    requires |results.rounds| == round - 1 && Logged(c, env, results.rounds)
    modifies results
    ensures next == SlotsAfter(c, env, round)
    ensures Follows(c, env, calls, 2)
    ensures next.Success? ==> |calls| == 2 * round
    ensures next.Failure? ==> |calls| == next.error.call - 1
    ensures next.Success? ==> |results.rounds| == round && Logged(c, env, results.rounds)
  {
    next, calls := TrainRoundAfter(c, env, round, before, prior);
    if next.Success? {
      LogRound(c, env, round, next.value, results);
    }
  }

  /** The logging part of round `round` of `folie_a_deux`: the round is
      measured and its record appended to the log. */
  method LogRound(c: ExperimentConfig, env: Environment, round: nat, slots: Slots, results: ExperimentResults)
    requires Preflight(c, env).Pass? && SlotsAfter(c, env, round) == Success(slots)
    requires |results.rounds| == round - 1 && Logged(c, env, results.rounds)
    modifies results
    ensures |results.rounds| == round && Logged(c, env, results.rounds)
  {
    var record := MeasureRound(c, env, round, slots);
    LoggedAppend(c, env, results.rounds, record);
    results.AddRound(record.round, record.accuracyA, record.accuracyB,
                     record.agreementDev, record.agreementTrain);
  }

  /** Round `round`'s training, its calls appended to those of the rounds before. */
  method TrainRoundAfter(c: ExperimentConfig, env: Environment, round: nat, before: Slots,
                         prior: seq<OptimizerCall>)
    returns (next: Result<Slots, RunError>, calls: seq<OptimizerCall>)
    requires 0.0 <= c.alpha <= 1.0
    requires round >= 1 && SlotsAfter(c, env, round - 1) == Success(before)
    requires Follows(c, env, prior, 2) && |prior| == 2 * (round - 1)
    ensures next == SlotsAfter(c, env, round)
    ensures Follows(c, env, calls, 2)
    ensures next.Success? ==> |calls| == 2 * round
    ensures next.Failure? ==> |calls| == next.error.call - 1
  {
    var roundCalls;
    next, roundCalls := TrainRound(c, env, round, before);
    FollowsAppend(c, env, prior, roundCalls, 2, 2 * round);
    calls := prior + roundCalls;
  }

  /** The training part of round `round` of `folie_a_deux`: both metrics are
      built before either verifier is replaced; the calls made, up to the
      first that raised, are calls 2 * round and 2 * round + 1 of the run. */
  method TrainRound(c: ExperimentConfig, env: Environment, round: nat, before: Slots)
    returns (next: Result<Slots, RunError>, calls: seq<OptimizerCall>)
    requires 0.0 <= c.alpha <= 1.0
    requires round >= 1 && SlotsAfter(c, env, round - 1) == Success(before)
    ensures next == SlotsAfter(c, env, round)
    ensures next.Success? ==> |calls| == 2
    ensures next.Failure? ==> |calls| == next.error.call + 1 - 2 * round
    ensures Follows(c, env, calls, 2 * round)
  {
    var mode := c.autoMode;
    var verifierA, verifierB := before.a, before.b;
    var metricA, metricB;
    if c.alpha > 0.0 {
      metricA := BlendedMetricFactory(verifierB, c.alpha).value;
      metricB := BlendedMetricFactory(verifierA, c.alpha).value;
    } else {
      metricA := Agreement(verifierB);
      metricB := Agreement(verifierA);
    }
    RoundCalls(c, env, round, before);
    calls := [OptimizerCall(2 * round, verifierA, metricA, env.train, mode)];
    var compiled := env.optimize(2 * round, verifierA, metricA, env.train, mode);
    if compiled.None? {
      return Failure(OptimizerFailed(2 * round)), calls;
    }
    verifierA := compiled.value;
    calls := calls + [OptimizerCall(2 * round + 1, verifierB, metricB, env.train, mode)];
    compiled := env.optimize(2 * round + 1, verifierB, metricB, env.train, mode);
    if compiled.None? {
      return Failure(OptimizerFailed(2 * round + 1)), calls;
    }
    verifierB := compiled.value;
    next := Success(Slots(verifierA, verifierB));
  }

  /** The measuring part of round `round` of `folie_a_deux`: both accuracies
      on the dev set (0.0 when the evaluator raises), and the agreement on the
      dev set and on the first min(60, n) train examples. */
  method MeasureRound(c: ExperimentConfig, env: Environment, round: nat, slots: Slots)
    returns (record: RoundRecord)
    requires Preflight(c, env).Pass? && SlotsAfter(c, env, round) == Success(slots)
    ensures Some(record) == RecordAt(c, env, round)
  {
    var accA := Evaluate(env.evaluator, slots.a, env.dev, None);
    var accB := Evaluate(env.evaluator, slots.b, env.dev, None);
    var agreeDev := AgreementRate(slots.a, slots.b, env.dev);
    var sampleSize := if 60 < |env.train| then 60 else |env.train|;
    var agreeTrain := AgreementRate(slots.a, slots.b, env.train[..sampleSize]);
    record := RoundRecord(round, accA, accB, agreeDev, agreeTrain);
  }

  // ---------------------------------------------------------------------
  // The ablation sweep

  /** `run` is what the sweep keeps for the run of `c` in `env`: `None` when
      the run raises, otherwise that run's own results, with its R prescribed
      records numbered 1..R and its final verifiers. */
  ghost predicate RunOf(c: ExperimentConfig, env: Environment, run: Option<ExperimentResults>)
    reads if run.Some? then {run.value} else {}
  {
    && (run.Some? <==> Succeeds(c, env))
    && (run.Some? ==>
          && |run.value.rounds| == c.rounds
          && (forall i :: 0 <= i < c.rounds ==> run.value.rounds[i].round == i + 1)
          && Logged(c, env, run.value.rounds)
          && run.value.verifierA == Some(SlotsAfter(c, env, c.rounds as nat).value.a)
          && run.value.verifierB == Some(SlotsAfter(c, env, c.rounds as nat).value.b))
  }

  /** One run of the sweep, with no overrides and its failure caught: `None`
      when the run raises, otherwise the run's own results. */
  method RunIsolated(config: ExperimentConfig, env: Environment) returns (run: Option<ExperimentResults>)
    ensures RunOf(config, env, run)
  {
    var outcome, _, _ := FolieADeux(config, NoOverrides, env);
    if outcome.Success? {
      run := Some(outcome.value);
    } else {
      run := None;
    }
  }

  /** The anchoring weights of the sweep, each with its result key. */
  const AblationSweep: seq<(real, string)> :=
    [(0.0, "alpha_0.0"), (0.05, "alpha_0.05"), (0.1, "alpha_0.1"), (0.2, "alpha_0.2"), (0.5, "alpha_0.5")]

  /** The loop of `run_ablation_study` over a list of weights with distinct
      result keys: run `i` uses the base configuration with only the weight
      changed to `sweep[i].0`, sees environment `envs(i)`, and is stored under
      `sweep[i].1`. */
  method RunSweep(base: ExperimentConfig, envs: nat -> Environment, sweep: seq<(real, string)>)
    returns (results: map<string, Option<ExperimentResults>>)
    requires forall i, j :: 0 <= i < j < |sweep| ==> sweep[i].1 != sweep[j].1
    ensures results.Keys == set i | 0 <= i < |sweep| :: sweep[i].1
    ensures forall i :: 0 <= i < |sweep| ==> RunOf(base.(alpha := sweep[i].0), envs(i), results[sweep[i].1])
  {
    results := map[];
    for i := 0 to |sweep|
      invariant results.Keys == set j | 0 <= j < i :: sweep[j].1
      invariant forall j :: 0 <= j < i ==> RunOf(base.(alpha := sweep[j].0), envs(j), results[sweep[j].1])
    {
      var run := RunIsolated(base.(alpha := sweep[i].0), envs(i));
      results := results[sweep[i].1 := run];
    }
  }

  /** `run_ablation_study`: one run per weight on a copy of the base
      configuration with only the weight changed. Run `i` sees environment
      `envs(i)`: every run loads (and reshuffles) its own training set and
      draws its own optimizer randomness. A run that fails maps to `None` and
      leaves the other keys alone: each key holds only its own run's
      results. */
  method RunAblationStudy(base: ExperimentConfig, envs: nat -> Environment)
    returns (results: map<string, Option<ExperimentResults>>)
    ensures results.Keys == {"alpha_0.0", "alpha_0.05", "alpha_0.1", "alpha_0.2", "alpha_0.5"}
    ensures forall i :: 0 <= i < |AblationSweep| ==>
              RunOf(base.(alpha := AblationSweep[i].0), envs(i), results[AblationSweep[i].1])
  {
    SweepKeysDistinct();
    results := RunSweep(base, envs, AblationSweep);
    SweepKeys();
  }

  /** No two weights of the sweep share a result key. */
  lemma SweepKeysDistinct()
    ensures forall i, j :: 0 <= i < j < |AblationSweep| ==> AblationSweep[i].1 != AblationSweep[j].1
  {
  }

  /** The result keys of the sweep. */
  lemma SweepKeys()
    ensures (set j | 0 <= j < |AblationSweep| :: AblationSweep[j].1) ==
            {"alpha_0.0", "alpha_0.05", "alpha_0.1", "alpha_0.2", "alpha_0.5"}
  {
    assert AblationSweep[0].1 == "alpha_0.0" && AblationSweep[1].1 == "alpha_0.05";
    assert AblationSweep[2].1 == "alpha_0.1" && AblationSweep[3].1 == "alpha_0.2";
    assert AblationSweep[4].1 == "alpha_0.5";
  }
}
