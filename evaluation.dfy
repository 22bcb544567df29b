/** Evaluation of verifiers on a dataset: the error fallback around the
    external evaluator, the agreement rate of two verifiers, a per-example
    evaluation of one verifier, and a side-by-side comparison of two. Each
    counting loop is specified by classifying every example on its own and
    counting the classes. */
module Evaluation {
  import opened Wrappers
  import opened Data
  import opened Metrics

  /** The external evaluator: averages a metric over a dataset, or raises (`None`). */
  type Evaluator = (Agent, seq<Example>, Metric) -> Option<real>

  /** `evaluate`: the metric defaults to truth accuracy, and an evaluator that
      raises yields 0.0 instead of propagating. */
  function Evaluate(evaluator: Evaluator, program: Agent, devset: seq<Example>,
                    metric: Option<Metric>): (score: real)
    ensures evaluator(program, devset, metric.GetOr(Truth)).None? ==> score == 0.0
    ensures evaluator(program, devset, metric.GetOr(Truth)).Some? ==>
              score == evaluator(program, devset, metric.GetOr(Truth)).value
  {
    evaluator(program, devset, metric.GetOr(Truth)).GetOr(0.0)
  }

  // ---------------------------------------------------------------------
  // Counting

  /** How often `x` occurs in `s`. */
  function Occurrences<T(==)>(s: seq<T>, x: T): nat {
    if s == [] then 0
    else Occurrences(s[..|s| - 1], x) + (if s[|s| - 1] == x then 1 else 0)
  }

  lemma OccurrencesSnoc<T>(s: seq<T>, y: T, x: T)
    ensures Occurrences(s + [y], x) == Occurrences(s, x) + (if y == x then 1 else 0)
  {
    assert (s + [y])[..|s|] == s;
  }

  /** A value occurs at most as often as there are elements. */
  lemma {:induction false} OccurrencesBound<T>(s: seq<T>, x: T)
    ensures Occurrences(s, x) <= |s|
  {
    if s != [] {
      OccurrencesBound(s[..|s| - 1], x);
    }
  }

  /** A value occurs at every position exactly when its count is the length. */
  lemma {:induction false} OccurrencesAll<T>(s: seq<T>, x: T)
    ensures Occurrences(s, x) == |s| <==> forall i :: 0 <= i < |s| ==> s[i] == x
  {
    if s != [] {
      var p := s[..|s| - 1];
      OccurrencesAll(p, x);
      OccurrencesBound(p, x);
      if forall i :: 0 <= i < |s| ==> s[i] == x {
        assert forall i :: 0 <= i < |p| ==> p[i] == x;
      }
      if Occurrences(s, x) == |s| {
        assert s[|s| - 1] == x;
        forall i | 0 <= i < |s|
          ensures s[i] == x
        {
          if i < |p| {
            assert s[i] == p[i];
          }
        }
      }
    }
  }

  /** If every `x` in `s` sits opposite a `y` in `t`, then `t` has at least as
      many `y` as `s` has `x`. */
  lemma {:induction false} OccurrencesImply<T, U>(s: seq<T>, t: seq<U>, x: T, y: U)
    requires |s| == |t|
    requires forall i :: 0 <= i < |s| && s[i] == x ==> t[i] == y
    ensures Occurrences(s, x) <= Occurrences(t, y)
  {
    if s != [] {
      OccurrencesImply(s[..|s| - 1], t[..|t| - 1], x, y);
    }
  }

  /** The same with two distinct values of `s` both sitting opposite `y`. */
  lemma {:induction false} OccurrencesImply2<T, U>(s: seq<T>, t: seq<U>, x1: T, x2: T, y: U)
    requires |s| == |t| && x1 != x2
    requires forall i :: 0 <= i < |s| && (s[i] == x1 || s[i] == x2) ==> t[i] == y
    ensures Occurrences(s, x1) + Occurrences(s, x2) <= Occurrences(t, y)
  {
    if s != [] {
      OccurrencesImply2(s[..|s| - 1], t[..|t| - 1], x1, x2, y);
    }
  }

  /** `count / total`, and 0.0 for an empty dataset. */
  function Rate(count: nat, total: nat): (r: real)
    ensures count <= total ==> 0.0 <= r <= 1.0
    ensures total == 0 ==> r == 0.0
  {
    if total == 0 then 0.0 else count as real / total as real
  }

  /** On a non-empty dataset the rate is 1.0 exactly when every example counts. */
  lemma RateOne(count: nat, total: nat)
    requires 0 < total
    ensures Rate(count, total) == 1.0 <==> count == total
  {
    if Rate(count, total) == 1.0 {
      assert count as real == Rate(count, total) * total as real;
    }
  }

  /** Every example carries a claim (all three loops read `example.claim`
      outside of, or again inside, their exception handlers). */
  predicate HasClaims(d: seq<Example>) {
    forall i :: 0 <= i < |d| ==> d[i].claim.Some?
  }

  /** Every example carries a verdict. */
  predicate AllLabeled(d: seq<Example>) {
    forall i :: 0 <= i < |d| ==> d[i].verdict.Some?
  }

  // ---------------------------------------------------------------------
  // Agreement of two programs on one example

  /** One example seen by two programs: one of them raised, or their
      normalised verdicts agree, or they differ. */
  datatype PairOutcome = Raised | Agreed | Disagreed

  function Pair(a: Agent, b: Agent, e: Example): (o: PairOutcome)
    requires e.claim.Some?
    ensures o == Raised <==> a(e.claim.value).None? || b(e.claim.value).None?
    ensures o == Agreed <==> a(e.claim.value).Some? && b(e.claim.value).Some? &&
                             NormalizeVerdict(a(e.claim.value)) == NormalizeVerdict(b(e.claim.value))
  {
    var pa := a(e.claim.value);
    if pa.None? then Raised
    else
      var pb := b(e.claim.value);
      if pb.None? then Raised
      else if NormalizeVerdict(pa) == NormalizeVerdict(pb) then Agreed
      else Disagreed
  }

  /** The outcome of every example, in order. */
  function Pairs(a: Agent, b: Agent, d: seq<Example>): (r: seq<PairOutcome>)
    requires HasClaims(d)
    ensures |r| == |d|
    ensures forall i :: 0 <= i < |d| ==> r[i] == Pair(a, b, d[i])
  {
    if d == [] then [] else Pairs(a, b, d[..|d| - 1]) + [Pair(a, b, d[|d| - 1])]
  }

  lemma PairsSnoc(a: Agent, b: Agent, d: seq<Example>, i: nat)
    requires HasClaims(d) && i < |d|
    ensures Pairs(a, b, d[..i + 1]) == Pairs(a, b, d[..i]) + [Pair(a, b, d[i])]
  {
    assert d[..i + 1][..i] == d[..i];
  }

  /** Every example is exactly one of raised, agreed or disagreed. */
  lemma {:induction false} PairPartition(s: seq<PairOutcome>)
    ensures Occurrences(s, Raised) + Occurrences(s, Agreed) + Occurrences(s, Disagreed) == |s|
  {
    if s != [] {
      var p, x := s[..|s| - 1], s[|s| - 1];
      PairPartition(p);
      assert Occurrences(s, Raised) == Occurrences(p, Raised) + (if x == Raised then 1 else 0);
      assert Occurrences(s, Agreed) == Occurrences(p, Agreed) + (if x == Agreed then 1 else 0);
      assert Occurrences(s, Disagreed) == Occurrences(p, Disagreed) + (if x == Disagreed then 1 else 0);
    }
  }

  /** The agreement rate as a value: agreements over the dataset size, 0.0 on
      an empty dataset, always within [0, 1]. */
  function AgreementRateOf(a: Agent, b: Agent, d: seq<Example>): (r: real)
    requires HasClaims(d)
    ensures d == [] ==> r == 0.0
    ensures 0.0 <= r <= 1.0
  {
    OccurrencesBound(Pairs(a, b, d), Agreed);
    Rate(Occurrences(Pairs(a, b, d), Agreed), |d|)
  }

  /** `agreement_rate`: counts the examples on which both programs answer and
      their normalised verdicts agree; a program that raises counts as a
      disagreement. */
  method AgreementRate(a: Agent, b: Agent, dataset: seq<Example>) returns (rate: real)
    requires HasClaims(dataset)
    ensures rate == AgreementRateOf(a, b, dataset)
    ensures dataset == [] ==> rate == 0.0
    ensures 0.0 <= rate <= 1.0
  {
    if |dataset| == 0 {
      return 0.0;
    }
    var agreements := 0;
    for i := 0 to |dataset|
      invariant agreements == Occurrences(Pairs(a, b, dataset[..i]), Agreed)
    {
      PairsSnoc(a, b, dataset, i);
      OccurrencesSnoc(Pairs(a, b, dataset[..i]), Pair(a, b, dataset[i]), Agreed);
      var claim := dataset[i].claim.value;
      var predA := a(claim);
      if predA.Some? {
        var predB := b(claim);
        if predB.Some? && NormalizeVerdict(predA) == NormalizeVerdict(predB) {
          agreements := agreements + 1;
        }
      }
    }
    assert dataset[..|dataset|] == dataset;
    rate := agreements as real / |dataset| as real;
  }

  /** The rate is 1.0 exactly when both programs answer and agree on every
      example of a non-empty dataset. */
  lemma AgreementRateOne(a: Agent, b: Agent, d: seq<Example>)
    requires HasClaims(d) && d != []
    ensures AgreementRateOf(a, b, d) == 1.0 <==> forall i :: 0 <= i < |d| ==> Pair(a, b, d[i]) == Agreed
  {
    var s := Pairs(a, b, d);
    OccurrencesAll(s, Agreed);
    RateOne(Occurrences(s, Agreed), |d|);
  }

  /** One agreement out of two examples gives 0.5. */
  lemma AgreementRateHalf(a: Agent, b: Agent, d: seq<Example>)
    requires HasClaims(d) && |d| == 2
    requires Pair(a, b, d[0]) == Agreed && Pair(a, b, d[1]) != Agreed
    ensures AgreementRateOf(a, b, d) == 0.5
  {
    var s := Pairs(a, b, d);
    assert s == [] + [s[0]] + [s[1]];
    OccurrencesSnoc([], s[0], Agreed);
    OccurrencesSnoc([s[0]], s[1], Agreed);
  }

  /** Programs answering "true"/"true" on the first claim and "false"/"true"
      on the second agree half of the time. */
  lemma AgreementRateHalfExample(a: Agent, b: Agent)
    requires a("claim1") == Some("true") && b("claim1") == Some("true")
    requires a("claim2") == Some("false") && b("claim2") == Some("true")
    ensures AgreementRateOf(a, b, [CreateExample("claim1", None), CreateExample("claim2", None)]) == 0.5
  {
    var d := [CreateExample("claim1", None), CreateExample("claim2", None)];
    assert Pair(a, b, d[0]) == Agreed;
    NormalizeTrue();
    NormalizeFalse();
    assert Pair(a, b, d[1]) == Disagreed;
    AgreementRateHalf(a, b, d);
  }

  /** "true" is already normal. */
  lemma NormalizeTrue()
    ensures NormalizeVerdict(Some("true")) == "true"
  {
    assert Text.Trimmed("true") && Text.NoUpper("true");
    NormalizeOfNormal("true");
  }

  /** "false" is already normal. */
  lemma NormalizeFalse()
    ensures NormalizeVerdict(Some("false")) == "false"
  {
    assert Text.Trimmed("false") && Text.NoUpper("false");
    NormalizeOfNormal("false");
  }

  // ---------------------------------------------------------------------
  // Detailed evaluation of one program

  /** One example graded against its label: the program raised, or the example
      is unlabeled, or the normalised verdicts match or not. */
  datatype Grade = Correct | Incorrect | Errored | Ungraded

  function GradeOf(program: Agent, e: Example): (g: Grade)
    requires e.claim.Some?
    ensures g == Errored <==> program(e.claim.value).None?
    ensures g == Ungraded <==> program(e.claim.value).Some? && e.verdict.None?
    ensures g == Correct <==> program(e.claim.value).Some? && e.verdict.Some? &&
                              NormalizeVerdict(e.verdict) == NormalizeVerdict(program(e.claim.value))
  {
    var pred := program(e.claim.value);
    if pred.None? then Errored
    else if e.verdict.None? then Ungraded
    else if NormalizeVerdict(e.verdict) == NormalizeVerdict(pred) then Correct
    else Incorrect
  }

  function Grades(program: Agent, d: seq<Example>): (r: seq<Grade>)
    requires HasClaims(d)
    ensures |r| == |d|
    ensures forall i :: 0 <= i < |d| ==> r[i] == GradeOf(program, d[i])
  {
    if d == [] then [] else Grades(program, d[..|d| - 1]) + [GradeOf(program, d[|d| - 1])]
  }

  lemma GradesSnoc(program: Agent, d: seq<Example>, i: nat)
    requires HasClaims(d) && i < |d|
    ensures Grades(program, d[..i + 1]) == Grades(program, d[..i]) + [GradeOf(program, d[i])]
  {
    assert d[..i + 1][..i] == d[..i];
  }

  lemma {:induction false} GradePartition(s: seq<Grade>)
    ensures Occurrences(s, Correct) + Occurrences(s, Incorrect) +
            Occurrences(s, Errored) + Occurrences(s, Ungraded) == |s|
  {
    if s != [] {
      var p, x := s[..|s| - 1], s[|s| - 1];
      GradePartition(p);
      assert Occurrences(s, Correct) == Occurrences(p, Correct) + (if x == Correct then 1 else 0);
      assert Occurrences(s, Incorrect) == Occurrences(p, Incorrect) + (if x == Incorrect then 1 else 0);
      assert Occurrences(s, Errored) == Occurrences(p, Errored) + (if x == Errored then 1 else 0);
      assert Occurrences(s, Ungraded) == Occurrences(p, Ungraded) + (if x == Ungraded then 1 else 0);
    }
  }

  /** The record kept for one example. */
  datatype ExampleResult = ExampleResult(
    index: nat,
    claim: string,
    groundTruth: Option<string>,
    prediction: Option<string>,   // None when the program raised
    correct: bool,
    errored: bool)

  /** What the record of example `i` says about it. */
  predicate Describes(r: ExampleResult, program: Agent, e: Example, i: nat)
    requires e.claim.Some?
  {
    && r.index == i
    && r.claim == e.claim.value
    && r.groundTruth == e.verdict
    && r.prediction == program(e.claim.value)
    && (r.correct <==> GradeOf(program, e) == Correct)
    && (r.errored <==> GradeOf(program, e) == Errored)
  }

  /** The record `detailed_evaluation` keeps for example `i`. */
  function ExampleRecord(program: Agent, e: Example, i: nat): (r: ExampleResult)
    requires e.claim.Some?
    ensures Describes(r, program, e, i)
  {
    var pred := program(e.claim.value);
    ExampleResult(i, e.claim.value, e.verdict, pred,
                  pred.Some? && e.verdict.Some? && NormalizeVerdict(e.verdict) == NormalizeVerdict(pred),
                  pred.None?)
  }

  /** The body of the `detailed_evaluation` loop for example `i`. */
  method EvaluateExample(program: Agent, e: Example, i: nat) returns (result: ExampleResult)
    requires e.claim.Some?
    ensures result == ExampleRecord(program, e, i)
    ensures GradeOf(program, e) ==
              if result.errored then Errored
              else if e.verdict.None? then Ungraded
              else if result.correct then Correct
              else Incorrect
  {
    result := ExampleResult(i, e.claim.value, e.verdict, None, false, false);
    var pred := program(e.claim.value);
    if pred.None? {
      result := result.(errored := true);
    } else {
      result := result.(prediction := pred);
      if e.verdict.Some? {
        result := result.(correct := NormalizeVerdict(e.verdict) == NormalizeVerdict(pred));
      }
    }
  }

  /** The counter updates of the `detailed_evaluation` loop: an error, or on
      a labeled example a correct or an incorrect answer, each adds one to
      its counter. */
  method CountGrade(result: ExampleResult, labeled: bool, grade: Grade, correct: nat, incorrect: nat, errors: nat)
    returns (correct': nat, incorrect': nat, errors': nat)
    requires grade == if result.errored then Errored
                      else if !labeled then Ungraded
                      else if result.correct then Correct
                      else Incorrect
    ensures correct' == correct + (if grade == Correct then 1 else 0)
    ensures incorrect' == incorrect + (if grade == Incorrect then 1 else 0)
    ensures errors' == errors + (if grade == Errored then 1 else 0)
  {
    correct', incorrect', errors' := correct, incorrect, errors;
    if result.errored {
      errors' := errors + 1;
    } else if labeled {
      if result.correct {
        correct' := correct + 1;
      } else {
        incorrect' := incorrect + 1;
      }
    }
  }

  /** `correct`, `incorrect` and `errors` are the grade counts of `d`. */
  predicate Tallied(program: Agent, d: seq<Example>, correct: nat, incorrect: nat, errors: nat) {
    && HasClaims(d)
    && correct == Occurrences(Grades(program, d), Correct)
    && incorrect == Occurrences(Grades(program, d), Incorrect)
    && errors == Occurrences(Grades(program, d), Errored)
  }

  /** One pass of the `detailed_evaluation` loop: the record of example `i`
      and the counts over the first `i + 1` examples. */
  method TallyExample(program: Agent, devset: seq<Example>, i: nat, correct: nat, incorrect: nat, errors: nat)
    returns (result: ExampleResult, correct': nat, incorrect': nat, errors': nat)
    requires HasClaims(devset) && i < |devset|
    requires Tallied(program, devset[..i], correct, incorrect, errors)
    ensures Tallied(program, devset[..i + 1], correct', incorrect', errors')
    ensures result == ExampleRecord(program, devset[i], i)
  {
    GradesSnoc(program, devset, i);
    var s, g := Grades(program, devset[..i]), GradeOf(program, devset[i]);
    OccurrencesSnoc(s, g, Correct);
    OccurrencesSnoc(s, g, Incorrect);
    OccurrencesSnoc(s, g, Errored);
    result := EvaluateExample(program, devset[i], i);
    correct', incorrect', errors' := CountGrade(result, devset[i].verdict.Some?, g, correct, incorrect, errors);
  }

  datatype DetailedReport = DetailedReport(
    totalExamples: nat,
    correct: nat,
    incorrect: nat,
    errors: nat,
    accuracy: real,
    examples: seq<ExampleResult>)

  /** `detailed_evaluation`: one record per example in index order, and the
      correct, incorrect and errored counts; unlabeled examples on which the
      program answers count toward none of them. */
  method DetailedEvaluation(program: Agent, devset: seq<Example>) returns (report: DetailedReport)
    requires HasClaims(devset)
    ensures report.totalExamples == |devset|
    ensures report.correct == Occurrences(Grades(program, devset), Correct)
    ensures report.incorrect == Occurrences(Grades(program, devset), Incorrect)
    ensures report.errors == Occurrences(Grades(program, devset), Errored)
    ensures report.accuracy == Rate(report.correct, report.totalExamples)
    ensures 0.0 <= report.accuracy <= 1.0
    ensures |report.examples| == |devset|
    ensures forall i :: 0 <= i < |devset| ==> report.examples[i] == ExampleRecord(program, devset[i], i)
  {
    var correct, incorrect, errors, examples := TallyAll(program, devset);
    OccurrencesBound(Grades(program, devset), Correct);
    var accuracy := 0.0;
    if |devset| > 0 {
      accuracy := correct as real / |devset| as real;
    }
    report := DetailedReport(|devset|, correct, incorrect, errors, accuracy, examples);
  }

  /** The loop of detailed_evaluation: one record per example and the
      three counters. */
  method TallyAll(program: Agent, devset: seq<Example>)
    returns (correct: nat, incorrect: nat, errors: nat, examples: seq<ExampleResult>)
    requires HasClaims(devset)
    ensures correct == Occurrences(Grades(program, devset), Correct)
    ensures incorrect == Occurrences(Grades(program, devset), Incorrect)
    ensures errors == Occurrences(Grades(program, devset), Errored)
    ensures |examples| == |devset|
    ensures forall i :: 0 <= i < |devset| ==> examples[i] == ExampleRecord(program, devset[i], i)
  {
    correct, incorrect, errors := 0, 0, 0;
    examples := [];
    for i := 0 to |devset|
      invariant Tallied(program, devset[..i], correct, incorrect, errors)
      invariant |examples| == i
      invariant forall j :: 0 <= j < i ==> examples[j] == ExampleRecord(program, devset[j], j)
    {
      var result;
      result, correct, incorrect, errors := TallyExample(program, devset, i, correct, incorrect, errors);
      examples := examples + [result];
    }
    assert devset[..|devset|] == devset;
  }

  /** correct + incorrect + errors never exceeds the total, and equals it
      when every example is labeled. */
  lemma DetailedCounts(program: Agent, d: seq<Example>)
    requires HasClaims(d)
    ensures var s := Grades(program, d);
            Occurrences(s, Correct) + Occurrences(s, Incorrect) + Occurrences(s, Errored) <= |d|
    ensures AllLabeled(d) ==>
              var s := Grades(program, d);
              Occurrences(s, Correct) + Occurrences(s, Incorrect) + Occurrences(s, Errored) == |d|
  {
    var s := Grades(program, d);
    GradePartition(s);
    if AllLabeled(d) {
      OccurrencesImply(s, s, Ungraded, Correct);
      if Occurrences(s, Ungraded) != 0 {
        OccurrencesPresent(s, Ungraded);
      }
    }
  }

  /** A value that occurs has a position. */
  lemma {:induction false} OccurrencesPresent<T>(s: seq<T>, x: T)
    requires Occurrences(s, x) != 0
    ensures exists i :: 0 <= i < |s| && s[i] == x
  {
    if s[|s| - 1] != x {
      OccurrencesPresent(s[..|s| - 1], x);
      var i :| 0 <= i < |s| - 1 && s[..|s| - 1][i] == x;
      assert s[i] == x;
    }
  }

  // ---------------------------------------------------------------------
  // Side-by-side comparison of two programs

  /** The correctness cell of a labeled example on which both programs
      answered; any other example is not scored. */
  datatype Cell = BothCorrect | BothIncorrect | AOnly | BOnly | Unscored

  /** The cell of a scored example from the correctness of each program. */
  function CellFrom(aOk: bool, bOk: bool): Cell {
    if aOk && bOk then BothCorrect
    else if !aOk && !bOk then BothIncorrect
    else if aOk then AOnly
    else BOnly
  }

  function CellOf(a: Agent, b: Agent, e: Example): (c: Cell)
    requires e.claim.Some?
    ensures c == Unscored <==> Pair(a, b, e) == Raised || e.verdict.None?
    ensures c != Unscored ==>
              var truth := NormalizeVerdict(e.verdict);
              var aOk := NormalizeVerdict(a(e.claim.value)) == truth;
              var bOk := NormalizeVerdict(b(e.claim.value)) == truth;
              && (c == BothCorrect <==> aOk && bOk)
              && (c == BothIncorrect <==> !aOk && !bOk)
              && (c == AOnly <==> aOk && !bOk)
              && (c == BOnly <==> !aOk && bOk)
  {
    if Pair(a, b, e) == Raised || e.verdict.None? then Unscored
    else
      var truth := NormalizeVerdict(e.verdict);
      var aOk := NormalizeVerdict(a(e.claim.value)) == truth;
      var bOk := NormalizeVerdict(b(e.claim.value)) == truth;
      CellFrom(aOk, bOk)
  }

  function Cells(a: Agent, b: Agent, d: seq<Example>): (r: seq<Cell>)
    requires HasClaims(d)
    ensures |r| == |d|
    ensures forall i :: 0 <= i < |d| ==> r[i] == CellOf(a, b, d[i])
  {
    if d == [] then [] else Cells(a, b, d[..|d| - 1]) + [CellOf(a, b, d[|d| - 1])]
  }

  lemma CellsSnoc(a: Agent, b: Agent, d: seq<Example>, i: nat)
    requires HasClaims(d) && i < |d|
    ensures Cells(a, b, d[..i + 1]) == Cells(a, b, d[..i]) + [CellOf(a, b, d[i])]
  {
    assert d[..i + 1][..i] == d[..i];
  }

  lemma {:induction false} CellPartition(s: seq<Cell>)
    ensures Occurrences(s, BothCorrect) + Occurrences(s, BothIncorrect) +
            Occurrences(s, AOnly) + Occurrences(s, BOnly) + Occurrences(s, Unscored) == |s|
  {
    if s != [] {
      var p, x := s[..|s| - 1], s[|s| - 1];
      CellPartition(p);
      assert Occurrences(s, BothCorrect) == Occurrences(p, BothCorrect) + (if x == BothCorrect then 1 else 0);
      assert Occurrences(s, BothIncorrect) == Occurrences(p, BothIncorrect) + (if x == BothIncorrect then 1 else 0);
      assert Occurrences(s, AOnly) == Occurrences(p, AOnly) + (if x == AOnly then 1 else 0);
      assert Occurrences(s, BOnly) == Occurrences(p, BOnly) + (if x == BOnly then 1 else 0);
      assert Occurrences(s, Unscored) == Occurrences(p, Unscored) + (if x == Unscored then 1 else 0);
    }
  }

  /** The record kept for one compared example. */
  datatype ComparisonResult = ComparisonResult(
    index: nat,
    claim: string,
    groundTruth: Option<string>,
    predictionA: Option<string>,
    predictionB: Option<string>,
    agree: bool,
    aCorrect: Option<bool>,
    bCorrect: Option<bool>)

  /** What the record of example `i` says about it. When either program
      raises, neither prediction is recorded. */
  predicate Compares(r: ComparisonResult, a: Agent, b: Agent, e: Example, i: nat)
    requires e.claim.Some?
  {
    var c := e.claim.value;
    && r.index == i
    && r.claim == c
    && r.groundTruth == e.verdict
    && (r.agree <==> Pair(a, b, e) == Agreed)
    && (Pair(a, b, e) == Raised ==>
          r.predictionA.None? && r.predictionB.None? && r.aCorrect.None? && r.bCorrect.None?)
    && (Pair(a, b, e) != Raised ==>
          && r.predictionA == a(c) && r.predictionB == b(c)
          && (r.aCorrect.Some? <==> e.verdict.Some?)
          && (r.bCorrect.Some? <==> e.verdict.Some?)
          && (r.aCorrect.Some? ==> (r.aCorrect.value <==> NormalizeVerdict(a(c)) == NormalizeVerdict(e.verdict)))
          && (r.bCorrect.Some? ==> (r.bCorrect.value <==> NormalizeVerdict(b(c)) == NormalizeVerdict(e.verdict))))
  }

  /** The record `compare_programs` keeps for example `i`. */
  function ComparisonRecord(a: Agent, b: Agent, e: Example, i: nat): (r: ComparisonResult)
    requires e.claim.Some?
    ensures Compares(r, a, b, e, i)
  {
    var c := e.claim.value;
    var blank := ComparisonResult(i, c, e.verdict, None, None, false, None, None);
    if a(c).None? || b(c).None? then blank
    else
      var verdictA, verdictB := NormalizeVerdict(a(c)), NormalizeVerdict(b(c));
      var answered := blank.(predictionA := a(c), predictionB := b(c), agree := verdictA == verdictB);
      if e.verdict.None? then answered
      else
        var truth := NormalizeVerdict(e.verdict);
        answered.(aCorrect := Some(verdictA == truth), bCorrect := Some(verdictB == truth))
  }

  /** The body of the `compare_programs` loop for example `i`: both programs
      are called before anything is recorded. */
  method CompareExample(a: Agent, b: Agent, e: Example, i: nat) returns (result: ComparisonResult)
    requires e.claim.Some?
    ensures result == ComparisonRecord(a, b, e, i)
    ensures result.predictionA.Some? <==> Pair(a, b, e) != Raised
    ensures result.predictionA.Some? ==> (result.agree <==> Pair(a, b, e) == Agreed)
    ensures result.aCorrect.Some? ==> result.predictionA.Some?
    ensures result.aCorrect.Some? <==> result.bCorrect.Some?
    ensures CellOf(a, b, e) ==
              if result.aCorrect.None? then Unscored
              else CellFrom(result.aCorrect.value, result.bCorrect.value)
  {
    result := ComparisonResult(i, e.claim.value, e.verdict, None, None, false, None, None);
    var predA := a(e.claim.value);
    if predA.Some? {
      var predB := b(e.claim.value);
      if predB.Some? {
        result := result.(predictionA := predA, predictionB := predB);
        var verdictA := NormalizeVerdict(predA);
        var verdictB := NormalizeVerdict(predB);
        result := result.(agree := verdictA == verdictB);
        if e.verdict.Some? {
          var truth := NormalizeVerdict(e.verdict);
          result := result.(aCorrect := Some(verdictA == truth), bCorrect := Some(verdictB == truth));
        }
      }
    }
  }

  /** The counter updates of the `compare_programs` loop: when both programs
      answered, agreement or disagreement, and on a labeled example the cell
      of the 2x2 correctness table, each adds one to its counter. */
  method CountComparison(result: ComparisonResult, outcome: PairOutcome, cell: Cell,
                         agreement: nat, disagreement: nat,
                         bothCorrect: nat, bothIncorrect: nat, aOnly: nat, bOnly: nat)
    returns (agreement': nat, disagreement': nat,
             bothCorrect': nat, bothIncorrect': nat, aOnly': nat, bOnly': nat)
    requires result.predictionA.Some? <==> outcome != Raised
    requires result.predictionA.Some? ==> (result.agree <==> outcome == Agreed)
    requires result.aCorrect.Some? ==> result.predictionA.Some?
    requires result.aCorrect.Some? <==> result.bCorrect.Some?
    requires cell == if result.aCorrect.None? then Unscored
                     else CellFrom(result.aCorrect.value, result.bCorrect.value)
    ensures agreement' == agreement + (if outcome == Agreed then 1 else 0)
    ensures disagreement' == disagreement + (if outcome == Disagreed then 1 else 0)
    ensures bothCorrect' == bothCorrect + (if cell == BothCorrect then 1 else 0)
    ensures bothIncorrect' == bothIncorrect + (if cell == BothIncorrect then 1 else 0)
    ensures aOnly' == aOnly + (if cell == AOnly then 1 else 0)
    ensures bOnly' == bOnly + (if cell == BOnly then 1 else 0)
  {
    agreement', disagreement' := agreement, disagreement;
    bothCorrect', bothIncorrect', aOnly', bOnly' := bothCorrect, bothIncorrect, aOnly, bOnly;
    if result.predictionA.Some? {
      if result.agree {
        agreement' := agreement + 1;
      } else {
        disagreement' := disagreement + 1;
      }
      if result.aCorrect.Some? {
        var aOk, bOk := result.aCorrect.value, result.bCorrect.value;
        if aOk && bOk {
          bothCorrect' := bothCorrect + 1;
        } else if !aOk && !bOk {
          bothIncorrect' := bothIncorrect + 1;
        } else if aOk {
          aOnly' := aOnly + 1;
        } else {
          bOnly' := bOnly + 1;
        }
      }
    }
  }

  /** The six counters of `compare_programs` are the counts over `d`. */
  predicate Compared(a: Agent, b: Agent, d: seq<Example>, agreement: nat, disagreement: nat,
                     bothCorrect: nat, bothIncorrect: nat, aOnly: nat, bOnly: nat) {
    && HasClaims(d)
    && agreement == Occurrences(Pairs(a, b, d), Agreed)
    && disagreement == Occurrences(Pairs(a, b, d), Disagreed)
    && bothCorrect == Occurrences(Cells(a, b, d), BothCorrect)
    && bothIncorrect == Occurrences(Cells(a, b, d), BothIncorrect)
    && aOnly == Occurrences(Cells(a, b, d), AOnly)
    && bOnly == Occurrences(Cells(a, b, d), BOnly)
  }

  /** One pass of the `compare_programs` loop: the record of example `i` and
      the counts over the first `i + 1` examples. */
  method TallyComparison(a: Agent, b: Agent, devset: seq<Example>, i: nat,
                         agreement: nat, disagreement: nat,
                         bothCorrect: nat, bothIncorrect: nat, aOnly: nat, bOnly: nat)
    returns (result: ComparisonResult, agreement': nat, disagreement': nat,
             bothCorrect': nat, bothIncorrect': nat, aOnly': nat, bOnly': nat)
    requires HasClaims(devset) && i < |devset|
    requires Compared(a, b, devset[..i], agreement, disagreement, bothCorrect, bothIncorrect, aOnly, bOnly)
    ensures Compared(a, b, devset[..i + 1], agreement', disagreement', bothCorrect', bothIncorrect', aOnly', bOnly')
    ensures result == ComparisonRecord(a, b, devset[i], i)
  {
    ComparisonStep(a, b, devset, i);
    result := CompareExample(a, b, devset[i], i);
    agreement', disagreement', bothCorrect', bothIncorrect', aOnly', bOnly' :=
      CountComparison(result, Pair(a, b, devset[i]), CellOf(a, b, devset[i]),
                      agreement, disagreement, bothCorrect, bothIncorrect, aOnly, bOnly);
  }

  datatype ComparisonReport = ComparisonReport(
    totalExamples: nat,
    agreement: nat,
    disagreement: nat,
    bothCorrect: nat,
    bothIncorrect: nat,
    aCorrectBIncorrect: nat,
    aIncorrectBCorrect: nat,
    agreementRate: real,
    examples: seq<ComparisonResult>)

  /** `compare_programs`: agreement counts over examples on which both
      programs answer, the 2x2 correctness table over labeled ones, and one
      record per example in index order. Its rate is the agreement rate. */
  method ComparePrograms(a: Agent, b: Agent, devset: seq<Example>) returns (report: ComparisonReport)
    requires HasClaims(devset)
    ensures report.totalExamples == |devset|
    ensures report.agreement == Occurrences(Pairs(a, b, devset), Agreed)
    ensures report.disagreement == Occurrences(Pairs(a, b, devset), Disagreed)
    ensures report.bothCorrect == Occurrences(Cells(a, b, devset), BothCorrect)
    ensures report.bothIncorrect == Occurrences(Cells(a, b, devset), BothIncorrect)
    ensures report.aCorrectBIncorrect == Occurrences(Cells(a, b, devset), AOnly)
    ensures report.aIncorrectBCorrect == Occurrences(Cells(a, b, devset), BOnly)
    ensures report.agreementRate == AgreementRateOf(a, b, devset)
    ensures |report.examples| == |devset|
    ensures forall i :: 0 <= i < |devset| ==> report.examples[i] == ComparisonRecord(a, b, devset[i], i)
  {
    var agreement, disagreement, bothCorrect, bothIncorrect, aOnly, bOnly, examples := TallyComparisons(a, b, devset);
    var rate := 0.0;
    if |devset| > 0 {
      rate := agreement as real / |devset| as real;
    }
    report := ComparisonReport(|devset|, agreement, disagreement, bothCorrect, bothIncorrect,
                               aOnly, bOnly, rate, examples);
  }

  /** The loop of `compare_programs`: one record per example and the six
      counters. */
  method TallyComparisons(a: Agent, b: Agent, devset: seq<Example>)
    returns (agreement: nat, disagreement: nat, bothCorrect: nat, bothIncorrect: nat,
             aOnly: nat, bOnly: nat, examples: seq<ComparisonResult>)
    requires HasClaims(devset)
    ensures Compared(a, b, devset, agreement, disagreement, bothCorrect, bothIncorrect, aOnly, bOnly)
    ensures |examples| == |devset|
    ensures forall i :: 0 <= i < |devset| ==> examples[i] == ComparisonRecord(a, b, devset[i], i)
  {
    agreement, disagreement := 0, 0;
    bothCorrect, bothIncorrect, aOnly, bOnly := 0, 0, 0, 0;
    examples := [];
    for i := 0 to |devset|
      invariant Compared(a, b, devset[..i], agreement, disagreement, bothCorrect, bothIncorrect, aOnly, bOnly)
      invariant |examples| == i
      invariant forall j :: 0 <= j < i ==> examples[j] == ComparisonRecord(a, b, devset[j], j)
    {
      var result;
      result, agreement, disagreement, bothCorrect, bothIncorrect, aOnly, bOnly :=
        TallyComparison(a, b, devset, i, agreement, disagreement, bothCorrect, bothIncorrect, aOnly, bOnly);
      examples := examples + [result];
    }
    assert devset[..|devset|] == devset;
  }

  /** How each count of `compare_programs` grows by one more example. */
  lemma ComparisonStep(a: Agent, b: Agent, d: seq<Example>, i: nat)
    requires HasClaims(d) && i < |d|
    ensures var p, q, e := Pairs(a, b, d[..i + 1]), Pairs(a, b, d[..i]), Pair(a, b, d[i]);
            && Occurrences(p, Agreed) == Occurrences(q, Agreed) + (if e == Agreed then 1 else 0)
            && Occurrences(p, Disagreed) == Occurrences(q, Disagreed) + (if e == Disagreed then 1 else 0)
    ensures var c, r, x := Cells(a, b, d[..i + 1]), Cells(a, b, d[..i]), CellOf(a, b, d[i]);
            && Occurrences(c, BothCorrect) == Occurrences(r, BothCorrect) + (if x == BothCorrect then 1 else 0)
            && Occurrences(c, BothIncorrect) == Occurrences(r, BothIncorrect) + (if x == BothIncorrect then 1 else 0)
            && Occurrences(c, AOnly) == Occurrences(r, AOnly) + (if x == AOnly then 1 else 0)
            && Occurrences(c, BOnly) == Occurrences(r, BOnly) + (if x == BOnly then 1 else 0)
  {
    PairsSnoc(a, b, d, i);
    CellsSnoc(a, b, d, i);
    var q, e := Pairs(a, b, d[..i]), Pair(a, b, d[i]);
    OccurrencesSnoc(q, e, Agreed);
    OccurrencesSnoc(q, e, Disagreed);
    var r, x := Cells(a, b, d[..i]), CellOf(a, b, d[i]);
    OccurrencesSnoc(r, x, BothCorrect);
    OccurrencesSnoc(r, x, BothIncorrect);
    OccurrencesSnoc(r, x, AOnly);
    OccurrencesSnoc(r, x, BOnly);
  }

  /** Agreements, disagreements and examples on which a program raised
      partition the dataset. */
  lemma ComparisonPartition(a: Agent, b: Agent, d: seq<Example>)
    requires HasClaims(d)
    ensures var s := Pairs(a, b, d);
            Occurrences(s, Agreed) + Occurrences(s, Disagreed) + Occurrences(s, Raised) == |d|
  {
    PairPartition(Pairs(a, b, d));
  }

  /** The 2x2 table is consistent with the agreement counts: both correct
      implies agreement, exactly one correct implies disagreement, and the
      table covers exactly the answered examples when every example is
      labeled. */
  lemma CellsAgreeWithPairs(a: Agent, b: Agent, d: seq<Example>)
    requires HasClaims(d)
    ensures Occurrences(Cells(a, b, d), BothCorrect) <= Occurrences(Pairs(a, b, d), Agreed)
    ensures Occurrences(Cells(a, b, d), AOnly) + Occurrences(Cells(a, b, d), BOnly) <=
            Occurrences(Pairs(a, b, d), Disagreed)
    ensures var c := Cells(a, b, d);
            Occurrences(c, BothCorrect) + Occurrences(c, BothIncorrect) +
            Occurrences(c, AOnly) + Occurrences(c, BOnly) <=
            Occurrences(Pairs(a, b, d), Agreed) + Occurrences(Pairs(a, b, d), Disagreed)
    ensures AllLabeled(d) ==>
              var c := Cells(a, b, d);
              Occurrences(c, BothCorrect) + Occurrences(c, BothIncorrect) +
              Occurrences(c, AOnly) + Occurrences(c, BOnly) ==
              Occurrences(Pairs(a, b, d), Agreed) + Occurrences(Pairs(a, b, d), Disagreed)
  {
    var c, p := Cells(a, b, d), Pairs(a, b, d);
    OccurrencesImply(c, p, BothCorrect, Agreed);
    OccurrencesImply2(c, p, AOnly, BOnly, Disagreed);
    // Unscored examples include every raised one, so at least as many.
    OccurrencesImply(p, c, Raised, Unscored);
    CellPartition(c);
    PairPartition(p);
    if AllLabeled(d) {
      OccurrencesImply(c, p, Unscored, Raised);
    }
  }
}
