/** Claim examples, the repeated-and-shuffled unlabeled training set, and
    dataset validation. */
module Data {
  import opened Wrappers

  /** A claim example. Absent fields are `None`: an example built by
      `CreateExample` always has a claim, but a dataset handed to validation
      may hold records without one. A verdict, when present, is the raw
      string stored in the record. */
  datatype Example = Example(claim: Option<string>, verdict: Option<string>)

  /** Builds an example; the verdict field is set only when a verdict is given. */
  function CreateExample(claim: string, verdict: Option<string>): (e: Example)
    ensures e.claim == Some(claim)
    ensures e.verdict.Some? <==> verdict.Some?
    ensures verdict.Some? ==> e.verdict.value == verdict.value
  {
    Example(Some(claim), verdict)
  }

  /** The thirty claims of the labeled development set, each with whether
      its verdict is "yes" (else it is "no"). */
  const DevClaims: seq<(string, bool)> :=
    [
      ("Water boils at 100\U{C2}\U{B0}C at sea level.", true),
      ("The capital of Australia is Sydney.", false),
      ("Electrons are larger than atoms.", false),
      ("The Great Wall is visible from space with the naked eye.", false),
      ("Shakespeare wrote 'Hamlet'.", true),
      ("Bananas grow on trees.", false),
      ("The sun is a star.", true),
      ("There are 7 continents on Earth.", true),
      ("Lightning never strikes the same place twice.", false),
      ("Coffee is made from beans that are actually seeds.", true),
      ("Humans have more than 5 senses.", true),
      ("The speed of light in vacuum is ~3e8 m/s.", true),
      ("The Nile is the longest river in the world.", false),
      ("Gold has chemical symbol Au.", true),
      ("Bulls are enraged by the color red.", false),
      ("The capital of Canada is Toronto.", false),
      ("The Pacific is the largest ocean.", true),
      ("Tomatoes are fruits (botanically).", true),
      ("A koala is a bear.", false),
      ("Mount Everest is over 8000 meters.", true),
      ("The human body has 206 bones in adulthood.", true),
      ("Penguins live in the Arctic wild.", false),
      ("Sound travels faster than light.", false),
      ("Helium is lighter than air.", true),
      ("The capital of Brazil is Rio de Janeiro.", false),
      ("Pluto is classified as a dwarf planet.", true),
      ("Bamboo is a type of grass.", true),
      ("An octagon has 9 sides.", false),
      ("Canberra is Australia's capital.", true),
      ("The Mona Lisa was painted by da Vinci.", true)
    ]

  function VerdictWord(yes: bool): string {
    if yes then "yes" else "no"
  }

  /** The labeled development set: one labeled example per entry, in order. */
  function DevLabeled(): (r: seq<Example>)
    ensures |r| == |DevClaims| == 30
    ensures forall i :: 0 <= i < |r| ==> r[i] == CreateExample(DevClaims[i].0, Some(VerdictWord(DevClaims[i].1)))
  {
    seq(|DevClaims|, i requires 0 <= i < |DevClaims| => CreateExample(DevClaims[i].0, Some(VerdictWord(DevClaims[i].1))))
  }

  /** The fourteen claims the unlabeled training set is made of. */
  const BaseClaims: seq<string> := [
    "The capital of Australia is Sydney.",
    "Bananas grow on trees.",
    "The moon has a permanent dark side.",
    "Gold's symbol is Au.",
    "There are 5 continents.",
    "Tomatoes are vegetables (botanically).",
    "Coffee beans are seeds.",
    "Electrons are bigger than atoms.",
    "The Great Wall can be seen from space unaided.",
    "Helium is heavier than air.",
    "Lightning avoids tall buildings.",
    "Shakespeare wrote Hamlet.",
    "The Pacific is the biggest ocean.",
    "Bulls hate red."
  ]

  /** One unlabeled example per base claim, in order. */
  function BaseExamples(): (r: seq<Example>)
    ensures |r| == |BaseClaims|
    ensures forall i :: 0 <= i < |r| ==> r[i] == CreateExample(BaseClaims[i], None)
  {
    seq(|BaseClaims|, i requires 0 <= i < |BaseClaims| => CreateExample(BaseClaims[i], None))
  }

  /** Python's `s * n`: `s` concatenated `n` times, empty when `n <= 0`. */
  function Repeat<T>(s: seq<T>, n: int): (r: seq<T>)
    decreases if n > 0 then n else 0
  {
    if n <= 0 then [] else Repeat(s, n - 1) + s
  }

  /** The repetition has `|s| * n` elements and every element of it is an
      element of `s`. */
  lemma {:induction false} RepeatShape<T>(s: seq<T>, n: int)
    ensures |Repeat(s, n)| == |s| * (if n > 0 then n else 0)
    ensures forall x :: x in Repeat(s, n) ==> x in s
    decreases if n > 0 then n else 0
  {
    if n > 0 {
      RepeatShape(s, n - 1);
      assert |Repeat(s, n)| == |s| * (n - 1) + |s|;
    }
  }

  /** Each element occurs `n` times as often in the repetition as in `s`. */
  lemma {:induction false} RepeatMultiplicity<T>(s: seq<T>, n: int, x: T)
    ensures multiset(Repeat(s, n))[x] == (if n > 0 then n else 0) * multiset(s)[x]
    decreases if n > 0 then n else 0
  {
    if n > 0 {
      var m := multiset(s)[x];
      RepeatMultiplicity(s, n - 1, x);
      assert Repeat(s, n) == Repeat(s, n - 1) + s;
      assert multiset(Repeat(s, n))[x] == multiset(Repeat(s, n - 1))[x] + m;
      MulStep(n, m);
    }
  }

  /** `n * m` is `(n - 1) * m` and one more `m`. */
  lemma MulStep(n: int, m: int)
    requires n > 0
    ensures (if n - 1 > 0 then n - 1 else 0) * m + m == n * m
  {
    if n - 1 > 0 {
      assert (n - 1) * m + m == n * m;
    } else {
      assert n == 1;
    }
  }

  /** In a sequence without repetitions each element occurs once. */
  lemma DistinctOnce<T>(s: seq<T>, k: nat)
    requires k < |s|
    requires forall i, j :: 0 <= i < j < |s| ==> s[i] != s[j]
    ensures multiset(s)[s[k]] == 1
  {
    assert s == s[..k] + [s[k]] + s[k + 1..];
    assert s[k] !in s[..k];
    assert s[k] !in s[k + 1..];
  }

  /** The base claims are pairwise distinct. */
  lemma BaseClaimsDistinct()
    ensures forall i, j :: 0 <= i < j < |BaseClaims| ==> BaseClaims[i] != BaseClaims[j]
  {
  }

  /** `random.shuffle`: the Fisher-Yates pass of CPython, which for `i` from the
      last index down to 1 swaps position `i` with a position drawn from
      `0..i`. The draws are supplied by `draw`; the array ends up a
      permutation of what it held. */
  method Shuffle<T>(a: array<T>, draw: nat -> nat)
    modifies a
    ensures multiset(a[..]) == old(multiset(a[..]))
  {
    var i := a.Length - 1;
    while i >= 1
      invariant i <= a.Length - 1
      invariant multiset(a[..]) == old(multiset(a[..]))
    {
      var j := draw(i) % (i + 1);
      a[i], a[j] := a[j], a[i];
      i := i - 1;
    }
  }

  /** The unlabeled training set: the base examples repeated `repetitions`
      times, then shuffled in place when `shuffle` is set. */
  method GetTrainUnlabeled(repetitions: int, shuffle: bool, draw: nat -> nat)
    returns (train: seq<Example>)
    ensures |train| == |BaseClaims| * (if repetitions > 0 then repetitions else 0)
    ensures forall i :: 0 <= i < |train| ==> train[i].verdict.None? && train[i].claim.Some?
    ensures !shuffle ==> train == Repeat(BaseExamples(), repetitions)
    ensures multiset(train) == multiset(Repeat(BaseExamples(), repetitions))
  {
    var repeated := Repeat(BaseExamples(), repetitions);
    RepeatShape(BaseExamples(), repetitions);
    if shuffle {
      var a := new Example[|repeated|](i requires 0 <= i < |repeated| => repeated[i]);
      assert a[..] == repeated;
      Shuffle(a, draw);
      train := a[..];
      forall i | 0 <= i < |train|
        ensures train[i].verdict.None? && train[i].claim.Some?
      {
        assert train[i] in multiset(repeated);
        assert train[i] in BaseExamples();
      }
    } else {
      train := repeated;
      forall i | 0 <= i < |train|
        ensures train[i].verdict.None? && train[i].claim.Some?
      {
        assert train[i] in BaseExamples();
      }
    }
  }

  /** Without shuffling or with it, every base claim occurs exactly
      `repetitions` times in the training set (and nothing else occurs). */
  lemma TrainMultiplicity(train: seq<Example>, repetitions: int, c: string)
    requires multiset(train) == multiset(Repeat(BaseExamples(), repetitions))
    ensures c in BaseClaims ==>
              multiset(train)[CreateExample(c, None)] == (if repetitions > 0 then repetitions else 0)
    ensures c !in BaseClaims ==> CreateExample(c, None) !in multiset(train)
  {
    var base := BaseExamples();
    RepeatMultiplicity(base, repetitions, CreateExample(c, None));
    if c in BaseClaims {
      var k :| 0 <= k < |BaseClaims| && BaseClaims[k] == c;
      BaseExamplesDistinct();
      DistinctOnce(base, k);
    } else {
      assert CreateExample(c, None) !in base;
    }
  }

  /** The base examples are pairwise distinct. */
  lemma BaseExamplesDistinct()
    ensures forall i, j :: 0 <= i < j < |BaseExamples()| ==> BaseExamples()[i] != BaseExamples()[j]
  {
    BaseClaimsDistinct();
  }

  /** Why a dataset is rejected. The index is the position of the first bad
      example. */
  datatype DatasetError =
    | EmptyDataset
    | MissingClaim(index: nat)
    | MissingVerdict(index: nat)
    | InvalidVerdict(index: nat, verdict: string)

  /** One example passes every check. The verdict is compared as stored, so
      "YES" is not a valid verdict. */
  predicate ExampleOk(e: Example, requireLabels: bool) {
    && e.claim.Some?
    && (requireLabels ==> e.verdict.Some?)
    && (e.verdict.Some? ==> e.verdict.value == "yes" || e.verdict.value == "no")
  }

  /** The checks on example `i`, in source order: claim, then required
      verdict, then verdict value. */
  function ExampleError(e: Example, i: nat, requireLabels: bool): (r: Option<DatasetError>)
    ensures r.None? <==> ExampleOk(e, requireLabels)
    ensures r.Some? ==> !r.value.EmptyDataset? && r.value.index == i
    ensures e.claim.None? ==> r == Some(MissingClaim(i))
    ensures e.claim.Some? && requireLabels && e.verdict.None? ==> r == Some(MissingVerdict(i))
    ensures e.claim.Some? && e.verdict.Some? && !ExampleOk(e, requireLabels) ==>
              r == Some(InvalidVerdict(i, e.verdict.value))
  {
    if e.claim.None? then Some(MissingClaim(i))
    else if requireLabels && e.verdict.None? then Some(MissingVerdict(i))
    else if e.verdict.Some? && e.verdict.value != "yes" && e.verdict.value != "no" then
      Some(InvalidVerdict(i, e.verdict.value))
    else None
  }

  /** The scan from position `i` on: the error of the first bad example at or
      after `i`, or none when all of them pass. */
  function FirstError(d: seq<Example>, i: nat, requireLabels: bool): (r: Option<DatasetError>)
    requires i <= |d|
    ensures r.None? <==> forall j :: i <= j < |d| ==> ExampleOk(d[j], requireLabels)
    ensures r.Some? ==>
              && !r.value.EmptyDataset?
              && i <= r.value.index < |d|
              && r == ExampleError(d[r.value.index], r.value.index, requireLabels)
              && forall j :: i <= j < r.value.index ==> ExampleOk(d[j], requireLabels)
    decreases |d| - i
  {
    if i == |d| then None
    else match ExampleError(d[i], i, requireLabels)
      case Some(err) => Some(err)
      case None => FirstError(d, i + 1, requireLabels)
  }

  /** `validate_dataset`: an empty dataset is rejected first; otherwise the
      first failing example is reported with the kind of its first failing
      check; a dataset passes (with `true`) exactly when it is non-empty and
      every example passes. Labeled and unlabeled examples may be mixed when
      labels are not required. */
  function ValidateDataset(d: seq<Example>, requireLabels: bool): (r: Result<bool, DatasetError>)
    ensures r.Success? <==> |d| > 0 && forall i :: 0 <= i < |d| ==> ExampleOk(d[i], requireLabels)
    ensures r.Success? ==> r.value
    ensures |d| == 0 ==> r == Failure(EmptyDataset)
    ensures r.Failure? && |d| > 0 ==>
              && !r.error.EmptyDataset?
              && r.error.index < |d|
              && Some(r.error) == ExampleError(d[r.error.index], r.error.index, requireLabels)
              && forall j :: 0 <= j < r.error.index ==> ExampleOk(d[j], requireLabels)
  {
    if |d| == 0 then Failure(EmptyDataset)
    else match FirstError(d, 0, requireLabels)
      case Some(err) => Failure(err)
      case None => Success(true)
  }

  /** The development set passes validation with labels required. */
  lemma DevLabeledValid()
    ensures ValidateDataset(DevLabeled(), true) == Success(true)
  {
    var d := DevLabeled();
    assert forall i :: 0 <= i < |d| ==> ExampleOk(d[i], true);
  }

  /** Any non-empty dataset of created, unlabeled examples (the training set
      in particular) passes validation without labels. */
  lemma UnlabeledValid(d: seq<Example>)
    requires d != []
    requires forall i :: 0 <= i < |d| ==> d[i].claim.Some? && d[i].verdict.None?
    ensures ValidateDataset(d, false) == Success(true)
  {
  }

  /** An example created with a verdict forms a valid labeled dataset exactly
      when the verdict is "yes" or "no"; one created without forms a valid
      unlabeled dataset but not a labeled one. */
  lemma CreatedExamplesValidate(c: string, v: string)
    ensures ValidateDataset([CreateExample(c, Some(v))], true).Success? <==> v == "yes" || v == "no"
    ensures ValidateDataset([CreateExample(c, None)], false) == Success(true)
    ensures ValidateDataset([CreateExample(c, None)], true) == Failure(MissingVerdict(0))
  {
  }
}
