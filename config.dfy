/** Experiment configuration: the value object, its defaults, the range checks
    run once before an experiment, and the boolean rule for environment flags. */
module Config {
  import opened Wrappers
  import opened Text

  datatype ExperimentConfig = ExperimentConfig(
    model: string,
    apiBase: string,
    apiKey: string,
    temperature: real,
    maxTokens: int,
    alpha: real,        // truth-anchoring weight
    rounds: int,        // number of co-training rounds
    useCot: bool,       // chain-of-thought predictor
    autoMode: string,   // optimizer aggressiveness
    enableDiskCache: bool,
    enableMemoryCache: bool)

  /** The dataclass defaults. */
  const DefaultConfig: ExperimentConfig :=
    ExperimentConfig("ollama_chat/llama3.1:8b", "http://localhost:11434", "",
                     0.5, 512, 0.0, 6, false, "light", false, false)

  /** The four ways a configuration can be rejected, each carrying the bad value. */
  datatype ConfigError =
    | AlphaOutOfRange(alpha: real)
    | TooFewRounds(rounds: int)
    | NegativeTemperature(temperature: real)
    | TooFewMaxTokens(maxTokens: int)

  /** Every field that is checked lies in its range. */
  predicate InRange(c: ExperimentConfig) {
    && 0.0 <= c.alpha <= 1.0
    && c.rounds >= 1
    && c.temperature >= 0.0
    && c.maxTokens >= 1
  }

  /** The guards of `validate`, in source order: the first violated range is
      the one reported, and a configuration passes exactly when every field is
      in range. Being a function of a value, it cannot change (or clamp) any
      field. */
  function Validate(c: ExperimentConfig): (r: Outcome<ConfigError>)
    ensures r.Pass? <==> InRange(c)
    ensures !(0.0 <= c.alpha <= 1.0) ==> r == Fail(AlphaOutOfRange(c.alpha))
    ensures 0.0 <= c.alpha <= 1.0 && c.rounds < 1 ==> r == Fail(TooFewRounds(c.rounds))
    ensures 0.0 <= c.alpha <= 1.0 && c.rounds >= 1 && c.temperature < 0.0 ==>
              r == Fail(NegativeTemperature(c.temperature))
    ensures 0.0 <= c.alpha <= 1.0 && c.rounds >= 1 && c.temperature >= 0.0 && c.maxTokens < 1 ==>
              r == Fail(TooFewMaxTokens(c.maxTokens))
  {
    if !(0.0 <= c.alpha <= 1.0) then Fail(AlphaOutOfRange(c.alpha))
    else if c.rounds < 1 then Fail(TooFewRounds(c.rounds))
    else if c.temperature < 0.0 then Fail(NegativeTemperature(c.temperature))
    else if c.maxTokens < 1 then Fail(TooFewMaxTokens(c.maxTokens))
    else Pass
  }

  /** The defaults pass validation. */
  lemma DefaultsAreValid()
    ensures Validate(DefaultConfig) == Pass
  {
  }

  /** A boolean environment flag: the variable's value (or "false" when it is
      unset), lower-cased, compared with "true". */
  function ParseFlag(raw: Option<string>): (r: bool)
    ensures r <==> raw.Some? && |raw.value| == 4 &&
                   forall i :: 0 <= i < 4 ==> LowerChar(raw.value[i]) == "true"[i]
  {
    var s := raw.GetOr("false");
    var lowered := Lower(s);
    LowerShape(s);
    assert lowered == "true" <==> |s| == 4 && forall i :: 0 <= i < 4 ==> LowerChar(s[i]) == "true"[i] by {
      if |s| == 4 && forall i :: 0 <= i < 4 ==> LowerChar(s[i]) == "true"[i] {
        assert lowered == "true";
      }
    }
    assert raw.None? ==> LowerChar(s[0]) != 't';
    lowered == "true"
  }

  /** Flag parsing is case-insensitive but does not strip whitespace. */
  lemma ParseFlagExamples()
    ensures ParseFlag(Some("TRUE")) && ParseFlag(Some("True"))
    ensures !ParseFlag(None) && !ParseFlag(Some(" true")) && !ParseFlag(Some("1"))
  {
    assert !ParseFlag(Some(" true")) by { assert LowerChar(" true"[0]) != 't'; }
  }
}
