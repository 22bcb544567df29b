/** The agent-local verdict rule of the claim verifier: whatever text the
    underlying predictor produced is forced into exactly "yes" or "no". */
module Verifier {
  import opened Wrappers
  import opened Text
  import opened Metrics

  /** `sub` occurs in `s` starting at position `i`. */
  ghost predicate OccursAt(s: string, sub: string, i: int) {
    0 <= i && i + |sub| <= |s| && s[i..i + |sub|] == sub
  }

  /** Python's `sub in s` on strings: a scan for `sub` at each position. */
  predicate Contains(s: string, sub: string)
    decreases |s|
  {
    if |s| < |sub| then false
    else s[..|sub|] == sub || Contains(s[1..], sub)
  }

  /** The scan finds `sub` exactly when it occurs at some position. */
  lemma {:induction false} ContainsIffOccurs(s: string, sub: string)
    ensures Contains(s, sub) <==> exists i :: OccursAt(s, sub, i)
    decreases |s|
  {
    if |s| < |sub| {
      if i :| OccursAt(s, sub, i) {
        assert false;
      }
    } else if s[..|sub|] == sub {
      assert OccursAt(s, sub, 0);
    } else {
      ContainsIffOccurs(s[1..], sub);
      if Contains(s[1..], sub) {
        var i :| OccursAt(s[1..], sub, i);
        assert s[i + 1..i + 1 + |sub|] == s[1..][i..i + |sub|];
        assert OccursAt(s, sub, i + 1);
      }
      if i :| OccursAt(s, sub, i) {
        assert i != 0;
        assert s[1..][i - 1..i - 1 + |sub|] == s[i..i + |sub|];
        assert OccursAt(s[1..], sub, i - 1);
      }
    }
  }

  /** The outcome of the substring rule: a clear verdict, or an ambiguous text
      (both words, or neither) that has to be settled by a random choice. */
  datatype Resolution = Decided(verdict: string) | Ambiguous

  /** The rule applied to the raw verdict after trimming and lower-casing:
      "yes" when the text contains "yes" but not "no", "no" when it contains
      "no" but not "yes", ambiguous otherwise (both present, neither present,
      empty, or missing). */
  function Resolve(raw: Option<string>): (r: Resolution)
    ensures var t := NormalizeVerdict(raw);
            && (r == Decided("yes") <==> Contains(t, "yes") && !Contains(t, "no"))
            && (r == Decided("no") <==> Contains(t, "no") && !Contains(t, "yes"))
            && (r == Ambiguous <==> (Contains(t, "yes") <==> Contains(t, "no")))
    ensures r.Decided? ==> r.verdict == "yes" || r.verdict == "no"
  {
    var t := NormalizeVerdict(raw);
    if Contains(t, "yes") && !Contains(t, "no") then Decided("yes")
    else if Contains(t, "no") && !Contains(t, "yes") then Decided("no")
    else Ambiguous
  }

  /** The sample text is already trimmed and lower-case. */
  lemma NegatedTextNormal()
    ensures NormalizeVerdict(Some("not no, but yes")) == "not no, but yes"
  {
    var t := "not no, but yes";
    assert Trimmed(t);
    assert NoUpper(t);
    NormalizeOfNormal(t);
  }

  /** The sample text mentions both words. */
  lemma NegatedTextMentionsBoth()
    ensures Contains("not no, but yes", "yes") && Contains("not no, but yes", "no")
  {
    var t := "not no, but yes";
    assert t[12..15] == "yes";
    assert OccursAt(t, "yes", 12);
    ContainsIffOccurs(t, "yes");
    assert t[..2] == "no";
  }

  /** A text mentioning both words is ambiguous even when one is negated. */
  lemma NegatedWordIsAmbiguous()
    ensures Resolve(Some("not no, but yes")) == Ambiguous
  {
    NegatedTextNormal();
    NegatedTextMentionsBoth();
  }

  /** A missing or empty verdict mentions neither word and is ambiguous. */
  lemma EmptyIsAmbiguous(raw: Option<string>)
    requires raw == None || raw == Some("")
    ensures Resolve(raw) == Ambiguous
  {
    assert NormalizeVerdict(raw) == "";
  }

  /** The prediction object the underlying predictor returns; `forward`
      overwrites its verdict field in place. */
  class Prediction {
    var verdict: Option<string>

    constructor (verdict: Option<string>)
      ensures this.verdict == verdict
    {
      this.verdict := verdict;
    }
  }

  /** `Verifier.forward`, given the outcome of the underlying step: the step's
      prediction, or `None` when the step raised. A clear text is replaced by
      its verdict; an ambiguous one by an arbitrary choice of "yes" or "no";
      when the step raised, a fresh prediction carries an arbitrary choice.
      Either way the verdict returned is exactly "yes" or "no". */
  method Forward(step: Option<Prediction>) returns (out: Prediction)
    modifies if step.Some? then {step.value} else {}
    ensures out.verdict == Some("yes") || out.verdict == Some("no")
    ensures step.Some? ==> out == step.value
    ensures step.Some? && Resolve(old(step.value.verdict)).Decided? ==>
              out.verdict == Some(Resolve(old(step.value.verdict)).verdict)
    ensures step.None? ==> fresh(out)
  {
    if step.None? {
      var choice :| choice in {"yes", "no"};
      out := new Prediction(Some(choice));
    } else {
      out := step.value;
      var verdict;
      match Resolve(out.verdict) {
        case Decided(v) =>
          verdict := v;
        case Ambiguous =>
          verdict :| verdict in {"yes", "no"};
      }
      out.verdict := Some(verdict);
    }
  }
}
