/** The mock dialogue analyser at the head of `getSuggestion`: a random
    emotion and intent, keywords drawn from the input, a summary, and an
    openness score under the Accelerated Connection strategy. The random
    draws are parameters with the ranges the source draws them from. */
module Analysis {
  import opened Wrappers
  import opened Collections
  import opened Text
  import opened Strategy

  datatype Emotion = Emotion(primary: string, intensity: real)
  datatype Intent = Intent(primary: string, confidence: real)
  datatype Semantics = Semantics(keywords: seq<string>, summary: string)

  /** `DialogueAnalysis` as `getSuggestion` builds it: emotion, intent and
      semantics are always present; the openness score may be absent. */
  datatype DialogueAnalysis = DialogueAnalysis(
    emotion: Emotion,
    intent: Intent,
    semantics: Semantics,
    openness: Option<int>)

  /** The labels the emotion is drawn from. */
  const EmotionLabels: seq<string> := ["happy", "curious", "neutral", "thoughtful"]

  /** The labels the intent is drawn from. */
  const IntentLabels: seq<string> := ["casual_chat", "info_seeking", "making_plans", "sharing_opinion"]

  /** The input split into single-space-separated tokens after lower-casing,
      first four only. */
  function LeadingTokens(input: string): (r: seq<string>)
    ensures r <= Split(Lower(input), ' ')
    ensures |r| == if |Split(Lower(input), ' ')| < 4 then |Split(Lower(input), ' ')| else 4
    ensures forall t :: t in r ==> ' ' !in t
  {
    var ts := Split(Lower(input), ' ');
    Take(ts, 4)
  }

  /** A token is kept as a keyword when it is longer than three characters
      and not blank. */
  predicate IsCandidate(t: string) {
    |t| > 3 && !IsBlank(t)
  }

  /** `filter { it.length > 3 && it.isNotBlank() }`. */
  function FilterCandidates(ts: seq<string>): (r: seq<string>)
    ensures |r| <= |ts|
    decreases |ts|
  {
    if |ts| == 0 then []
    else FilterCandidates(ts[..|ts| - 1]) + (if IsCandidate(ts[|ts| - 1]) then [ts[|ts| - 1]] else [])
  }

  /** The filter keeps exactly the candidate tokens. */
  lemma {:induction false} FilterMembers(ts: seq<string>)
    ensures forall x :: x in FilterCandidates(ts) <==> x in ts && IsCandidate(x)
    decreases |ts|
  {
    if |ts| > 0 {
      var p := ts[..|ts| - 1];
      var x := ts[|ts| - 1];
      FilterMembers(p);
      assert forall y :: y in ts <==> y in p || y == x;
    }
  }

  /** Reference reading of the keyword rule: walking the tokens in order,
      a token is taken when it is a candidate and has not appeared before. */
  function FirstCandidates(ts: seq<string>): seq<string>
    decreases |ts|
  {
    if |ts| == 0 then []
    else
      var p := ts[..|ts| - 1];
      var x := ts[|ts| - 1];
      FirstCandidates(p) + (if IsCandidate(x) && x !in p then [x] else [])
  }

  /** Keyword extraction: lower-case, split on single spaces, take four
      tokens, keep the candidates, drop repeats. */
  function Keywords(input: string): (r: seq<string>)
    ensures |r| <= 4
    ensures NoDuplicates(r)
    ensures forall k :: k in r <==> k in LeadingTokens(input) && IsCandidate(k)
    ensures forall k :: k in r ==> |k| > 3 && ' ' !in k
  {
    FilterMembers(LeadingTokens(input));
    Distinct(FilterCandidates(LeadingTokens(input)))
  }

  /** Filtering and then dropping repeats keeps exactly the first occurrence
      of every candidate, in input order. */
  lemma {:induction false} DistinctFilterIsFirstCandidates(ts: seq<string>)
    ensures Distinct(FilterCandidates(ts)) == FirstCandidates(ts)
    decreases |ts|
  {
    if |ts| > 0 {
      var p := ts[..|ts| - 1];
      var x := ts[|ts| - 1];
      DistinctFilterIsFirstCandidates(p);
      var f := FilterCandidates(p);
      var first := FirstCandidates(p);
      assert Distinct(f) == first;
      if IsCandidate(x) {
        var g := f + [x];
        assert FilterCandidates(ts) == g;
        assert g[..|g| - 1] == f && g[|g| - 1] == x;
        FilterMembers(p);
        assert x in Distinct(f) <==> x in p;
        if x in p {
          assert Distinct(g) == first;
          assert FirstCandidates(ts) == first + [];
        } else {
          assert Distinct(g) == first + [x];
          assert FirstCandidates(ts) == first + [x];
        }
      } else {
        assert FilterCandidates(ts) == f;
        assert FirstCandidates(ts) == first + [];
      }
    }
  }

  /** The keywords are the first occurrences of the candidate tokens, in the
      order they appear among the first four tokens. */
  lemma KeywordsKeepOrder(input: string)
    ensures Keywords(input) == FirstCandidates(LeadingTokens(input))
  {
    DistinctFilterIsFirstCandidates(LeadingTokens(input));
  }

  /** Extraction lower-cases first, so the case of the input does not
      matter. */
  lemma KeywordsIgnoreCase(input: string)
    ensures Keywords(Lower(input)) == Keywords(input)
  {
    LowerIdempotent(input);
  }

  /** The fixed lead and tail around the quoted input in the summary. */
  const SummaryLead := "User mentioned: "
  const SummaryTail := "..."

  /** The summary string `User mentioned: <first 30 characters>...`. */
  function Summary(input: string): (r: string)
    ensures SummaryLead <= r && |r| >= |SummaryTail| && r[|r| - |SummaryTail|..] == SummaryTail
    ensures 19 <= |r| <= 49
    ensures r[|SummaryLead|..|r| - |SummaryTail|] == Take(input, 30)
  {
    SummaryLead + Take(input, 30) + SummaryTail
  }

  /** Only the first 30 characters of the input reach the summary. */
  lemma SummaryReadsFirst30(input: string, more: string)
    requires |input| >= 30
    ensures Summary(input + more) == Summary(input)
  {
    var a, b := Summary(input + more), Summary(input);
    assert (input + more)[..30] == input[..30];
    assert |a| == |b|;
    assert a[|SummaryLead|..|a| - |SummaryTail|] == b[|SummaryLead|..|b| - |SummaryTail|];
    assert a == a[..|SummaryLead|] + a[|SummaryLead|..|a| - |SummaryTail|] + a[|a| - |SummaryTail|..];
    assert b == b[..|SummaryLead|] + b[|SummaryLead|..|b| - |SummaryTail|] + b[|b| - |SummaryTail|..];
  }

  /** A short input is quoted whole. */
  lemma SummaryQuotesShortInput(input: string)
    requires |input| <= 30
    ensures Summary(input) == SummaryLead + input + SummaryTail
  {
    var r := Summary(input);
    assert r[|SummaryLead|..|r| - |SummaryTail|] == input;
    assert r == r[..|SummaryLead|] + r[|SummaryLead|..|r| - |SummaryTail|] + r[|r| - |SummaryTail|..];
  }

  /** Neither "sad" nor "frustrated" is ever drawn, so the analyser cannot
      trigger the rule engine's sad/frustrated branch. */
  lemma NoNegativeEmotionDrawn()
    ensures "sad" !in EmotionLabels && "frustrated" !in EmotionLabels
  {
    assert forall i :: 0 <= i < |EmotionLabels| ==> |EmotionLabels[i]| != 3 || EmotionLabels[i][0] != 's';
  }

  /** The analysis of `input` under `strategy` for the given draws: the
      emotion label at `emotionIndex` with `intensity`, the intent label at
      `intentIndex` with `confidence`, and, under Accelerated Connection
      only, the openness score `openness`. */
  function Analyze(input: string, strategy: DatingStrategy,
                   emotionIndex: nat, intensity: real,
                   intentIndex: nat, confidence: real,
                   openness: int): (r: DialogueAnalysis)
    requires emotionIndex < |EmotionLabels| && 0.4 <= intensity < 1.0
    requires intentIndex < |IntentLabels| && 0.5 <= confidence < 1.0
    requires 30 <= openness <= 95
    ensures r.openness.Some? <==> strategy == AcceleratedConnection
    ensures r.openness.Some? ==> 30 <= r.openness.value <= 95
    ensures r.emotion.primary in EmotionLabels && 0.4 <= r.emotion.intensity < 1.0
    ensures r.intent.primary in IntentLabels && 0.5 <= r.intent.confidence < 1.0
    ensures r.semantics.keywords == Keywords(input)
  {
    DialogueAnalysis(
      Emotion(EmotionLabels[emotionIndex], intensity),
      Intent(IntentLabels[intentIndex], confidence),
      Semantics(Keywords(input), Summary(input)),
      if strategy == AcceleratedConnection then Some(openness) else None)
  }
}
