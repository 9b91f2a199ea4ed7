/** `getSuggestion` of the simulated AI service end to end: analysis, base
    rule, style, strategy post-processing, coaching tip, explanation and
    predicted topics. The random draws of one call are a parameter. */
module Suggestion {
  import opened Wrappers
  import opened Collections
  import opened Text
  import opened Strategy
  import opened Analysis
  import opened Rules
  import opened Style
  import opened Coaching
  import opened Explanation

  /** The three style parameters of a call. */
  datatype StyleSettings = StyleSettings(formality: string, humor: real, enthusiasm: string)

  /** Every random draw of one call: the emotion and intent labels and
      their strengths, the openness score, the fallback line, the shuffle of
      the topics and how many of them are kept. */
  datatype Draws = Draws(emotionIndex: nat, intensity: real,
                         intentIndex: nat, confidence: real,
                         openness: int, fallbackIndex: nat,
                         topicOrder: seq<nat>, topicCount: nat)

  /** The ranges the source draws from. */
  predicate ValidDraws(d: Draws) {
    && d.emotionIndex < |EmotionLabels| && 0.4 <= d.intensity < 1.0
    && d.intentIndex < |IntentLabels| && 0.5 <= d.confidence < 1.0
    && 30 <= d.openness <= 95
    && d.fallbackIndex < |FallbackLines|
    && IsShuffle(d.topicOrder, 5) && 1 <= d.topicCount <= 2
  }

  /** The value `getSuggestion` returns. */
  datatype SuggestionWithAnalysis = SuggestionWithAnalysis(
    suggestion: string,
    analysis: DialogueAnalysis,
    coachingTip: Option<string>,
    explanation: string,
    predictedNextTopics: seq<string>)

  /** The analysis of one call. */
  function AnalysisOf(input: string, strategy: DatingStrategy, d: Draws): DialogueAnalysis
    requires ValidDraws(d)
  {
    Analyze(input, strategy, d.emotionIndex, d.intensity, d.intentIndex, d.confidence, d.openness)
  }

  /** The whole call; `snippet` is the newest knowledge snippet, absent when
      there is no repository or it holds nothing. */
  function GetSuggestion(input: string, style: StyleSettings, strategy: DatingStrategy,
                         snippet: Option<Snippet>, d: Draws): (r: SuggestionWithAnalysis)
    requires ValidDraws(d)
    ensures r.analysis.openness.Some? <==> strategy == AcceleratedConnection
    ensures r.analysis.semantics.keywords == Keywords(input)
    ensures r.coachingTip.Some?
    ensures strategy == Balanced ==> r.coachingTip == Some(BalancedTip)
    ensures strategy == AcceleratedConnection ==>
      Contains(r.coachingTip.value, IntToString(r.analysis.openness.value))
    ensures style.enthusiasm == "Calm" ==> '!' !in r.suggestion
    ensures 1 <= |r.predictedNextTopics| <= 2 && NoDuplicates(r.predictedNextTopics)
    ensures forall t :: t in r.predictedNextTopics ==> t in TopicPool(Keywords(input))
  {
    var a := AnalysisOf(input, strategy, d);
    var base := BaseSuggestion(a, snippet, d.fallbackIndex);
    var styled := ApplyStyle(base.text, style.formality, style.humor, style.enthusiasm);
    StyleOutcome(base.text, style.formality, style.humor, style.enthusiasm);
    var outcome := ApplyStrategy(styled.text, a, strategy, None);
    assert FinalTip(outcome, a) == outcome.tip;
    var explanation := Explain(base.reason, styled.applied, snippet);
    SuggestionWithAnalysis(
      styled.text,
      a,
      FinalTip(outcome, a),
      explanation,
      PredictTopics(a.semantics.keywords, d.topicOrder, d.topicCount))
  }

  /** The returned suggestion is the styled base suggestion: the strategy's
      rewrite is computed and dropped, so the suggestion and the explanation
      are the same under every strategy. */
  lemma SuggestionIgnoresStrategy(input: string, style: StyleSettings, s1: DatingStrategy, s2: DatingStrategy,
                                  snippet: Option<Snippet>, d: Draws)
    requires ValidDraws(d)
    ensures GetSuggestion(input, style, s1, snippet, d).suggestion
            == GetSuggestion(input, style, s2, snippet, d).suggestion
            == ApplyStyle(BaseSuggestion(AnalysisOf(input, s1, d), snippet, d.fallbackIndex).text,
                          style.formality, style.humor, style.enthusiasm).text
    ensures GetSuggestion(input, style, s1, snippet, d).explanation
            == GetSuggestion(input, style, s2, snippet, d).explanation
  {
    BaseIgnoresStrategy(input, s1, s2, snippet, d);
    SuggestionParts(input, style, s1, snippet, d);
    SuggestionParts(input, style, s2, snippet, d);
  }

  /** The base rule reads the emotion, intent and keywords, none of which
      depends on the strategy. */
  lemma BaseIgnoresStrategy(input: string, s1: DatingStrategy, s2: DatingStrategy, snippet: Option<Snippet>, d: Draws)
    requires ValidDraws(d)
    ensures BaseSuggestion(AnalysisOf(input, s1, d), snippet, d.fallbackIndex)
            == BaseSuggestion(AnalysisOf(input, s2, d), snippet, d.fallbackIndex)
  {
    var a1 := AnalysisOf(input, s1, d);
    var a2 := AnalysisOf(input, s2, d);
    assert a1.emotion == a2.emotion && a1.intent == a2.intent && a1.semantics == a2.semantics;
  }

  /** The analysis returned is the analysis of the call. */
  lemma AnalysisPart(input: string, style: StyleSettings, strategy: DatingStrategy,
                     snippet: Option<Snippet>, d: Draws)
    requires ValidDraws(d)
    ensures GetSuggestion(input, style, strategy, snippet, d).analysis == AnalysisOf(input, strategy, d)
  {
  }

  /** How the suggestion and the explanation of one call are put together. */
  lemma SuggestionParts(input: string, style: StyleSettings, strategy: DatingStrategy,
                        snippet: Option<Snippet>, d: Draws)
    requires ValidDraws(d)
    ensures var base := BaseSuggestion(AnalysisOf(input, strategy, d), snippet, d.fallbackIndex);
      var styled := ApplyStyle(base.text, style.formality, style.humor, style.enthusiasm);
      && GetSuggestion(input, style, strategy, snippet, d).suggestion == styled.text
      && GetSuggestion(input, style, strategy, snippet, d).explanation == Explain(base.reason, styled.applied, snippet)
  {
  }

  /** Without "Calm" the returned suggestion still contains the rule
      engine's draft text. */
  lemma SuggestionCarriesDraft(input: string, style: StyleSettings, strategy: DatingStrategy,
                               snippet: Option<Snippet>, d: Draws)
    requires ValidDraws(d) && style.enthusiasm != "Calm"
    ensures Contains(GetSuggestion(input, style, strategy, snippet, d).suggestion,
                     BaseSuggestion(AnalysisOf(input, strategy, d), snippet, d.fallbackIndex).text)
  {
    var base := BaseSuggestion(AnalysisOf(input, strategy, d), snippet, d.fallbackIndex);
    SuggestionParts(input, style, strategy, snippet, d);
    StyleKeepsTextAndHumor(base.text, style.formality, style.humor, style.enthusiasm);
  }

  /** With a knowledge snippet and neutral style settings the caller gets
      exactly the knowledge template, whatever was drawn. */
  lemma KnowledgeSuggestion(input: string, style: StyleSettings, strategy: DatingStrategy,
                            s: Snippet, d: Draws)
    requires ValidDraws(d) && !AnyStyleFires(style.formality, style.humor, style.enthusiasm)
    ensures GetSuggestion(input, style, strategy, Some(s), d).suggestion == KnowledgeDraft(s).text
  {
    var a := AnalysisOf(input, strategy, d);
    KnowledgeFirst(a, s, d.fallbackIndex);
    SuggestionParts(input, style, strategy, Some(s), d);
    StyleLogRecordsStages(KnowledgeDraft(s).text, style.formality, style.humor, style.enthusiasm);
  }

  /** The explanation opens with the base rule's reason and carries a
      style clause exactly when a style stage fired. */
  lemma ExplanationReflectsStyle(input: string, style: StyleSettings, strategy: DatingStrategy,
                                 snippet: Option<Snippet>, d: Draws)
    requires ValidDraws(d)
    ensures var r := GetSuggestion(input, style, strategy, snippet, d);
      var reason := BaseSuggestion(r.analysis, snippet, d.fallbackIndex).reason;
      && ExplanationLead + reason <= r.explanation
      && (AnyStyleFires(style.formality, style.humor, style.enthusiasm) ==>
            ExplanationLead + reason + " Style applied: " <= r.explanation)
      && (!AnyStyleFires(style.formality, style.humor, style.enthusiasm) && snippet.None? ==>
            r.explanation == ExplanationLead + reason)
  {
    var a := AnalysisOf(input, strategy, d);
    var base := BaseSuggestion(a, snippet, d.fallbackIndex);
    var styled := ApplyStyle(base.text, style.formality, style.humor, style.enthusiasm);
    AnalysisPart(input, style, strategy, snippet, d);
    SuggestionParts(input, style, strategy, snippet, d);
    StyleLogRecordsStages(base.text, style.formality, style.humor, style.enthusiasm);
    ExplanationClauses(base.reason, styled.applied, snippet);
  }

  /** The explanation cites the knowledge snippet whenever one was used. */
  lemma ExplanationReflectsKnowledge(input: string, style: StyleSettings, strategy: DatingStrategy,
                                     snippet: Option<Snippet>, d: Draws)
    requires ValidDraws(d)
    ensures snippet.Some? ==> Contains(GetSuggestion(input, style, strategy, snippet, d).explanation, " Knowledge used: ")
  {
    var a := AnalysisOf(input, strategy, d);
    var base := BaseSuggestion(a, snippet, d.fallbackIndex);
    var styled := ApplyStyle(base.text, style.formality, style.humor, style.enthusiasm);
    AnalysisPart(input, style, strategy, snippet, d);
    SuggestionParts(input, style, strategy, snippet, d);
    StyleLogRecordsStages(base.text, style.formality, style.humor, style.enthusiasm);
    ExplanationClauses(base.reason, styled.applied, snippet);
  }
}
