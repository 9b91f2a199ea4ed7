/** The suggestion rule engine of `getSuggestion`: a knowledge snippet, a
    strong emotion, a strong intent, an interest keyword, and a generic
    fallback, tried in that order. The source writes the chain as a series of
    steps that each run only while the suggestion text is still blank; this
    module models those steps as written and proves that they amount to a
    strict precedence of the five rules. */
module Rules {
  import opened Wrappers
  import opened Collections
  import opened Text
  import opened Analysis

  /** The most recent knowledge snippet (`RagKnowledgeSnippet`). */
  datatype Snippet = Snippet(id: int, text: string)

  /** The suggestion text and the reason recorded for it. */
  datatype Draft = Draft(text: string, reason: string)

  /** The draft before any rule has run. */
  const Initial: Draft := Draft("", "Fallback generic suggestion")

  /** `genericFallbackSuggestions`. */
  const FallbackLines: seq<string> := [
    "That's interesting, tell me more.",
    "What are your thoughts on that?",
    "Cool!",
    "I see. Anything else on your mind?",
    "Gotcha."
  ]

  /** `interestKeywords`: keyword to follow-up question. */
  const InterestTable: map<string, string> := map[
    "music" := "What kind of music do you enjoy?",
    "travel" := "Any favorite travel destinations?",
    "food" := "Tried any good restaurants lately?",
    "movie" := "Seen any good movies recently?",
    "book" := "Reading any interesting books?"
  ]

  /** `interestKeywords.containsKey(k)`. */
  predicate IsInterest(k: string) {
    k in InterestTable
  }

  /** At most thirty characters of the snippet text are quoted. */
  function Excerpt(s: Snippet): (r: string)
    ensures |r| <= 30 && r <= s.text
  {
    Take(s.text, 30)
  }

  const KnowledgeLead: string := "Remembering you mentioned '"
  const KnowledgeAdvice: string :=
    "', how about you say: 'Let's discuss that more!' or perhaps ask about their thoughts on similar topics?"

  function KnowledgeDraft(s: Snippet): Draft {
    Draft(KnowledgeLead + (Excerpt(s) + KnowledgeAdvice), "Used RAG snippet: '" + Excerpt(s) + "...'")
  }

  /** A happy emotion above 0.7, or a sad or frustrated one above 0.6. */
  predicate StrongEmotion(e: Emotion) {
    || (e.primary == "happy" && e.intensity > 0.7)
    || ((e.primary == "sad" || e.primary == "frustrated") && e.intensity > 0.6)
  }

  const HappyLead: string := "They seem happy! "
  const HappyAdvice: string := "You could say: 'Glad to hear you're feeling good! What's got you in high spirits?'"
  const DownLead: string := "It sounds like they might "
  const DownAdvice: string := "be feeling down. Maybe offer some support, like: 'I'm here if you want to talk about it.'"

  function EmotionDraft(e: Emotion): Draft
    requires StrongEmotion(e)
  {
    if e.primary == "happy" then
      Draft(HappyLead + HappyAdvice, "Detected strong happy emotion.")
    else
      Draft(DownLead + DownAdvice, "Detected sad/frustrated emotion.")
  }

  /** Making plans above 0.7, or information seeking above 0.65. */
  predicate StrongIntent(i: Intent) {
    || (i.primary == "making_plans" && i.confidence > 0.7)
    || (i.primary == "info_seeking" && i.confidence > 0.65)
  }

  const PlansLead: string := "Since they seem interested in "
  const PlansAdvice: string := "making plans, how about suggesting: 'Would you be free to [activity] next [day]?'"
  const InfoLead: string := "They seem to be looking for info. "
  const InfoAdvice: string := "Maybe ask: 'Is there anything specific I can help you find out about that?'"

  function IntentDraft(i: Intent): Draft
    requires StrongIntent(i)
  {
    if i.primary == "making_plans" then
      Draft(PlansLead + PlansAdvice, "Detected intent: making_plans.")
    else
      Draft(InfoLead + InfoAdvice, "Detected intent: info_seeking.")
  }

  function KeywordDraft(k: string): Draft
    requires IsInterest(k)
  {
    Draft("They mentioned '" + k + "'! A good follow-up would be: '" + InterestTable[k] + "'",
          "Detected keyword: " + k + ".")
  }

  /** The fallback line; it names the first keyword when there is one. A
      missing keyword is printed as `null` in the reason, as Kotlin's string
      templates do. */
  function FallbackDraft(keywords: seq<string>, fallbackIndex: nat): (r: Draft)
    requires fallbackIndex < |FallbackLines|
    ensures |keywords| > 0 ==> ("Regarding '" + keywords[0] + "'") <= r.text
    ensures |keywords| == 0 ==> r.text == "You could respond with: '" + FallbackLines[fallbackIndex] + "'"
  {
    var line := FallbackLines[fallbackIndex];
    if |keywords| > 0 then
      Draft("Regarding '" + keywords[0] + "', you could say: '" + line + "'",
            "Fallback, using keyword: '" + keywords[0] + "'.")
    else
      Draft("You could respond with: '" + line + "'",
            "Fallback, using keyword: 'null'.")
  }

  // ---- The chain as the source writes it ----

  function KnowledgeStep(snippet: Option<Snippet>, d: Draft): Draft {
    match snippet
    case Some(s) => KnowledgeDraft(s)
    case None => d
  }

  function EmotionStep(e: Emotion, d: Draft): Draft {
    if !IsBlank(d.text) then d
    else if e.primary == "happy" then
      (if e.intensity > 0.7 then EmotionDraft(e) else d)
    else if e.primary == "sad" || e.primary == "frustrated" then
      (if e.intensity > 0.6 then EmotionDraft(e) else d)
    else d
  }

  function IntentStep(i: Intent, d: Draft): Draft {
    if !IsBlank(d.text) then d
    else if i.primary == "making_plans" then
      (if i.confidence > 0.7 then IntentDraft(i) else d)
    else if i.primary == "info_seeking" then
      (if i.confidence > 0.65 then IntentDraft(i) else d)
    else d
  }

  /** The `forEach` over the keywords: every interest keyword overwrites the
      draft, because `return@forEach` only ends the current iteration. */
  function ScanKeywords(keywords: seq<string>, d: Draft): Draft
    decreases |keywords|
  {
    if |keywords| == 0 then d
    else ScanKeywords(keywords[1..], if IsInterest(keywords[0]) then KeywordDraft(keywords[0]) else d)
  }

  function KeywordStep(keywords: seq<string>, d: Draft): Draft {
    if !IsBlank(d.text) then d else ScanKeywords(keywords, d)
  }

  function FallbackStep(keywords: seq<string>, fallbackIndex: nat, d: Draft): Draft
    requires fallbackIndex < |FallbackLines|
  {
    if !IsBlank(d.text) then d else FallbackDraft(keywords, fallbackIndex)
  }

  /** The base suggestion of `getSuggestion` before styling. */
  function BaseSuggestion(a: DialogueAnalysis, snippet: Option<Snippet>, fallbackIndex: nat): (r: Draft)
    requires fallbackIndex < |FallbackLines|
  {
    var kws := a.semantics.keywords;
    var d1 := KnowledgeStep(snippet, Initial);
    var d2 := EmotionStep(a.emotion, d1);
    var d3 := IntentStep(a.intent, d2);
    var d4 := KeywordStep(kws, d3);
    FallbackStep(kws, fallbackIndex, d4)
  }

  // ---- Reference reading of the keyword rule ----

  /** The last interest keyword of the list, searching from the end. */
  function LastInterest(keywords: seq<string>): (r: Option<string>)
    ensures r.Some? ==> IsInterest(r.value)
    ensures r.Some? ==> exists i :: 0 <= i < |keywords| && keywords[i] == r.value && NoInterestAfter(keywords, i)
    ensures r.None? <==> forall i :: 0 <= i < |keywords| ==> !IsInterest(keywords[i])
    decreases |keywords|
  {
    if |keywords| == 0 then None
    else
      var n := |keywords| - 1;
      if IsInterest(keywords[n]) then Some(keywords[n])
      else
        var r := LastInterest(keywords[..n]);
        assert forall i :: 0 <= i < n ==> keywords[..n][i] == keywords[i];
        r
  }

  /** No keyword after index `i` is in the interest table. */
  predicate NoInterestAfter(keywords: seq<string>, i: int)
    requires 0 <= i < |keywords|
  {
    forall j :: i < j < |keywords| ==> !IsInterest(keywords[j])
  }

  /** Peeling the first keyword off: the last interest keyword is the last
      one of the rest, or else the first keyword itself. */
  lemma {:induction false} LastInterestFront(keywords: seq<string>)
    requires |keywords| > 0
    ensures LastInterest(keywords) ==
      if LastInterest(keywords[1..]).Some? then LastInterest(keywords[1..])
      else if IsInterest(keywords[0]) then Some(keywords[0])
      else None
    decreases |keywords|
  {
    var n := |keywords| - 1;
    if n > 0 && !IsInterest(keywords[n]) {
      LastInterestFront(keywords[..n]);
      assert keywords[..n][1..] == keywords[1..][..n - 1];
      assert keywords[..n][0] == keywords[0];
    }
  }

  /** The loop leaves the draft of the last interest keyword, or the draft
      it started with when there is none. */
  lemma {:induction false} ScanPicksLastInterest(keywords: seq<string>, d: Draft)
    ensures ScanKeywords(keywords, d) ==
      match LastInterest(keywords)
      case Some(k) => KeywordDraft(k)
      case None => d
    decreases |keywords|
  {
    if |keywords| > 0 {
      var d' := if IsInterest(keywords[0]) then KeywordDraft(keywords[0]) else d;
      ScanPicksLastInterest(keywords[1..], d');
      LastInterestFront(keywords);
    }
  }

  lemma KnowledgeNotBlank(s: Snippet)
    ensures !IsBlank(KnowledgeDraft(s).text)
  {
    NotBlankWithVisibleHead(KnowledgeLead, Excerpt(s) + KnowledgeAdvice);
  }

  lemma EmotionNotBlank(e: Emotion)
    requires StrongEmotion(e)
    ensures !IsBlank(EmotionDraft(e).text)
  {
    if e.primary == "happy" {
      NotBlankWithVisibleHead(HappyLead, HappyAdvice);
    } else {
      NotBlankWithVisibleHead(DownLead, DownAdvice);
    }
  }

  lemma IntentNotBlank(i: Intent)
    requires StrongIntent(i)
    ensures !IsBlank(IntentDraft(i).text)
  {
    if i.primary == "making_plans" {
      NotBlankWithVisibleHead(PlansLead, PlansAdvice);
    } else {
      NotBlankWithVisibleHead(InfoLead, InfoAdvice);
    }
  }

  lemma KeywordNotBlank(k: string)
    requires IsInterest(k)
    ensures !IsBlank(KeywordDraft(k).text)
  {
    NotBlankWhenLeadingVisible(KeywordDraft(k).text);
  }

  lemma FallbackNotBlank(kws: seq<string>, fallbackIndex: nat)
    requires fallbackIndex < |FallbackLines|
    ensures !IsBlank(FallbackDraft(kws, fallbackIndex).text)
  {
    NotBlankWhenLeadingVisible(FallbackDraft(kws, fallbackIndex).text);
  }

  /** Once a step has produced a non-blank text, the later steps keep it. */
  lemma Settled(a: DialogueAnalysis, d: Draft, fallbackIndex: nat)
    requires fallbackIndex < |FallbackLines| && !IsBlank(d.text)
    ensures FallbackStep(a.semantics.keywords, fallbackIndex,
              KeywordStep(a.semantics.keywords, IntentStep(a.intent, d))) == d
  {
  }

  /** A knowledge snippet wins whatever the emotion and intent. */
  lemma KnowledgeFirst(a: DialogueAnalysis, s: Snippet, fallbackIndex: nat)
    requires fallbackIndex < |FallbackLines|
    ensures BaseSuggestion(a, Some(s), fallbackIndex) == KnowledgeDraft(s)
  {
    KnowledgeNotBlank(s);
    Settled(a, KnowledgeDraft(s), fallbackIndex);
  }

  /** Without a snippet, a strong emotion wins over intent and keywords. */
  lemma EmotionSecond(a: DialogueAnalysis, fallbackIndex: nat)
    requires fallbackIndex < |FallbackLines| && StrongEmotion(a.emotion)
    ensures BaseSuggestion(a, None, fallbackIndex) == EmotionDraft(a.emotion)
  {
    EmotionNotBlank(a.emotion);
    assert IsBlank(Initial.text);
    assert EmotionStep(a.emotion, Initial) == EmotionDraft(a.emotion);
    Settled(a, EmotionDraft(a.emotion), fallbackIndex);
  }

  /** Without a snippet or a strong emotion, a strong intent wins over
      keywords. */
  lemma IntentThird(a: DialogueAnalysis, fallbackIndex: nat)
    requires fallbackIndex < |FallbackLines|
    requires !StrongEmotion(a.emotion) && StrongIntent(a.intent)
    ensures BaseSuggestion(a, None, fallbackIndex) == IntentDraft(a.intent)
  {
    IntentNotBlank(a.intent);
    assert IsBlank(Initial.text);
    assert EmotionStep(a.emotion, Initial) == Initial;
    assert IntentStep(a.intent, Initial) == IntentDraft(a.intent);
  }

  /** Otherwise the last interest keyword wins, and the fallback line is
      used only when no keyword is in the interest table. */
  lemma KeywordOrFallback(a: DialogueAnalysis, fallbackIndex: nat)
    requires fallbackIndex < |FallbackLines|
    requires !StrongEmotion(a.emotion) && !StrongIntent(a.intent)
    ensures BaseSuggestion(a, None, fallbackIndex) ==
      match LastInterest(a.semantics.keywords)
      case Some(k) => KeywordDraft(k)
      case None => FallbackDraft(a.semantics.keywords, fallbackIndex)
  {
    var kws := a.semantics.keywords;
    assert IsBlank(Initial.text);
    assert EmotionStep(a.emotion, Initial) == Initial;
    assert IntentStep(a.intent, Initial) == Initial;
    ScanPicksLastInterest(kws, Initial);
    match LastInterest(kws)
    case Some(k) =>
      KeywordNotBlank(k);
    case None =>
  }

  /** The chain of blank-guarded steps is a strict precedence: the knowledge
      snippet beats everything, a strong emotion beats intent and keywords,
      a strong intent beats keywords, the last interest keyword beats the
      fallback; and the base suggestion is never blank. */
  lemma RulePrecedence(a: DialogueAnalysis, snippet: Option<Snippet>, fallbackIndex: nat)
    requires fallbackIndex < |FallbackLines|
    ensures snippet.Some? ==>
      BaseSuggestion(a, snippet, fallbackIndex) == KnowledgeDraft(snippet.value)
    ensures snippet.None? && StrongEmotion(a.emotion) ==>
      BaseSuggestion(a, snippet, fallbackIndex) == EmotionDraft(a.emotion)
    ensures snippet.None? && !StrongEmotion(a.emotion) && StrongIntent(a.intent) ==>
      BaseSuggestion(a, snippet, fallbackIndex) == IntentDraft(a.intent)
    ensures (snippet.None? && !StrongEmotion(a.emotion) && !StrongIntent(a.intent)
             && LastInterest(a.semantics.keywords).Some?) ==>
      BaseSuggestion(a, snippet, fallbackIndex) == KeywordDraft(LastInterest(a.semantics.keywords).value)
    ensures (snippet.None? && !StrongEmotion(a.emotion) && !StrongIntent(a.intent)
             && LastInterest(a.semantics.keywords).None?) ==>
      BaseSuggestion(a, snippet, fallbackIndex) == FallbackDraft(a.semantics.keywords, fallbackIndex)
    ensures !IsBlank(BaseSuggestion(a, snippet, fallbackIndex).text)
  {
    if snippet.Some? {
      KnowledgeFirst(a, snippet.value, fallbackIndex);
      KnowledgeNotBlank(snippet.value);
    } else if StrongEmotion(a.emotion) {
      EmotionSecond(a, fallbackIndex);
      EmotionNotBlank(a.emotion);
    } else if StrongIntent(a.intent) {
      IntentThird(a, fallbackIndex);
      IntentNotBlank(a.intent);
    } else {
      KeywordOrFallback(a, fallbackIndex);
      match LastInterest(a.semantics.keywords)
      case Some(k) => KeywordNotBlank(k);
      case None => FallbackNotBlank(a.semantics.keywords, fallbackIndex);
    }
  }
}
