/** Worked examples of `getSuggestion` on fixed inputs and draws. */
module Scenarios {
  import opened Wrappers
  import opened Collections
  import opened Text
  import opened Strategy
  import opened Analysis
  import opened Rules
  import opened Style
  import opened Coaching
  import opened Explanation
  import opened Suggestion

  /** The first four pieces of a space-separated text. */
  lemma SplitFour(a1: string, a2: string, a3: string, a4: string, rest: string)
    requires ' ' !in a1 && ' ' !in a2 && ' ' !in a3 && ' ' !in a4
    ensures Split(a1 + [' '] + (a2 + [' '] + (a3 + [' '] + (a4 + [' '] + rest))), ' ')
            == [a1, a2, a3, a4] + Split(rest, ' ')
  {
    var t4 := a4 + [' '] + rest;
    var t3 := a3 + [' '] + t4;
    var t2 := a2 + [' '] + t3;
    SplitAtSeparator(a4, rest, ' ');
    SplitAtSeparator(a3, t4, ' ');
    SplitAtSeparator(a2, t3, ' ');
    SplitAtSeparator(a1, t2, ' ');
  }

  const MusicInput: string := "I love live music and travel!"

  lemma MusicInputPieces()
    ensures Lower(MusicInput) == "i" + [' '] + ("love" + [' '] + ("live" + [' '] + ("music" + [' '] + "and travel!")))
  {
  }

  lemma MusicInputTokens()
    ensures LeadingTokens(MusicInput) == ["i", "love", "live", "music"]
  {
    MusicInputPieces();
    SplitFour("i", "love", "live", "music", "and travel!");
  }

  lemma MusicCandidates()
    ensures FilterCandidates(["i", "love", "live", "music"]) == ["love", "live", "music"]
  {
    var kept := ["love", "live", "music"];
    NotBlankWhenLeadingVisible("love");
    NotBlankWhenLeadingVisible("live");
    NotBlankWhenLeadingVisible("music");
    assert forall i :: 0 <= i < |kept| ==> IsCandidate(kept[i]);
    FilterSkipsLeader("i", kept);
    assert ["i"] + kept == ["i", "love", "live", "music"];
  }

  /** A non-candidate in front of a list of candidates is dropped and the
      rest kept. */
  lemma {:induction false} FilterSkipsLeader(x: string, ts: seq<string>)
    requires !IsCandidate(x)
    requires forall i :: 0 <= i < |ts| ==> IsCandidate(ts[i])
    ensures FilterCandidates([x] + ts) == ts
    decreases |ts|
  {
    if |ts| == 0 {
      assert [x] + ts == [x];
      assert [x][..0] == [];
    } else {
      var p := ts[..|ts| - 1];
      var y := ts[|ts| - 1];
      FilterSkipsLeader(x, p);
      FilterSnoc([x] + p, y);
      assert [x] + p + [y] == [x] + ts;
      assert p + [y] == ts;
    }
  }

  lemma MusicDistinct()
    ensures Distinct(["love", "live", "music"]) == ["love", "live", "music"]
  {
    var kws := ["love", "live", "music"];
    assert kws[0][1] != kws[1][1] && kws[0][0] != kws[2][0] && kws[1][0] != kws[2][0];
    DistinctOfUnique(kws);
  }

  /** Only the first four words are looked at, so "travel" is never a
      keyword of this input. */
  lemma MusicInputKeywords()
    ensures Keywords(MusicInput) == ["love", "live", "music"]
  {
    MusicInputTokens();
    MusicCandidates();
    MusicDistinct();
  }

  /** Neutral style settings: no stage fires. */
  const PlainStyle: StyleSettings := StyleSettings("Medium", 0.3, "Neutral")

  /** Draws giving a calm "neutral" emotion and a "casual_chat" intent. */
  predicate CalmDraws(d: Draws) {
    ValidDraws(d) && d.emotionIndex == 2 && d.intentIndex == 0
  }

  /** With a neutral emotion and a casual intent the keyword rule decides. */
  lemma KeywordRuleDecides(a: DialogueAnalysis, fallbackIndex: nat, k: string)
    requires fallbackIndex < |FallbackLines|
    requires a.emotion.primary == "neutral" && a.intent.primary == "casual_chat"
    requires LastInterest(a.semantics.keywords) == Some(k)
    ensures BaseSuggestion(a, None, fallbackIndex) == KeywordDraft(k)
  {
    RulePrecedence(a, None, fallbackIndex);
  }

  /** When no style stage fires the call returns the base suggestion
      unchanged and explains it by its reason alone. */
  lemma NoStyleKeepsBase(input: string, style: StyleSettings, strategy: DatingStrategy, d: Draws)
    requires ValidDraws(d) && !AnyStyleFires(style.formality, style.humor, style.enthusiasm)
    ensures GetSuggestion(input, style, strategy, None, d).suggestion
            == BaseSuggestion(AnalysisOf(input, strategy, d), None, d.fallbackIndex).text
    ensures GetSuggestion(input, style, strategy, None, d).explanation
            == ExplanationLead + BaseSuggestion(AnalysisOf(input, strategy, d), None, d.fallbackIndex).reason
  {
    var base := BaseSuggestion(AnalysisOf(input, strategy, d), None, d.fallbackIndex);
    StyleLogRecordsStages(base.text, style.formality, style.humor, style.enthusiasm);
    ExplanationReflectsStyle(input, style, strategy, None, d);
    SuggestionIgnoresStrategy(input, style, strategy, strategy, None, d);
  }

  lemma PlainStyleFiresNothing()
    ensures !AnyStyleFires(PlainStyle.formality, PlainStyle.humor, PlainStyle.enthusiasm)
  {
  }

  lemma MusicAnalysis(strategy: DatingStrategy, d: Draws)
    requires CalmDraws(d)
    ensures AnalysisOf(MusicInput, strategy, d).semantics.keywords == ["love", "live", "music"]
  {
    MusicInputKeywords();
  }

  lemma MusicBase(strategy: DatingStrategy, d: Draws)
    requires CalmDraws(d)
    ensures BaseSuggestion(AnalysisOf(MusicInput, strategy, d), None, d.fallbackIndex) == KeywordDraft("music")
  {
    MusicAnalysis(strategy, d);
    assert LastInterest(["love", "live", "music"]) == Some("music");
    KeywordRuleDecides(AnalysisOf(MusicInput, strategy, d), d.fallbackIndex, "music");
  }

  /** With plain style the call returns the music keyword draft. */
  lemma MusicResult(strategy: DatingStrategy, d: Draws)
    requires CalmDraws(d)
    ensures GetSuggestion(MusicInput, PlainStyle, strategy, None, d).suggestion == KeywordDraft("music").text
    ensures GetSuggestion(MusicInput, PlainStyle, strategy, None, d).explanation
            == ExplanationLead + KeywordDraft("music").reason
  {
    MusicBase(strategy, d);
    PlainStyleFiresNothing();
    NoStyleKeepsBase(MusicInput, PlainStyle, strategy, d);
  }

  /** "I love live music and travel!" with no snippet, a neutral emotion, a
      casual intent and plain style gets the music follow-up question,
      explained by the music keyword. */
  lemma MusicScenario(strategy: DatingStrategy, d: Draws)
    requires CalmDraws(d)
    ensures GetSuggestion(MusicInput, PlainStyle, strategy, None, d).suggestion
            == "They mentioned 'music" + "'! A good follow-up would be: '" + "What kind of music do you enjoy?'"
    ensures GetSuggestion(MusicInput, PlainStyle, strategy, None, d).explanation
            == "Why this suggestion? " + "Detected keyword: music."
  {
    MusicResult(strategy, d);
    MusicDraft();
  }

  lemma MusicDraft()
    ensures KeywordDraft("music").text
            == "They mentioned 'music" + "'! A good follow-up would be: '" + "What kind of music do you enjoy?'"
    ensures KeywordDraft("music").reason == "Detected keyword: music."
  {
  }

  const InterestsInput: string := "music travel food book lover"

  lemma InterestsInputPieces()
    ensures Lower(InterestsInput) == "music" + [' '] + ("travel" + [' '] + ("food" + [' '] + ("book" + [' '] + "lover")))
  {
  }

  lemma InterestsInputTokens()
    ensures LeadingTokens(InterestsInput) == ["music", "travel", "food", "book"]
  {
    InterestsInputPieces();
    SplitFour("music", "travel", "food", "book", "lover");
  }

  /** Filtering a list one longer keeps the filtered prefix. */
  lemma FilterSnoc(ts: seq<string>, x: string)
    ensures FilterCandidates(ts + [x]) == FilterCandidates(ts) + (if IsCandidate(x) then [x] else [])
  {
    assert (ts + [x])[..|ts|] == ts;
  }

  /** Filtering a list of candidates keeps all of it. */
  lemma {:induction false} FilterKeepsCandidates(ts: seq<string>)
    requires forall i :: 0 <= i < |ts| ==> IsCandidate(ts[i])
    ensures FilterCandidates(ts) == ts
    decreases |ts|
  {
    if |ts| > 0 {
      var p := ts[..|ts| - 1];
      FilterKeepsCandidates(p);
      FilterSnoc(p, ts[|ts| - 1]);
      assert p + [ts[|ts| - 1]] == ts;
    }
  }

  lemma InterestsCandidates()
    ensures FilterCandidates(["music", "travel", "food", "book"]) == ["music", "travel", "food", "book"]
  {
    var ts := ["music", "travel", "food", "book"];
    NotBlankWhenLeadingVisible("music");
    NotBlankWhenLeadingVisible("travel");
    NotBlankWhenLeadingVisible("food");
    NotBlankWhenLeadingVisible("book");
    assert forall i :: 0 <= i < |ts| ==> IsCandidate(ts[i]);
    FilterKeepsCandidates(ts);
  }

  lemma InterestsDistinct()
    ensures Distinct(["music", "travel", "food", "book"]) == ["music", "travel", "food", "book"]
  {
    var toks := ["music", "travel", "food", "book"];
    assert forall i, j :: 0 <= i < j < |toks| ==> toks[i][0] != toks[j][0];
    DistinctOfUnique(toks);
  }

  lemma InterestsInputKeywords()
    ensures Keywords(InterestsInput) == ["music", "travel", "food", "book"]
  {
    InterestsInputTokens();
    InterestsCandidates();
    InterestsDistinct();
  }

  lemma InterestsAnalysis(strategy: DatingStrategy, d: Draws)
    requires CalmDraws(d)
    ensures AnalysisOf(InterestsInput, strategy, d).semantics.keywords == ["music", "travel", "food", "book"]
  {
    InterestsInputKeywords();
  }

  lemma InterestsBase(strategy: DatingStrategy, d: Draws)
    requires CalmDraws(d)
    ensures BaseSuggestion(AnalysisOf(InterestsInput, strategy, d), None, d.fallbackIndex) == KeywordDraft("book")
  {
    InterestsAnalysis(strategy, d);
    assert LastInterest(["music", "travel", "food", "book"]) == Some("book");
    KeywordRuleDecides(AnalysisOf(InterestsInput, strategy, d), d.fallbackIndex, "book");
  }

  /** With plain style the call returns the book keyword draft. */
  lemma InterestsResult(strategy: DatingStrategy, d: Draws)
    requires CalmDraws(d)
    ensures GetSuggestion(InterestsInput, PlainStyle, strategy, None, d).suggestion == KeywordDraft("book").text
  {
    InterestsBase(strategy, d);
    PlainStyleFiresNothing();
    NoStyleKeepsBase(InterestsInput, PlainStyle, strategy, d);
  }

  /** When several interests are mentioned the last one wins: this input
      gets the question about books, not the one about music. */
  lemma LastInterestWinsScenario(strategy: DatingStrategy, d: Draws)
    requires CalmDraws(d)
    ensures GetSuggestion(InterestsInput, PlainStyle, strategy, None, d).suggestion
            == "They mentioned 'book" + "'! A good follow-up would be: '" + "Reading any interesting books?'"
  {
    InterestsResult(strategy, d);
    BookDraft();
  }

  lemma BookDraft()
    ensures KeywordDraft("book").text
            == "They mentioned 'book" + "'! A good follow-up would be: '" + "Reading any interesting books?'"
  {
  }

  /** Under Accelerated Connection with a high openness score the strategy
      writes the bold invitation, which has an exclamation mark; under the
      "Calm" setting the returned suggestion has none, so the invitation is
      not what the caller receives. */
  lemma BoldInviteNotReturned(input: string, style: StyleSettings, snippet: Option<Snippet>, d: Draws)
    requires ValidDraws(d) && d.openness > 75 && style.enthusiasm == "Calm"
    ensures '!' in BoldInvite(d.openness)
    ensures GetSuggestion(input, style, AcceleratedConnection, snippet, d).suggestion != BoldInvite(d.openness)
  {
    var tail := "let's meet up! How about [day]?'";
    assert tail[13] == '!';
    var head := "With their high openness (" + IntToString(d.openness) + "/100), be bold: 'This is great, ";
    assert BoldInvite(d.openness) == head + tail;
    assert (head + tail)[|head| + 13] == '!';
  }
}
