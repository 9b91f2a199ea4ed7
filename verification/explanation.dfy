/** The explanation and the predicted next topics that `getSuggestion`
    attaches to its suggestion. */
module Explanation {
  import opened Wrappers
  import opened Collections
  import opened Text
  import opened Style
  import opened Rules

  const ExplanationLead: string := "Why this suggestion? "
  const RagPrefix: string := "RAG influence: "
  const RagNone: string := "RAG influence: None."

  /** The knowledge log: `None.` unless a snippet was used. */
  function RagLog(snippet: Option<Snippet>): string {
    match snippet
    case None => RagNone
    case Some(s) => RagPrefix + ("Used snippet ID " + IntToString(s.id) + " - '" + Excerpt(s) + "...'")
  }

  /** The explanation text with the style clause added when anything is
      left of the style log once its prefix is stripped. */
  function WithStyle(text: string, applied: string): string {
    var styleDetail := ReplaceAll(LogPrefix + applied, LogPrefix, "");
    if !IsBlank(styleDetail) then text + " Style applied: " + Trim(styleDetail) else text
  }

  /** The explanation text with the knowledge clause added when a snippet
      was used. */
  function WithKnowledge(text: string, snippet: Option<Snippet>): string {
    var ragLog := RagLog(snippet);
    var ragDetail := ReplaceAll(ragLog, RagPrefix, "");
    if !IsBlank(ragDetail) && ragLog != RagNone then text + " Knowledge used: " + Trim(ragDetail)
    else text
  }

  /** The explanation: the reason, then the style clause, then the knowledge
      clause. */
  function Explain(reason: string, applied: string, snippet: Option<Snippet>): string {
    WithKnowledge(WithStyle(ExplanationLead + reason, applied), snippet)
  }

  /** Stripping the prefix leaves something visible exactly when a stage
      wrote an entry. */
  lemma StyleDetailVisible(applied: string)
    requires WellFormedEntries(applied)
    ensures IsBlank(ReplaceAll(LogPrefix + applied, LogPrefix, "")) <==> applied == ""
  {
    ReplaceDropsLeading(LogPrefix, applied);
    if applied != "" {
      ReplaceKeepsFirst(applied, LogPrefix, "");
      NotBlankWhenLeadingVisible(ReplaceAll(applied, LogPrefix, ""));
    }
  }

  /** The knowledge clause is added exactly when a snippet was used. */
  lemma RagDetailShown(snippet: Option<Snippet>)
    ensures (!IsBlank(ReplaceAll(RagLog(snippet), RagPrefix, "")) && RagLog(snippet) != RagNone)
            <==> snippet.Some?
  {
    if snippet.Some? {
      var s := snippet.value;
      var rest := "Used snippet ID " + IntToString(s.id) + " - '" + Excerpt(s) + "...'";
      assert RagLog(snippet) == RagPrefix + rest;
      assert RagLog(snippet)[15] == 'U' != RagNone[15];
      ReplaceDropsLeading(RagPrefix, rest);
      ReplaceKeepsFirst(rest, RagPrefix, "");
      NotBlankWhenLeadingVisible(ReplaceAll(rest, RagPrefix, ""));
    }
  }

  /** The style clause as it appears in the explanation, empty when no
      stage fired. */
  function StyleText(applied: string): string {
    if applied == "" then "" else " Style applied: " + Trim(ReplaceAll(applied, LogPrefix, ""))
  }

  /** The knowledge clause as it appears in the explanation, empty when no
      snippet was used. */
  function KnowledgeText(snippet: Option<Snippet>): string {
    match snippet
    case None => ""
    case Some(_) => " Knowledge used: " + Trim(ReplaceAll(RagLog(snippet), RagPrefix, ""))
  }

  /** The style clause is added exactly when a stage wrote an entry. */
  lemma StyleClause(text: string, applied: string)
    requires WellFormedEntries(applied)
    ensures WithStyle(text, applied) == text + StyleText(applied)
  {
    StyleDetailVisible(applied);
    ReplaceDropsLeading(LogPrefix, applied);
    if applied == "" {
      assert WithStyle(text, applied) == text;
      assert text + "" == text;
    } else {
      var detail := Trim(ReplaceAll(applied, LogPrefix, ""));
      assert WithStyle(text, applied) == text + " Style applied: " + detail;
      Assoc(text, " Style applied: ", detail);
    }
  }

  /** The knowledge clause is added exactly when a snippet was used. */
  lemma KnowledgeClause(text: string, snippet: Option<Snippet>)
    ensures WithKnowledge(text, snippet) == text + KnowledgeText(snippet)
  {
    RagDetailShown(snippet);
    if snippet.None? {
      assert WithKnowledge(text, snippet) == text;
      assert text + "" == text;
    } else {
      var detail := Trim(ReplaceAll(RagLog(snippet), RagPrefix, ""));
      assert WithKnowledge(text, snippet) == text + " Knowledge used: " + detail;
      Assoc(text, " Knowledge used: ", detail);
    }
  }

  lemma Assoc(a: string, b: string, c: string)
    ensures a + b + c == a + (b + c)
  {
  }

  // How the two optional clauses sit after the reason, one lemma per
  // combination, stated for any strings of that shape.

  lemma LayoutStyleOnly(b: string, m: string, d: string)
    ensures b + (m + d) + "" == b + m + d
    ensures b <= b + (m + d) + "" && b + m <= b + (m + d) + ""
  {
    var e := b + (m + d) + "";
    assert e == b + m + d;
    assert e[..|b|] == b;
    assert e[..|b + m|] == b + m;
  }

  lemma LayoutKnowledgeOnly(b: string, m: string, d: string)
    ensures b <= b + "" + (m + d) && b + m <= b + "" + (m + d)
    ensures Contains(b + "" + (m + d), m)
  {
    var e := b + "" + (m + d);
    assert e == b + m + d;
    assert e[..|b|] == b;
    assert e[..|b + m|] == b + m;
    ContainsMiddle(b, m, d);
  }

  lemma LayoutBoth(b: string, m1: string, d1: string, m2: string, d2: string)
    ensures b <= b + (m1 + d1) + (m2 + d2) && b + m1 <= b + (m1 + d1) + (m2 + d2)
    ensures Contains(b + (m1 + d1) + (m2 + d2), m2)
  {
    var e := b + (m1 + d1) + (m2 + d2);
    var front := b + (m1 + d1);
    assert e == front + m2 + d2;
    ContainsMiddle(front, m2, d2);
    assert e[..|b|] == b;
    assert e[..|b + m1|] == b + m1;
  }

  /** The explanation always opens with the reason; the style clause follows
      it exactly when a style stage fired, and the knowledge clause is
      present exactly when a snippet was used. */
  lemma ExplanationClauses(reason: string, applied: string, snippet: Option<Snippet>)
    requires WellFormedEntries(applied)
    ensures ExplanationLead + reason <= Explain(reason, applied, snippet)
    ensures applied == "" && snippet.None? ==> Explain(reason, applied, snippet) == ExplanationLead + reason
    ensures applied != "" ==> ExplanationLead + reason + " Style applied: " <= Explain(reason, applied, snippet)
    ensures applied == "" && snippet.Some? ==>
      ExplanationLead + reason + " Knowledge used: " <= Explain(reason, applied, snippet)
    ensures snippet.Some? ==> Contains(Explain(reason, applied, snippet), " Knowledge used: ")
    ensures applied != "" && snippet.None? ==>
      Explain(reason, applied, snippet)
      == ExplanationLead + reason + " Style applied: " + Trim(ReplaceAll(applied, LogPrefix, ""))
  {
    var base := ExplanationLead + reason;
    var st := StyleText(applied);
    var kn := KnowledgeText(snippet);
    StyleClause(base, applied);
    KnowledgeClause(base + st, snippet);
    var sd := Trim(ReplaceAll(applied, LogPrefix, ""));
    var kd := Trim(ReplaceAll(RagLog(snippet), RagPrefix, ""));
    if applied == "" && snippet.None? {
      assert base + "" + "" == base;
    } else if snippet.None? {
      LayoutStyleOnly(base, " Style applied: ", sd);
    } else if applied == "" {
      LayoutKnowledgeOnly(base, " Knowledge used: ", kd);
    } else {
      LayoutBoth(base, " Style applied: ", sd, " Knowledge used: ", kd);
    }
  }

  /** A string is a prefix of itself followed by anything. */
  lemma PrefixOfConcat(a: string, b: string)
    ensures a <= a + b
  {
    assert (a + b)[..|a|] == a;
  }

  /** The candidate topics; the third names the first keyword, or hobbies. */
  function TopicPool(keywords: seq<string>): seq<string> {
    [ "Ask about their weekend plans",
      "Share a recent personal achievement",
      "Discuss a common interest (e.g., " + (if |keywords| > 0 then keywords[0] else "hobbies") + ")",
      "Talk about a new movie or show",
      "Ask a light-hearted hypothetical question" ]
  }

  /** An ordering of `n` positions, each used once: the outcome of
      `shuffled()`. */
  predicate IsShuffle(order: seq<nat>, n: nat) {
    && |order| == n
    && (forall i :: 0 <= i < n ==> order[i] < n)
    && NoDuplicates(order)
  }

  lemma PoolDistinct(keywords: seq<string>)
    ensures NoDuplicates(TopicPool(keywords))
  {
    var p := TopicPool(keywords);
    assert p[0][0] == 'A' && p[1][0] == 'S' && p[2][0] == 'D' && p[3][0] == 'T' && p[4][0] == 'A';
    assert |p[0]| != |p[4]|;
  }

  /** One or two distinct topics of the pool, in shuffled order. */
  function PredictTopics(keywords: seq<string>, order: seq<nat>, count: nat): (r: seq<string>)
    requires IsShuffle(order, 5) && 1 <= count <= 2
    ensures |r| == count
    ensures forall t :: t in r ==> t in TopicPool(keywords)
    ensures NoDuplicates(r)
  {
    var pool := TopicPool(keywords);
    PoolDistinct(keywords);
    var shuffled := seq(5, i requires 0 <= i < 5 => pool[order[i]]);
    assert forall i, j :: 0 <= i < j < 5 ==> shuffled[i] != shuffled[j] by {
      forall i, j | 0 <= i < j < 5 ensures shuffled[i] != shuffled[j] {
        assert order[i] != order[j];
      }
    }
    Take(shuffled, count)
  }
}
