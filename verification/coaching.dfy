/** The strategy post-processor of `getSuggestion`: a strategy-specific
    rewrite of the styled suggestion and the coaching tip. The rewrite is
    computed but never returned; the tip always comes from the strategy,
    so the emotion- and intent-based tip block after it is dead code. */
module Coaching {
  import opened Wrappers
  import opened Text
  import opened Strategy
  import opened Analysis

  /** `finalSuggestionText` and `mockCoachingTip` after the strategy
      dispatch. */
  datatype StrategyOutcome = StrategyOutcome(rewritten: string, tip: Option<string>)

  const BalancedTip: string := "Tip (Balanced): Maintain a good conversational flow, balancing listening and sharing."
  const DeepTip: string := "Tip (Deep): Look for opportunities to discuss values, dreams, or significant experiences."
  const SocialTip: string := "Tip (Social): Keep it light, explore shared activities, and be open to group interactions."

  /** The openness score as printed, `N/A` when absent. */
  function ScoreText(score: Option<int>): string {
    match score
    case Some(v) => IntToString(v)
    case None => "N/A"
  }

  const AcceleratedTipLead: string := "Tip (Accelerated): Openness score: "
  const AcceleratedTipTail: string := ". Be bold if high, or proceed with a casual invite if moderate."

  /** The Accelerated Connection tip shows the score. */
  function AcceleratedTip(score: Option<int>): (r: string)
    ensures score.Some? ==> Contains(r, IntToString(score.value))
  {
    ContainsMiddle(AcceleratedTipLead, ScoreText(score), AcceleratedTipTail);
    AcceleratedTipLead + ScoreText(score) + AcceleratedTipTail
  }

  /** The bold template for an openness score above 75. */
  function BoldInvite(v: int): string {
    "With their high openness (" + IntToString(v) + "/100), be bold: 'This is great, "
      + "let's meet up! How about [day]?'"
  }

  /** The casual template for an openness score below 50. */
  function CasualInvite(v: int): string {
    "Openness is moderate (" + IntToString(v) + "/100). A casual invite could work: "
      + "'Enjoying this chat! Fancy a coffee sometime soon?'"
  }

  const SpeedUpLead: string := "To speed things up: "
  const SpeedUpTail: string := " How about suggesting a quick call or meeting?"
  const SpeedUpSoonTail: string := " How about suggesting a quick call or meeting up soon?"

  /** The rewrite for a middling score quotes the styled text after the
      score. */
  function ModerateRewrite(text: string, v: int): (r: string)
    ensures Contains(r, text)
  {
    var lead := "Openness (" + IntToString(v) + "/100) looks good. " + SpeedUpLead;
    ContainsMiddle(lead, text, SpeedUpTail);
    lead + text + SpeedUpTail
  }

  /** The rewrite without a score quotes the styled text. */
  function UnscoredRewrite(text: string): (r: string)
    ensures Contains(r, text)
  {
    ContainsMiddle(SpeedUpLead, text, SpeedUpSoonTail);
    SpeedUpLead + text + SpeedUpSoonTail
  }

  /** The Accelerated Connection rewrite: a fixed template for a high or a
      low score, otherwise the styled text with a push to meet. */
  function AcceleratedRewrite(text: string, score: Option<int>): (r: string)
    ensures score.Some? && score.value > 75 ==> r == BoldInvite(score.value)
    ensures score.Some? && score.value < 50 ==> r == CasualInvite(score.value)
    ensures score.None? || 50 <= score.value <= 75 ==> Contains(r, text)
  {
    match score
    case Some(v) =>
      if v > 75 then BoldInvite(v)
      else if v < 50 then CasualInvite(v)
      else ModerateRewrite(text, v)
    case None => UnscoredRewrite(text)
  }

  /** The topic the Deep Connection rewrite asks about. */
  function DeepTopic(keywords: seq<string>): string {
    if |keywords| > 0 then keywords[0] else "values or future goals"
  }

  const DeepLead: string := "For a deeper connection: "
  const DeepAsk: string := " What are their thoughts on "

  /** The Deep Connection rewrite quotes the styled text and asks about the
      topic. */
  function DeepRewrite(text: string, topic: string): (r: string)
    ensures Contains(r, text) && Contains(r, topic)
  {
    ContainsMiddle(DeepLead, text, DeepAsk + topic + "?");
    ContainsMiddle(DeepLead + text + DeepAsk, topic, "?");
    assert DeepLead + text + DeepAsk + topic + "?" == DeepLead + text + (DeepAsk + topic + "?");
    DeepLead + text + DeepAsk + topic + "?"
  }

  const SocialLead: string := "For social exploration: "
  const SocialAsk: string := " Is this something they enjoy with friends or a way to meet new people?"

  /** The Social Exploration rewrite quotes the styled text. */
  function SocialRewrite(text: string): (r: string)
    ensures Contains(r, text)
  {
    ContainsMiddle(SocialLead, text, SocialAsk);
    SocialLead + text + SocialAsk
  }

  /** The `when (strategy)` dispatch on the styled text, given the tip set
      before it (`null` in `getSuggestion`). */
  function ApplyStrategy(text: string, a: DialogueAnalysis, strategy: DatingStrategy, tip: Option<string>): (r: StrategyOutcome)
    ensures r.tip.Some?
    ensures strategy == AcceleratedConnection && a.openness.Some? ==>
      Contains(r.tip.value, IntToString(a.openness.value))
    ensures strategy == AcceleratedConnection && a.openness.Some? && a.openness.value > 75 ==>
      r.rewritten == BoldInvite(a.openness.value)
    ensures strategy == AcceleratedConnection && a.openness.Some? && a.openness.value < 50 ==>
      r.rewritten == CasualInvite(a.openness.value)
    ensures strategy == AcceleratedConnection && (a.openness.None? || 50 <= a.openness.value <= 75) ==>
      Contains(r.rewritten, text)
    ensures strategy == DeepConnection ==>
      Contains(r.rewritten, text) && Contains(r.rewritten, DeepTopic(a.semantics.keywords))
    ensures strategy == SocialExploration ==> Contains(r.rewritten, text)
    ensures strategy == Balanced ==> r.rewritten == text && r.tip == Some(tip.GetOr(BalancedTip))
  {
    match strategy
    case AcceleratedConnection =>
      StrategyOutcome(AcceleratedRewrite(text, a.openness), Some(AcceleratedTip(a.openness)))
    case DeepConnection =>
      StrategyOutcome(DeepRewrite(text, DeepTopic(a.semantics.keywords)), Some(DeepTip))
    case SocialExploration =>
      StrategyOutcome(SocialRewrite(text), Some(SocialTip))
    case Balanced =>
      StrategyOutcome(text, Some(tip.GetOr(BalancedTip)))
  }

  function AnalysisTip(a: DialogueAnalysis): string {
    var byEmotion :=
      if a.emotion.primary == "happy" then "Positive vibe! Now's a great time to share more or ask something fun."
      else if a.emotion.primary == "curious" then "They seem curious. Encourage their questions or ask one back!"
      else if a.emotion.primary == "sad" || a.emotion.primary == "frustrated" then
        "Sense some negativity. Tread carefully, offer support if appropriate."
      else "Keep the conversation balanced and engaging.";
    if a.intent.primary == "making_plans" && a.intent.confidence > 0.6 then
      "Looks like there's interest in meeting up. Consider suggesting a concrete idea if the moment feels right."
    else if a.intent.primary == "info_seeking" && a.intent.confidence > 0.6 then
      "They're asking questions. Be open and answer thoughtfully to build rapport."
    else byEmotion
  }

  /** The coaching tip returned: the dispatch tip, or the analysis tip if
      the dispatch left none. */
  function FinalTip(o: StrategyOutcome, a: DialogueAnalysis): Option<string> {
    if o.tip.None? then Some(AnalysisTip(a)) else o.tip
  }

  /** The returned tip is never null, the analysis block never supplies it,
      and it depends on nothing but the strategy and, under Accelerated
      Connection, the openness score. */
  lemma TipDependsOnlyOnStrategy(t1: string, a1: DialogueAnalysis, t2: string, a2: DialogueAnalysis,
                                 strategy: DatingStrategy)
    requires a1.openness == a2.openness
    ensures FinalTip(ApplyStrategy(t1, a1, strategy, None), a1).Some?
    ensures FinalTip(ApplyStrategy(t1, a1, strategy, None), a1) == ApplyStrategy(t1, a1, strategy, None).tip
    ensures FinalTip(ApplyStrategy(t1, a1, strategy, None), a1) == FinalTip(ApplyStrategy(t2, a2, strategy, None), a2)
  {
  }
}
