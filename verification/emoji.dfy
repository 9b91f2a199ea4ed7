/** The emotion badge of the main screen: an emotion label, compared
    case-insensitively, picks one of five emoji. */
module Emoji {
  import opened Wrappers
  import opened Text
  import opened Analysis

  const Smiling: string := "\U{1F60A}"
  const Thinking: string := "\U{1F914}"
  const Worried: string := "\U{1F61F}"
  const Surprised: string := "\U{1F62E}"
  const SpeechBubble: string := "\U{1F4AC}"

  const Positive: set<string> := {"happy", "joyful", "excited"}
  const Negative: set<string> := {"sad", "frustrated", "angry"}

  /** `getEmotionEmoji(emotion)`: the label is lower-cased, a null label
      falls through to the default speech bubble. */
  function EmotionEmoji(emotion: Option<string>): (r: string)
    ensures r in {Smiling, Thinking, Worried, Surprised, SpeechBubble}
    ensures emotion.None? ==> r == SpeechBubble
  {
    match emotion
    case None => SpeechBubble
    case Some(e) =>
      var l := Lower(e);
      if l in Positive then Smiling
      else if l == "curious" then Thinking
      else if l in Negative then Worried
      else if l == "surprised" then Surprised
      else SpeechBubble
  }

  /** The mapping by classes, both directions: each emoji is chosen exactly
      for the labels of its class, and the speech bubble for everything
      else, "neutral" included. */
  lemma EmojiClasses(e: string)
    ensures EmotionEmoji(Some(e)) == Smiling <==> Lower(e) in Positive
    ensures EmotionEmoji(Some(e)) == Thinking <==> Lower(e) == "curious"
    ensures EmotionEmoji(Some(e)) == Worried <==> Lower(e) in Negative
    ensures EmotionEmoji(Some(e)) == Surprised <==> Lower(e) == "surprised"
    ensures EmotionEmoji(Some(e)) == SpeechBubble <==>
      Lower(e) !in Positive && Lower(e) !in Negative && Lower(e) != "curious" && Lower(e) != "surprised"
  {
    EmojisDistinct();
  }

  /** The five emoji are pairwise different. */
  lemma EmojisDistinct()
    ensures |{Smiling, Thinking, Worried, Surprised, SpeechBubble}| == 5
  {
    assert Smiling[0] != Thinking[0] && Smiling[0] != Worried[0];
    assert Smiling[0] != Surprised[0] && Smiling[0] != SpeechBubble[0];
    assert Thinking[0] != Worried[0] && Thinking[0] != Surprised[0];
    assert Thinking[0] != SpeechBubble[0] && Worried[0] != Surprised[0];
    assert Worried[0] != SpeechBubble[0] && Surprised[0] != SpeechBubble[0];
  }

  /** Case does not matter: a label and its lower-cased form get the same
      emoji, so "HAPPY" and "Happy" both smile. */
  lemma CaseInsensitive(e: string)
    ensures EmotionEmoji(Some(e)) == EmotionEmoji(Some(Lower(e)))
  {
    LowerIdempotent(e);
  }

  lemma UpperCaseHappySmiles()
    ensures EmotionEmoji(Some("HAPPY")) == Smiling
  {
    assert Lower("HAPPY") == "happy";
  }

  /** Of the labels the analyzer can draw, only "happy" and "curious" get a
      face; "neutral" and "thoughtful" show the speech bubble, and the
      worried face never appears. */
  lemma DrawnLabelEmoji()
    ensures EmotionEmoji(Some(EmotionLabels[0])) == Smiling
    ensures EmotionEmoji(Some(EmotionLabels[1])) == Thinking
    ensures EmotionEmoji(Some(EmotionLabels[2])) == SpeechBubble
    ensures EmotionEmoji(Some(EmotionLabels[3])) == SpeechBubble
    ensures forall i :: 0 <= i < |EmotionLabels| ==> EmotionEmoji(Some(EmotionLabels[i])) != Worried
  {
    assert Lower("happy") == "happy";
    assert Lower("curious") == "curious";
    assert Lower("neutral") == "neutral";
    assert Lower("thoughtful") == "thoughtful";
    EmojisDistinct();
  }
}
