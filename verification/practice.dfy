/** Practice mode of the simulated AI service: the persona's opening line
    and its canned reply with coaching feedback on the user's message. */
module Practice {
  import opened Wrappers
  import opened Collections
  import opened Text
  import opened Persona

  /** A line of the practice transcript. */
  datatype PracticeMessage = PracticeMessage(sender: string, text: string, isFeedback: bool)

  /** The persona's reply and the feedback on the user's message. */
  datatype PracticeTurn = PracticeTurn(personaResponse: string, feedback: Option<string>)

  /** The winking face emoji, U+1F609. */
  const Wink: string := "\U{1F609}"

  /** `String.length`: the number of UTF-16 code units, so a character
      outside the Basic Multilingual Plane counts twice. */
  function Utf16Length(s: string): (r: nat)
    ensures |s| <= r <= 2 * |s|
    decreases |s|
  {
    if |s| == 0 then 0
    else Utf16Length(s[..|s| - 1]) + (if s[|s| - 1] as int > 0xFFFF then 2 else 1)
  }

  const GeneralOpening: string := "Hey there! " + "What's on your mind today?"
  const FlirtyOpening: string := "Well hello there... " + (Wink + " Ready to dive into some fun chat?")
  const SeriousOpening: string :=
    "Hello. " + "I'm interested in having a meaningful conversation. What's something you're passionate about?"

  function OpeningLine(p: PracticePersona): string {
    match p
    case GeneralChat => GeneralOpening
    case FlirtyAccelerated => FlirtyOpening
    case SeriousDeep => SeriousOpening
  }

  /** Every persona opens with a visible character, and each has its own
      line. */
  lemma OpeningLines(p: PracticePersona, q: PracticePersona)
    ensures !IsBlank(OpeningLine(p))
    ensures p != q ==> OpeningLine(p) != OpeningLine(q)
  {
    assert |GeneralOpening| == 37 && |FlirtyOpening| == 55 && |SeriousOpening| == 100;
    NotBlankWithVisibleHead("Hey there! ", "What's on your mind today?");
    NotBlankWithVisibleHead("Well hello there... ", Wink + " Ready to dive into some fun chat?");
    NotBlankWithVisibleHead("Hello. ",
      "I'm interested in having a meaningful conversation. What's something you're passionate about?");
  }

  /** The part of the user's message the persona quotes. */
  function Quote(input: string): (r: string)
    ensures |r| <= 20 && r <= input
  {
    Take(input, 20)
  }

  const ShortNote: string := "A bit short, but okay! Try elaborating more next time."
  const QuestionNote: string := "Good use of a question to keep it interactive!"
  const SolidNote: string := "Solid reply!"
  const WinkNote: string := "Short and sweet! Maybe add a playful emoji next time? " + Wink
  const ChaseNote: string := "Cutting to the chase, are we? Confident!"
  const IntrigueNote: string := "Intriguing... keep that energy up!"
  const ExpandNote: string := "Thanks for sharing. To go deeper, perhaps expand on your thoughts a bit more?"
  const PerspectiveNote: string := "Great job sharing your perspective thoughtfully!"
  const StartingPointNote: string := "That's a good starting point for a deeper discussion."

  function GeneralFeedback(input: string): string {
    if Utf16Length(input) < 10 then ShortNote
    else if Contains(input, "?") then QuestionNote
    else SolidNote
  }

  function FlirtyFeedback(input: string): string {
    if Utf16Length(input) < 15 && !Contains(input, Wink) then WinkNote
    else if Contains(input, "date") || Contains(input, "meet") then ChaseNote
    else IntrigueNote
  }

  function SeriousFeedback(input: string): string {
    if Utf16Length(input) < 20 then ExpandNote
    else if Contains(input, "feel") || Contains(input, "think") || Contains(input, "believe") then PerspectiveNote
    else StartingPointNote
  }

  /** The feedback note for the persona. */
  function Feedback(input: string, p: PracticePersona): string {
    match p
    case GeneralChat => GeneralFeedback(input)
    case FlirtyAccelerated => FlirtyFeedback(input)
    case SeriousDeep => SeriousFeedback(input)
  }

  /** The quoted message as it appears in every reply. */
  function Quoted(input: string): string {
    "'" + Quote(input) + "...'"
  }

  const GeneralReplyLead: string := "That's an interesting point about "
  const GeneralReplyTail: string :=
    ". I wonder, what's your take on [related topic like 'current events' or 'hobbies']?"
  const FlirtyReplyLead: string := "Ooh, "
  const FlirtyReplyTail: string := " you say? " + Wink + " That's bold. I like it. What's your wildest dream date?"
  const SeriousReplyLead: string := "I appreciate you sharing that about "
  const SeriousReplyTail: string :=
    ". It makes me think about [deeper concept like 'the nature of connection' or 'personal growth']. How do you see it?"

  /** The persona's canned reply around the quoted message. */
  function Reply(input: string, p: PracticePersona): string {
    match p
    case GeneralChat => GeneralReplyLead + Quoted(input) + GeneralReplyTail
    case FlirtyAccelerated => FlirtyReplyLead + Quoted(input) + FlirtyReplyTail
    case SeriousDeep => SeriousReplyLead + Quoted(input) + SeriousReplyTail
  }

  /** Every reply quotes the start of the message. */
  lemma ReplyQuotes(input: string, p: PracticePersona)
    ensures Contains(Reply(input, p), Quoted(input))
  {
    var q := Quoted(input);
    match p {
      case GeneralChat => ContainsMiddle(GeneralReplyLead, q, GeneralReplyTail);
      case FlirtyAccelerated => ContainsMiddle(FlirtyReplyLead, q, FlirtyReplyTail);
      case SeriousDeep => ContainsMiddle(SeriousReplyLead, q, SeriousReplyTail);
    }
  }

  /** `getPracticeResponse`: the conversation history is accepted and not
      consulted. The reply quotes the first twenty characters of the
      message, and there is always feedback. */
  function Respond(input: string, p: PracticePersona, history: seq<PracticeMessage>): (r: PracticeTurn)
    ensures r.feedback.Some?
    ensures Contains(r.personaResponse, Quoted(input))
    ensures r.feedback.value in Notes(p)
  {
    ReplyQuotes(input, p);
    PracticeTurn(Reply(input, p), Some(Feedback(input, p)))
  }

  /** The three notes a persona can give. */
  function Notes(p: PracticePersona): set<string> {
    match p
    case GeneralChat => {ShortNote, QuestionNote, SolidNote}
    case FlirtyAccelerated => {WinkNote, ChaseNote, IntrigueNote}
    case SeriousDeep => {ExpandNote, PerspectiveNote, StartingPointNote}
  }

  /** The feedback tells which persona gave it: no note is shared. */
  lemma FeedbackIdentifiesPersona(input: string, p: PracticePersona, q: PracticePersona)
    ensures Feedback(input, p) in Notes(q) <==> p == q
  {
    FeedbackNotesDistinct();
  }

  /** The nine notes are pairwise different: no two have the same length. */
  lemma FeedbackNotesDistinct()
    ensures |ShortNote| == 54 && |QuestionNote| == 46 && |SolidNote| == 12
    ensures |WinkNote| == 55 && |ChaseNote| == 40 && |IntrigueNote| == 34
    ensures |ExpandNote| == 77 && |PerspectiveNote| == 48 && |StartingPointNote| == 53
  {
  }

  /** General Chat: short messages are told so, longer ones are praised for
      a question or called solid. */
  lemma GeneralFeedbackCases(input: string)
    ensures GeneralFeedback(input) == ShortNote <==> Utf16Length(input) < 10
    ensures GeneralFeedback(input) == QuestionNote <==> Utf16Length(input) >= 10 && '?' in input
    ensures GeneralFeedback(input) == SolidNote <==> Utf16Length(input) >= 10 && '?' !in input
  {
    ContainsChar(input, '?');
  }

  /** Flirty: a short message without a wink is nudged to add one; otherwise
      talk of a date or meeting is called confident. */
  lemma FlirtyFeedbackCases(input: string)
    ensures FlirtyFeedback(input) == WinkNote <==> Utf16Length(input) < 15 && '\U{1F609}' !in input
    ensures FlirtyFeedback(input) == ChaseNote <==>
      (Utf16Length(input) >= 15 || '\U{1F609}' in input) && (Contains(input, "date") || Contains(input, "meet"))
    ensures FlirtyFeedback(input) == IntrigueNote <==>
      (Utf16Length(input) >= 15 || '\U{1F609}' in input) && !Contains(input, "date") && !Contains(input, "meet")
  {
    ContainsChar(input, '\U{1F609}');
  }

  /** Serious: messages under twenty code units are asked to expand;
      longer ones are praised for sharing a feeling, thought or belief. */
  lemma SeriousFeedbackCases(input: string)
    ensures SeriousFeedback(input) == ExpandNote <==> Utf16Length(input) < 20
    ensures SeriousFeedback(input) == PerspectiveNote <==>
      Utf16Length(input) >= 20 && (Contains(input, "feel") || Contains(input, "think") || Contains(input, "believe"))
    ensures SeriousFeedback(input) == StartingPointNote <==>
      Utf16Length(input) >= 20 && !Contains(input, "feel") && !Contains(input, "think") && !Contains(input, "believe")
  {
  }

  /** The wink counts as two code units, so a message of thirteen plain
      characters and a wink is no longer short. */
  lemma WinkIsTwoUnits(s: string)
    ensures Utf16Length(s + Wink) == Utf16Length(s) + 2
  {
    assert (s + Wink)[..|s + Wink| - 1] == s;
  }

  /** "hi" to the flirty persona is short and carries no wink. */
  lemma FlirtyHiScenario()
    ensures Respond("hi", FlirtyAccelerated, []).feedback == Some(WinkNote)
  {
    ContainsChar("hi", '\U{1F609}');
    assert Utf16Length("hi") <= 4;
  }
}
