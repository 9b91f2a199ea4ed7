/** The practice-session view model: the selected persona, the transcript,
    and the session-active and persona-thinking flags. Each operation that
    launches a service call is split into the synchronous part that runs
    on the call and the completion that runs when the call returns, whose
    result (a value or an exception message) is a parameter. */
module Session {
  import opened Wrappers
  import opened Text
  import opened Persona
  import opened Practice

  datatype SessionState = SessionState(
    persona: PracticePersona,
    transcript: seq<PracticeMessage>,
    active: bool,
    thinking: bool)

  /** A new view model. */
  const Fresh: SessionState := SessionState(GeneralChat, [], false, false)

  const UserSender: string := "User"
  const CoachSender: string := "Coach"
  const SystemSender: string := "System"

  /** `startOrRestartSession`, up to the launch: the transcript is cleared
      and the session is active and waiting for the opening line. */
  function BeginStart(s: SessionState): (r: SessionState)
    ensures r.transcript == [] && r.active && r.thinking && r.persona == s.persona
  {
    s.(transcript := [], active := true, thinking := true)
  }

  /** The opening line arrives (the persona selected at that moment speaks),
      or the call failed and the session ends with a system message. */
  function CompleteStart(s: SessionState, outcome: Outcome<string>): (r: SessionState)
    ensures |r.transcript| == 1 && !r.thinking && r.persona == s.persona
    ensures r.active <==> s.active && outcome.Ok?
    ensures r.transcript[0].isFeedback <==> outcome.Failed?
    ensures outcome.Ok? ==> r.transcript == [PracticeMessage(DisplayName(s.persona), outcome.value, false)]
    ensures outcome.Failed? ==>
      r.transcript[0] == PracticeMessage(SystemSender, "Error starting session: " + outcome.message, true)
  {
    match outcome
    case Ok(line) =>
      s.(transcript := [PracticeMessage(DisplayName(s.persona), line, false)], thinking := false)
    case Failed(m) =>
      s.(transcript := [PracticeMessage(SystemSender, "Error starting session: " + m, true)],
         active := false, thinking := false)
  }

  /** `selectPersona`: an active session restarts with the new persona. */
  function SelectPersona(s: SessionState, p: PracticePersona): (r: SessionState)
    ensures r.persona == p && r.active == s.active
    ensures !s.active ==> r.transcript == s.transcript && r.thinking == s.thinking
    ensures s.active ==> r.transcript == [] && r.thinking
  {
    var t := s.(persona := p);
    if s.active then BeginStart(t) else t
  }

  /** `sendUserReply` goes ahead only in an active session with a visible
      reply. */
  predicate ReplyAccepted(s: SessionState, reply: string) {
    s.active && !IsBlank(reply)
  }

  /** `sendUserReply`, up to the launch: the user's line is appended and the
      persona is thinking; an ignored reply changes nothing. */
  function BeginReply(s: SessionState, reply: string): (r: SessionState)
    ensures !ReplyAccepted(s, reply) ==> r == s
    ensures ReplyAccepted(s, reply) ==>
      && r.transcript == s.transcript + [PracticeMessage(UserSender, reply, false)]
      && r.thinking && r.active && r.persona == s.persona
  {
    if !ReplyAccepted(s, reply) then s
    else s.(transcript := s.transcript + [PracticeMessage(UserSender, reply, false)], thinking := true)
  }

  /** The lines a completed reply appends: the persona's line, then the
      coach's feedback if there is any; or a system line on failure. */
  function ReplyLines(persona: PracticePersona, outcome: Outcome<PracticeTurn>): (r: seq<PracticeMessage>)
    ensures 1 <= |r| <= 2
    ensures outcome.Ok? ==> r[0] == PracticeMessage(DisplayName(persona), outcome.value.personaResponse, false)
    ensures outcome.Ok? ==> (|r| == 2 <==> outcome.value.feedback.Some?)
    ensures outcome.Ok? && outcome.value.feedback.Some? ==>
      r[1] == PracticeMessage(CoachSender, outcome.value.feedback.value, true)
    ensures outcome.Failed? ==>
      r == [PracticeMessage(SystemSender, "Error getting response: " + outcome.message, true)]
  {
    match outcome
    case Ok(turn) =>
      [PracticeMessage(DisplayName(persona), turn.personaResponse, false)]
        + (match turn.feedback
           case Some(f) => [PracticeMessage(CoachSender, f, true)]
           case None => [])
    case Failed(m) =>
      [PracticeMessage(SystemSender, "Error getting response: " + m, true)]
  }

  /** The reply call returns: its lines are appended and the persona stops
      thinking. */
  function CompleteReply(s: SessionState, outcome: Outcome<PracticeTurn>): (r: SessionState)
    ensures |r.transcript| > |s.transcript| && r.transcript[..|s.transcript|] == s.transcript
    ensures r.transcript == s.transcript + ReplyLines(s.persona, outcome)
    ensures !r.thinking && r.active == s.active && r.persona == s.persona
  {
    var lines := ReplyLines(s.persona, outcome);
    assert (s.transcript + lines)[..|s.transcript|] == s.transcript;
    s.(transcript := s.transcript + lines, thinking := false)
  }

  /** Everything that can happen to the view model. */
  datatype Event =
    | Select(p: PracticePersona)
    | StartSession
    | StartDone(opening: Outcome<string>)
    | SendReply(reply: string)
    | ReplyDone(turn: Outcome<PracticeTurn>)

  function Step(s: SessionState, e: Event): SessionState {
    match e
    case Select(p) => SelectPersona(s, p)
    case StartSession => BeginStart(s)
    case StartDone(o) => CompleteStart(s, o)
    case SendReply(reply) => BeginReply(s, reply)
    case ReplyDone(o) => CompleteReply(s, o)
  }

  function Run(s: SessionState, es: seq<Event>): SessionState
    decreases |es|
  {
    if |es| == 0 then s else Run(Step(s, es[0]), es[1..])
  }

  /** A persona never speaks as the user, the coach or the system. */
  lemma PersonaSenderReserved(p: PracticePersona)
    ensures DisplayName(p) != UserSender && DisplayName(p) != CoachSender && DisplayName(p) != SystemSender
  {
  }

  /** The user's lines are visible text and never feedback; feedback comes
      only from the coach or the system. */
  predicate SendersConsistent(t: seq<PracticeMessage>) {
    && (forall i :: 0 <= i < |t| && t[i].sender == UserSender ==> !IsBlank(t[i].text) && !t[i].isFeedback)
    && (forall i :: 0 <= i < |t| && t[i].isFeedback ==> t[i].sender == CoachSender || t[i].sender == SystemSender)
  }

  /** The view model's invariant: consistent senders, and a session that is
      active and not waiting always shows at least one line. */
  predicate Valid(s: SessionState) {
    && SendersConsistent(s.transcript)
    && (s.active && !s.thinking ==> |s.transcript| > 0)
  }

  lemma AppendConsistent(t: seq<PracticeMessage>, u: seq<PracticeMessage>)
    requires SendersConsistent(t) && SendersConsistent(u)
    ensures SendersConsistent(t + u)
  {
    forall i | 0 <= i < |t + u|
      ensures (t + u)[i] == if i < |t| then t[i] else u[i - |t|]
    {
    }
  }

  lemma ReplyLinesConsistent(p: PracticePersona, outcome: Outcome<PracticeTurn>)
    ensures SendersConsistent(ReplyLines(p, outcome))
  {
    PersonaSenderReserved(p);
  }

  /** Every event keeps the invariant. */
  lemma StepKeepsValid(s: SessionState, e: Event)
    requires Valid(s)
    ensures Valid(Step(s, e))
  {
    PersonaSenderReserved(s.persona);
    match e {
      case Select(p) =>
      case StartSession =>
      case StartDone(o) =>
      case SendReply(reply) =>
        if ReplyAccepted(s, reply) {
          AppendConsistent(s.transcript, [PracticeMessage(UserSender, reply, false)]);
        }
      case ReplyDone(o) =>
        ReplyLinesConsistent(s.persona, o);
        AppendConsistent(s.transcript, ReplyLines(s.persona, o));
    }
  }

  /** The invariant holds after any sequence of events from a valid state,
      in particular from a new view model. */
  lemma {:induction false} RunKeepsValid(s: SessionState, es: seq<Event>)
    requires Valid(s)
    ensures Valid(Run(s, es))
    decreases |es|
  {
    if |es| > 0 {
      StepKeepsValid(s, es[0]);
      RunKeepsValid(Step(s, es[0]), es[1..]);
    }
  }

  lemma FreshIsValid()
    ensures Valid(Fresh)
  {
  }

  /** Starting a session against the simulated service shows exactly the
      persona's opening line. */
  lemma StartWithService(s: SessionState)
    ensures var r := CompleteStart(BeginStart(s), Ok(OpeningLine(s.persona)));
      && r.transcript == [PracticeMessage(DisplayName(s.persona), OpeningLine(s.persona), false)]
      && r.active && !r.thinking
  {
  }

  /** An accepted reply answered by the simulated service adds exactly three
      lines: the user's, the persona's, and the coach's feedback. */
  lemma ReplyWithService(s: SessionState, reply: string)
    requires ReplyAccepted(s, reply)
    ensures var b := BeginReply(s, reply);
      var turn := Respond(reply, s.persona, b.transcript);
      var r := CompleteReply(b, Ok(turn));
      && |r.transcript| == |s.transcript| + 3
      && r.transcript[..|s.transcript|] == s.transcript
      && r.transcript[|s.transcript|] == PracticeMessage(UserSender, reply, false)
      && r.transcript[|s.transcript| + 1] == PracticeMessage(DisplayName(s.persona), turn.personaResponse, false)
      && r.transcript[|s.transcript| + 2] == PracticeMessage(CoachSender, turn.feedback.value, true)
  {
    var b := BeginReply(s, reply);
    var turn := Respond(reply, s.persona, b.transcript);
    var lines := ReplyLines(s.persona, Ok(turn));
    assert lines == [PracticeMessage(DisplayName(s.persona), turn.personaResponse, false),
                     PracticeMessage(CoachSender, turn.feedback.value, true)];
  }
}
