# IntelliMate core in Dafny

IntelliMate is an Android dating-conversation assistant. This project models
its decision logic as pure Dafny functions over immutable datatypes and
proves properties of them. It covers:

- **The simulated suggestion engine** (`getSuggestion`). It runs these steps
  in order:
  1. analysis: the keywords and the openness score;
  2. five rules in strict precedence: a knowledge snippet, a strong emotion,
     a strong intent, an interest keyword, and a generic fallback;
  3. the style transformer: formality, then humor, then enthusiasm;
  4. the dating-strategy dispatch, which produces the coaching tip;
  5. the explanation string and the predicted next topics.
- **The practice engine**: opening lines, persona replies and feedback
  heuristics.
- **The practice-session state machine** of `PracticeViewModel`.
- **The adapter registry** of `MdaAdapterManager`.
- **The bounded pre-order text walk** of the simulated dating-app adapter,
  together with its result/null decision.
- **The enum parsers** `DatingStrategy.fromString` and
  `PracticePersona.fromDisplayName`.
- **The style-preference decoder** with its single-key writes.
- **The `getEmotionEmoji` mapping.**

Every random draw of the source becomes an explicit input, constrained by
`Suggestion.ValidDraws`:

| draw | range |
|---|---|
| emotion label and intensity | index < 4, intensity in [0.4, 1.0) |
| intent label and confidence | index < 4, confidence in [0.5, 1.0) |
| openness score | [30, 95] |
| fallback line | index < 5 |
| topic shuffle | a permutation of 0..4 |
| topic count | 1 or 2 |

The latest knowledge snippet is an `Option<Snippet>` parameter instead of a
repository call.

Modules follow the program's structure:

| module | models |
|---|---|
| `Analysis` | the analysis step |
| `Rules` | the rule chain |
| `Style` | the style transformer |
| `Coaching` | the strategy dispatch and the tip |
| `Explanation` | the explanation and the next topics |
| `Suggestion` | the whole `getSuggestion` pipeline |
| `Practice` | the practice engine |
| `Session` | `PracticeViewModel` |
| `Registry` | `MdaAdapterManager` |
| `NodeText` | the adapter's text collection |
| `Preferences` | `StylePreferencesRepository` |
| `Emoji` | `getEmotionEmoji` |
| `Strategy`, `Persona` | the two enums |

Three helper modules model the Kotlin library operations the source relies
on:

- `Wrappers`: nullable values (`Option`) and a call that may throw
  (`Outcome`).
- `Collections`: `take`, `find` and `distinct`.
- `Text`: `split`, `joinToString`, `replace`, `trim`, `lowercase`,
  `isBlank` and `contains`.

`Scenarios` is not a library model: it holds worked examples of
`getSuggestion` on concrete inputs and draws.

Where the code and its design description disagree, the model follows the
code:

- **The keyword rule picks the last matching keyword.** `return@forEach`
  ends only the current lambda call, not the loop, so the last matching
  interest keyword wins, not the first (`Rules.ScanPicksLastInterest`,
  `Scenarios.LastInterestWinsScenario`).
- **The strategy rewrite is discarded.** The suggestion returned is the
  style output. The strategy rewrite (`finalSuggestionText`), including the
  bold Accelerated invitation, is computed but never returned
  (`Suggestion.SuggestionIgnoresStrategy`,
  `Scenarios.BoldInviteNotReturned`).
- **Calm style rewrites the humor suffix.** The high-humor joke contains
  "arrays! ;)", so under the "Calm" enthusiasm its '!' is rewritten too. The joke
  suffix survives verbatim only for the other enthusiasm settings
  (`Style.StyleOutcome`).
- **The sad/frustrated rule never fires.** The analyzer only draws
  happy/curious/neutral/thoughtful, so this rule is unreachable, and so is
  the worried emoji for a drawn label (`Analysis.NoNegativeEmotionDrawn`,
  `Emoji.DrawnLabelEmoji`).
- **The emotion/intent tip block is unreachable.** Every strategy sets a
  tip before that block runs (`Coaching.TipDependsOnlyOnStrategy`).

## Model

| member | source | states |
|---|---|---|
| Analysis.LeadingTokens | app/src/main/java/com/intellimate/intellimate/core/ai/impl/SimulatedAiModelService.kt:131 | The tokens are exactly the first four pieces (or all, if fewer) of the lower-cased input split at single spaces, and no token contains a space. |
| Analysis.FilterMembers | app/src/main/java/com/intellimate/intellimate/core/ai/impl/SimulatedAiModelService.kt:131 | A token survives the length filter exactly when it occurs in the input list and is longer than three characters and not blank. |
| Analysis.Keywords | app/src/main/java/com/intellimate/intellimate/core/ai/impl/SimulatedAiModelService.kt:131 | At most four keywords, none repeated; a word is a keyword iff it is one of the leading tokens and passes the filter, so every keyword is longer than three characters and has no space. |
| Analysis.DistinctFilterIsFirstCandidates | app/src/main/java/com/intellimate/intellimate/core/ai/impl/SimulatedAiModelService.kt:131 | `filter` followed by `distinct` equals an independent reference: the first occurrence of each qualifying token, in input order. |
| Analysis.KeywordsKeepOrder | app/src/main/java/com/intellimate/intellimate/core/ai/impl/SimulatedAiModelService.kt:131 | The keywords are the first occurrences of the qualifying leading tokens in their original order. |
| Analysis.KeywordsIgnoreCase | app/src/main/java/com/intellimate/intellimate/core/ai/impl/SimulatedAiModelService.kt:131 | Lower-casing the input first does not change the keywords. |
| Analysis.Summary | app/src/main/java/com/intellimate/intellimate/core/ai/impl/SimulatedAiModelService.kt:132 | The summary starts with "User mentioned: ", ends with "...", and between them holds exactly the first 30 characters of the input (all of it if shorter), so it has 19 to 49 characters. |
| Analysis.SummaryReadsFirst30 | app/src/main/java/com/intellimate/intellimate/core/ai/impl/SimulatedAiModelService.kt:132 | Once the input has 30 characters, anything appended to it leaves the summary unchanged. |
| Analysis.SummaryQuotesShortInput | app/src/main/java/com/intellimate/intellimate/core/ai/impl/SimulatedAiModelService.kt:132 | An input of at most 30 characters is quoted whole between the lead and the "..." tail. |
| Analysis.NoNegativeEmotionDrawn | app/src/main/java/com/intellimate/intellimate/core/ai/impl/SimulatedAiModelService.kt:122-125 | Neither "sad" nor "frustrated" can be drawn as the simulated emotion, so the sad/frustrated rule never fires. |
| Analysis.Analyze | app/src/main/java/com/intellimate/intellimate/core/ai/impl/SimulatedAiModelService.kt:116-140 | The openness score is present iff the strategy is Accelerated Connection and then lies in [30, 95]; the drawn emotion and intent labels and their strengths stay in their ranges; the keywords are those of the input. |
| Rules.Excerpt | app/src/main/java/com/intellimate/intellimate/core/ai/impl/SimulatedAiModelService.kt:155 | The snippet excerpt is a prefix of the snippet text of at most 30 characters. |
| Rules.FallbackDraft | app/src/main/java/com/intellimate/intellimate/core/ai/impl/SimulatedAiModelService.kt:196-204 | With keywords the fallback names the first keyword; without keywords it is the plain template around the chosen generic line. |
| Rules.LastInterest | app/src/main/java/com/intellimate/intellimate/core/ai/impl/SimulatedAiModelService.kt:187-195 | Returns an interest keyword of the list after which no other interest keyword follows, and nothing iff the list holds no interest keyword. |
| Rules.LastInterestFront | app/src/main/java/com/intellimate/intellimate/core/ai/impl/SimulatedAiModelService.kt:187-195 | The last interest keyword of a list is that of its tail if there is one, otherwise its head when the head is an interest. |
| Rules.ScanPicksLastInterest | app/src/main/java/com/intellimate/intellimate/core/ai/impl/SimulatedAiModelService.kt:187-195 | The non-breaking `forEach` leaves the draft for the last interest keyword, and leaves the incoming draft untouched when no keyword is an interest. |
| Rules.KnowledgeNotBlank | app/src/main/java/com/intellimate/intellimate/core/ai/impl/SimulatedAiModelService.kt:154-158 | The knowledge template is never blank, so no later rule overrides it. |
| Rules.EmotionNotBlank | app/src/main/java/com/intellimate/intellimate/core/ai/impl/SimulatedAiModelService.kt:164-173 | A strong-emotion draft is never blank. |
| Rules.IntentNotBlank | app/src/main/java/com/intellimate/intellimate/core/ai/impl/SimulatedAiModelService.kt:176-185 | A strong-intent draft is never blank. |
| Rules.KeywordNotBlank | app/src/main/java/com/intellimate/intellimate/core/ai/impl/SimulatedAiModelService.kt:189-192 | A keyword draft is never blank. |
| Rules.FallbackNotBlank | app/src/main/java/com/intellimate/intellimate/core/ai/impl/SimulatedAiModelService.kt:196-204 | The fallback draft is never blank, so a base suggestion always has text. |
| Rules.Settled | app/src/main/java/com/intellimate/intellimate/core/ai/impl/SimulatedAiModelService.kt:175-205 | Once an earlier rule has produced non-blank text, the intent, keyword and fallback steps leave it unchanged. |
| Rules.KnowledgeFirst | app/src/main/java/com/intellimate/intellimate/core/ai/impl/SimulatedAiModelService.kt:151-160 | A knowledge snippet decides the base suggestion whatever the emotion and intent. |
| Rules.EmotionSecond | app/src/main/java/com/intellimate/intellimate/core/ai/impl/SimulatedAiModelService.kt:162-174 | Without a snippet a strong emotion decides the base suggestion. |
| Rules.IntentThird | app/src/main/java/com/intellimate/intellimate/core/ai/impl/SimulatedAiModelService.kt:175-186 | Without a snippet or strong emotion a strong intent decides the base suggestion. |
| Rules.KeywordOrFallback | app/src/main/java/com/intellimate/intellimate/core/ai/impl/SimulatedAiModelService.kt:187-205 | Otherwise the last interest keyword decides, and the fallback is used iff there is none. |
| Rules.RulePrecedence | app/src/main/java/com/intellimate/intellimate/core/ai/impl/SimulatedAiModelService.kt:151-205 | The five rules in strict precedence: snippet, strong emotion, strong intent, last interest keyword, fallback; the result is never blank. |
| Style.ApplyFormality | app/src/main/java/com/intellimate/intellimate/core/ai/impl/SimulatedAiModelService.kt:208-214 | High prepends exactly the formal lead, Low appends exactly the casual closer, any other formality leaves text and log unchanged; the log gains exactly this stage's entry. |
| Style.ApplyHumor | app/src/main/java/com/intellimate/intellimate/core/ai/impl/SimulatedAiModelService.kt:216-222 | Humor above 0.7 appends the joke, above 0.3 the chuckle, otherwise nothing; the earlier text stays a prefix and the log gains exactly this stage's entry. |
| Style.CalmText | app/src/main/java/com/intellimate/intellimate/core/ai/impl/SimulatedAiModelService.kt:230 | The calm rewrite is the text with every '!' turned into '.' and every other character kept in place, followed by the mellow suffix; so it has no '!'. |
| Style.ApplyEnthusiasm | app/src/main/java/com/intellimate/intellimate/core/ai/impl/SimulatedAiModelService.kt:224-233 | "Enthusiastic" appends the excited suffix; "Calm" keeps the text with each '!' turned into '.', appends the mellow suffix and leaves no '!'; anything else changes nothing; the log gains exactly this stage's entry. |
| Style.ApplyStyle | app/src/main/java/com/intellimate/intellimate/core/ai/impl/SimulatedAiModelService.kt:207-233 | The style log is the entries of the stages that fired, in the order formality, humor, enthusiasm, and nothing else. |
| Style.StyleLogRecordsStages | app/src/main/java/com/intellimate/intellimate/core/ai/impl/SimulatedAiModelService.kt:207-233 | The style log is non-empty iff some stage fires; when none fires the text is returned unchanged. |
| Style.StyleOutcome | app/src/main/java/com/intellimate/intellimate/core/ai/impl/SimulatedAiModelService.kt:207-233 | Under Calm the result has no '!' and ends with the mellow suffix; otherwise it still contains the base text and the humor suffix of its band. |
| Style.StyleKeepsTextAndHumor | app/src/main/java/com/intellimate/intellimate/core/ai/impl/SimulatedAiModelService.kt:208-228 | Without Calm the styled text contains the base text and the humor suffix of its band. |
| Style.FormalityKeepsText | app/src/main/java/com/intellimate/intellimate/core/ai/impl/SimulatedAiModelService.kt:208-214 | Every formality keeps the base text inside the result. |
| Coaching.AcceleratedTip | app/src/main/java/com/intellimate/intellimate/core/ai/impl/SimulatedAiModelService.kt:260 | The Accelerated tip quotes the openness score when there is one. |
| Coaching.ModerateRewrite | app/src/main/java/com/intellimate/intellimate/core/ai/impl/SimulatedAiModelService.kt:252-255 | The medium-openness rewrite keeps the styled text. |
| Coaching.UnscoredRewrite | app/src/main/java/com/intellimate/intellimate/core/ai/impl/SimulatedAiModelService.kt:256-259 | The rewrite without a score keeps the styled text. |
| Coaching.AcceleratedRewrite | app/src/main/java/com/intellimate/intellimate/core/ai/impl/SimulatedAiModelService.kt:243-259 | Above 75 the bold invitation, below 50 the casual invitation, otherwise a rewrite that keeps the styled text. |
| Coaching.DeepRewrite | app/src/main/java/com/intellimate/intellimate/core/ai/impl/SimulatedAiModelService.kt:262-267 | The deep rewrite keeps the styled text and names the discussion topic. |
| Coaching.SocialRewrite | app/src/main/java/com/intellimate/intellimate/core/ai/impl/SimulatedAiModelService.kt:268-272 | The social rewrite keeps the styled text. |
| Coaching.ApplyStrategy | app/src/main/java/com/intellimate/intellimate/core/ai/impl/SimulatedAiModelService.kt:239-278 | Every strategy sets a tip; per strategy the rewrite is the bold or casual invite, or keeps the text (and topic); Balanced keeps the text and the tip already set or the Balanced tip. |
| Coaching.TipDependsOnlyOnStrategy | app/src/main/java/com/intellimate/intellimate/core/ai/impl/SimulatedAiModelService.kt:242-295 | The final tip is always present, the emotion/intent fallback block never changes it, and two calls with the same strategy and openness score give the same tip. |
| Explanation.StyleDetailVisible | app/src/main/java/com/intellimate/intellimate/core/ai/impl/SimulatedAiModelService.kt:300 | The style clause is added iff some style stage was logged. |
| Explanation.RagDetailShown | app/src/main/java/com/intellimate/intellimate/core/ai/impl/SimulatedAiModelService.kt:303 | The knowledge clause is added iff a snippet was used. |
| Explanation.StyleClause | app/src/main/java/com/intellimate/intellimate/core/ai/impl/SimulatedAiModelService.kt:300-302 | The style step appends exactly the style clause (or nothing) to the explanation. |
| Explanation.KnowledgeClause | app/src/main/java/com/intellimate/intellimate/core/ai/impl/SimulatedAiModelService.kt:303-305 | The knowledge step appends exactly the knowledge clause (or nothing) to the explanation. |
| Explanation.ExplanationClauses | app/src/main/java/com/intellimate/intellimate/core/ai/impl/SimulatedAiModelService.kt:298-305 | The explanation starts with the reason; the style clause follows iff a stage fired, a used snippet puts the knowledge clause in it, and with neither it is the reason alone. |
| Explanation.PoolDistinct | app/src/main/java/com/intellimate/intellimate/core/ai/impl/SimulatedAiModelService.kt:309-315 | The five candidate next topics are pairwise distinct for every keyword list. |
| Explanation.PredictTopics | app/src/main/java/com/intellimate/intellimate/core/ai/impl/SimulatedAiModelService.kt:308-316 | One or two distinct topics, each taken from the candidate pool. |
| Suggestion.GetSuggestion | app/src/main/java/com/intellimate/intellimate/core/ai/impl/SimulatedAiModelService.kt:71-328 | The openness score is present iff Accelerated; the tip is always present, is the Balanced tip under Balanced and quotes the score under Accelerated; Calm output has no '!'; one or two distinct topics from the pool. |
| Suggestion.SuggestionIgnoresStrategy | app/src/main/java/com/intellimate/intellimate/core/ai/impl/SimulatedAiModelService.kt:239-327 | The returned suggestion and explanation are the same for every strategy: they are the styled base suggestion, and the strategy rewrite never reaches the caller. |
| Suggestion.BaseIgnoresStrategy | app/src/main/java/com/intellimate/intellimate/core/ai/impl/SimulatedAiModelService.kt:143-205 | The rule engine's draft does not depend on the strategy. |
| Suggestion.SuggestionCarriesDraft | app/src/main/java/com/intellimate/intellimate/core/ai/impl/SimulatedAiModelService.kt:207-233 | Unless the enthusiasm is "Calm", the returned suggestion still contains the rule engine's draft text. |
| Suggestion.KnowledgeSuggestion | app/src/main/java/com/intellimate/intellimate/core/ai/impl/SimulatedAiModelService.kt:151-160 | With a knowledge snippet and no style stage firing, the caller receives exactly the knowledge template, whatever the emotion, intent and keywords drawn. |
| Suggestion.ExplanationReflectsStyle | app/src/main/java/com/intellimate/intellimate/core/ai/impl/SimulatedAiModelService.kt:298-302 | The explanation starts with the base reason, has the style clause iff a stage fired, and is the reason alone without style or snippet. |
| Suggestion.ExplanationReflectsKnowledge | app/src/main/java/com/intellimate/intellimate/core/ai/impl/SimulatedAiModelService.kt:303-305 | With a snippet the explanation mentions the knowledge used. |
| Scenarios.MusicInputKeywords | app/src/main/java/com/intellimate/intellimate/core/ai/impl/SimulatedAiModelService.kt:131 | "I love live music and travel!" yields the keywords love, live, music: "travel" is past the fourth token. |
| Scenarios.InterestsInputKeywords | app/src/main/java/com/intellimate/intellimate/core/ai/impl/SimulatedAiModelService.kt:131 | "music travel food book lover" yields four keywords, all of them interests. |
| Scenarios.KeywordRuleDecides | app/src/main/java/com/intellimate/intellimate/core/ai/impl/SimulatedAiModelService.kt:187-195 | With a neutral emotion and a casual intent the keyword rule decides whenever an interest keyword is present. |
| Scenarios.NoStyleKeepsBase | app/src/main/java/com/intellimate/intellimate/core/ai/impl/SimulatedAiModelService.kt:207-233 | When no style stage fires the suggestion is the base text and the explanation is the bare reason. |
| Scenarios.MusicScenario | app/src/main/java/com/intellimate/intellimate/core/ai/impl/SimulatedAiModelService.kt:187-195 | For the music input with a plain style the suggestion is the music follow-up and the explanation names the keyword. |
| Scenarios.LastInterestWinsScenario | app/src/main/java/com/intellimate/intellimate/core/ai/impl/SimulatedAiModelService.kt:187-195 | With four interest keywords the last one, "book", decides, not the first. |
| Scenarios.BoldInviteNotReturned | app/src/main/java/com/intellimate/intellimate/core/ai/impl/SimulatedAiModelService.kt:246-248 | Under Accelerated with openness above 75 and Calm style the bold invitation has a '!', so it is not what the caller receives. |
| Practice.OpeningLines | app/src/main/java/com/intellimate/intellimate/core/ai/impl/SimulatedAiModelService.kt:332-340 | Each persona's opening line is non-blank and the three lines differ. |
| Practice.Quote | app/src/main/java/com/intellimate/intellimate/core/ai/impl/SimulatedAiModelService.kt:355 | The quoted part of the input is its prefix of at most 20 characters. |
| Practice.ReplyQuotes | app/src/main/java/com/intellimate/intellimate/core/ai/impl/SimulatedAiModelService.kt:353-372 | Every persona reply embeds the quoted prefix of the user input. |
| Practice.Respond | app/src/main/java/com/intellimate/intellimate/core/ai/impl/SimulatedAiModelService.kt:342-375 | Feedback is always present, it is one of the persona's own notes, and the reply embeds the quoted input. |
| Practice.FeedbackIdentifiesPersona | app/src/main/java/com/intellimate/intellimate/core/ai/impl/SimulatedAiModelService.kt:353-372 | A feedback note belongs to the notes of persona q iff the turn was for q. |
| Practice.GeneralFeedbackCases | app/src/main/java/com/intellimate/intellimate/core/ai/impl/SimulatedAiModelService.kt:356-358 | General chat: short (< 10 UTF-16 units) first, then a question mark, else the solid note; each note iff its condition. |
| Practice.FlirtyFeedbackCases | app/src/main/java/com/intellimate/intellimate/core/ai/impl/SimulatedAiModelService.kt:362-364 | Flirty: short (< 15) without the wink first, then "date"/"meet", else the intrigue note; each note iff its condition. |
| Practice.SeriousFeedbackCases | app/src/main/java/com/intellimate/intellimate/core/ai/impl/SimulatedAiModelService.kt:368-370 | Serious: short (< 20) first, then "feel"/"think"/"believe", else the starting-point note; each note iff its condition. |
| Practice.Utf16Length | app/src/main/java/com/intellimate/intellimate/core/ai/impl/SimulatedAiModelService.kt:356 | The Kotlin length lies between the character count and twice it. |
| Practice.WinkIsTwoUnits | app/src/main/java/com/intellimate/intellimate/core/ai/impl/SimulatedAiModelService.kt:362 | The wink emoji adds two UTF-16 units to the length. |
| Practice.FlirtyHiScenario | app/src/main/java/com/intellimate/intellimate/core/ai/impl/SimulatedAiModelService.kt:360-364 | "hi" to the flirty persona earns the short-and-sweet note. |
| Strategy.FromString | app/src/main/java/com/intellimate/intellimate/core/model/DatingStrategy.kt:10-12 | A non-Balanced result is only returned for exactly its constant name; any other string or null gives Balanced. |
| Strategy.FromStringName | app/src/main/java/com/intellimate/intellimate/core/model/DatingStrategy.kt:10-12 | Parsing a strategy's constant name gives back that strategy. |
| Strategy.FromStringIsByConstantName | app/src/main/java/com/intellimate/intellimate/core/model/DatingStrategy.kt:3-12 | Display names, lower-case names and null all parse to Balanced; the exact constant name parses to its strategy. |
| Strategy.NamesDistinct | app/src/main/java/com/intellimate/intellimate/core/model/DatingStrategy.kt:3-7 | Distinct strategies have distinct constant names and distinct display names. |
| Persona.FromDisplayName | app/src/main/java/com/intellimate/intellimate/core/model/PracticePersona.kt:17-19 | A non-General result is only returned for exactly its display name; any other string gives General Chat. |
| Persona.FromDisplayNameRoundTrip | app/src/main/java/com/intellimate/intellimate/core/model/PracticePersona.kt:8-19 | Parsing a persona's display name gives back that persona. |
| Persona.DisplayNamesDistinct | app/src/main/java/com/intellimate/intellimate/core/model/PracticePersona.kt:8-14 | Distinct personas have distinct display names. |
| Persona.FromDisplayNameIgnoresConstantNames | app/src/main/java/com/intellimate/intellimate/core/model/PracticePersona.kt:17-19 | Constant names and differently cased display names parse to General Chat. |
| Session.BeginStart | app/src/main/java/com/intellimate/intellimate/viewmodel/PracticeViewModel.kt:51-55 | Starting clears the transcript and marks the session active and thinking, keeping the persona. |
| Session.CompleteStart | app/src/main/java/com/intellimate/intellimate/viewmodel/PracticeViewModel.kt:56-72 | Afterwards thinking is off and the transcript is one line: the persona's display name with the opening line when it arrived (session stays active), or a System feedback line "Error starting session: " plus the message when it failed (session ends). |
| Session.SelectPersona | app/src/main/java/com/intellimate/intellimate/viewmodel/PracticeViewModel.kt:42-49 | The persona is replaced; an active session is restarted, an inactive one keeps its transcript. |
| Session.BeginReply | app/src/main/java/com/intellimate/intellimate/viewmodel/PracticeViewModel.kt:75-83 | An inactive session or blank reply changes nothing; otherwise exactly one User line is appended and thinking is set. |
| Session.ReplyLines | app/src/main/java/com/intellimate/intellimate/viewmodel/PracticeViewModel.kt:91-101 | A reply adds the persona's line, then a Coach line with the feedback and isFeedback set iff feedback came back; a failure adds exactly one System feedback line "Error getting response: " plus the message. |
| Session.CompleteReply | app/src/main/java/com/intellimate/intellimate/viewmodel/PracticeViewModel.kt:85-105 | Completion appends exactly the reply lines for the outcome to the unchanged transcript, clears thinking and keeps the active flag and persona. |
| Session.PersonaSenderReserved | app/src/main/java/com/intellimate/intellimate/core/model/PracticePersona.kt:8-14 | No persona display name collides with the User, Coach or System senders. |
| Session.StepKeepsValid | app/src/main/java/com/intellimate/intellimate/viewmodel/PracticeViewModel.kt:42-106 | Every event keeps the invariant: User lines are non-blank non-feedback, feedback comes from Coach or System, and an active idle session shows a line. |
| Session.RunKeepsValid | app/src/main/java/com/intellimate/intellimate/viewmodel/PracticeViewModel.kt:42-106 | Any sequence of events from a valid state keeps the invariant. |
| Session.FreshIsValid | app/src/main/java/com/intellimate/intellimate/viewmodel/PracticeViewModel.kt:30-40 | The initial view-model state satisfies the invariant. |
| Session.StartWithService | app/src/main/java/com/intellimate/intellimate/viewmodel/PracticeViewModel.kt:51-72 | A start answered by the practice engine leaves exactly the persona's opening line, active and idle. |
| Session.ReplyWithService | app/src/main/java/com/intellimate/intellimate/viewmodel/PracticeViewModel.kt:75-105 | A reply answered by the practice engine appends exactly the User line, the persona line and the Coach line, earlier lines unchanged. |
| Registry.PackageNames | app/src/main/java/com/intellimate/intellimate/core/mda/MdaAdapterManager.kt:32-34 | The package-name list has one entry per adapter, in registry order. |
| Registry.Register | app/src/main/java/com/intellimate/intellimate/core/mda/MdaAdapterManager.kt:13-20 | A duplicate package leaves the registry unchanged, a new one is appended, and the registry keeps its package names distinct. |
| Registry.Lookup | app/src/main/java/com/intellimate/intellimate/core/mda/MdaAdapterManager.kt:22-30 | An adapter is found iff its package is registered, and it is a registered adapter for that package. |
| Registry.LookupUnique | app/src/main/java/com/intellimate/intellimate/core/mda/MdaAdapterManager.kt:13-30 | In a registry without duplicate packages the lookup returns the adapter registered for that package. |
| Registry.RegisterThenLookup | app/src/main/java/com/intellimate/intellimate/core/mda/MdaAdapterManager.kt:13-30 | After registering a new adapter, looking it up finds it and every other lookup is unchanged. |
| Registry.DefaultRegistry | app/src/main/java/com/intellimate/intellimate/core/system/IntelliMateAccessibilityService.kt:46-47 | The service's two registrations give both packages in order, without duplicates, and the placeholder is found. |
| NodeText.Piece | app/src/main/java/com/intellimate/intellimate/core/mda/impl/SimulatedDatingAppAdapter.kt:72-82 | A node contributes its trimmed text only when that is non-empty. |
| NodeText.Pieces | app/src/main/java/com/intellimate/intellimate/core/mda/impl/SimulatedDatingAppAdapter.kt:60-94 | Independent pre-order definition: every piece is non-empty, nodes deeper than 5 contribute nothing, and a node's own text comes before its children's. |
| NodeText.CollectAppendsPieces | app/src/main/java/com/intellimate/intellimate/core/mda/impl/SimulatedDatingAppAdapter.kt:60-94 | The source's StringBuilder walk appends exactly the pre-order pieces, separator rule included. |
| NodeText.CollectFromAppendsPieces | app/src/main/java/com/intellimate/intellimate/core/mda/impl/SimulatedDatingAppAdapter.kt:84-93 | The loop over children appends the children's pieces in index order. |
| NodeText.AppendAllIsJoin | app/src/main/java/com/intellimate/intellimate/core/mda/impl/SimulatedDatingAppAdapter.kt:75-77 | Appending pieces with the separator rule is the pieces joined by " | ", with no leading separator. |
| NodeText.JoinVisible | app/src/main/java/com/intellimate/intellimate/core/mda/impl/SimulatedDatingAppAdapter.kt:41 | Joined non-empty trimmed pieces form a non-blank text that trimming leaves unchanged. |
| NodeText.ProcessJoinsPieces | app/src/main/java/com/intellimate/intellimate/core/mda/impl/SimulatedDatingAppAdapter.kt:33-57 | The result is null iff no node within the depth bound has text, otherwise the pieces joined by " | ". |
| NodeText.DescriptionIgnored | app/src/main/java/com/intellimate/intellimate/core/mda/impl/SimulatedDatingAppAdapter.kt:73-82 | The content description never changes the collected text. |
| NodeText.TooDeepContributesNothing | app/src/main/java/com/intellimate/intellimate/core/mda/impl/SimulatedDatingAppAdapter.kt:65-68 | A node past the depth bound leaves the output unchanged. |
| NodeText.HandleEvent | app/src/main/java/com/intellimate/intellimate/core/mda/impl/SimulatedDatingAppAdapter.kt:28-57 | A context entry is stored iff text was extracted, under the event's package or "UnknownPackage", with that text. |
| Preferences.Decode | app/src/main/java/com/intellimate/intellimate/data/repository/StylePreferencesRepository.kt:68-75 | Each missing key reads as its default; each present key reads as its stored value, the strategy through `fromString` of the stored string. |
| Preferences.EmptyStoreGivesDefaults | app/src/main/java/com/intellimate/intellimate/data/repository/StylePreferencesRepository.kt:31-38 | An empty store decodes to Medium, 0.3, Neutral, Balanced and voice assist off. |
| Preferences.UnknownStrategyReadsBalanced | app/src/main/java/com/intellimate/intellimate/data/repository/StylePreferencesRepository.kt:72 | A stored strategy string that is no constant name decodes to Balanced. |
| Preferences.FormalityRoundTrip | app/src/main/java/com/intellimate/intellimate/data/repository/StylePreferencesRepository.kt:77-82 | After writing the formality, decoding yields it and every other field as before. |
| Preferences.HumorLevelRoundTrip | app/src/main/java/com/intellimate/intellimate/data/repository/StylePreferencesRepository.kt:84-89 | After writing the humor level, decoding yields it and every other field as before. |
| Preferences.EnthusiasmRoundTrip | app/src/main/java/com/intellimate/intellimate/data/repository/StylePreferencesRepository.kt:91-96 | After writing the enthusiasm, decoding yields it and every other field as before. |
| Preferences.DatingStrategyRoundTrip | app/src/main/java/com/intellimate/intellimate/data/repository/StylePreferencesRepository.kt:98-103 | A strategy stored by its constant name decodes back to itself, every other field as before. |
| Preferences.VoiceAssistRoundTrip | app/src/main/java/com/intellimate/intellimate/data/repository/StylePreferencesRepository.kt:105-110 | After writing the voice-assist flag, decoding yields it and every other field as before. |
| Preferences.KeysDistinct | app/src/main/java/com/intellimate/intellimate/data/repository/StylePreferencesRepository.kt:52-56 | The five preference keys are pairwise distinct, so each write touches one field. |
| Emoji.EmotionEmoji | app/src/main/java/com/intellimate/intellimate/MainActivity.kt:425-434 | The result is one of the five emoji, and a missing emotion gives the speech bubble. |
| Emoji.EmojiClasses | app/src/main/java/com/intellimate/intellimate/MainActivity.kt:426-433 | Smiling iff happy/joyful/excited, thinking iff curious, worried iff sad/frustrated/angry, surprised iff surprised, speech bubble otherwise, all after lower-casing. |
| Emoji.EmojisDistinct | app/src/main/java/com/intellimate/intellimate/MainActivity.kt:427-432 | The five emoji are pairwise distinct, so the classes do not overlap. |
| Emoji.CaseInsensitive | app/src/main/java/com/intellimate/intellimate/MainActivity.kt:426 | The mapping does not depend on letter case. |
| Emoji.UpperCaseHappySmiles | app/src/main/java/com/intellimate/intellimate/MainActivity.kt:426-427 | "HAPPY" maps to the smiling emoji. |
| Emoji.DrawnLabelEmoji | app/src/main/java/com/intellimate/intellimate/MainActivity.kt:425-434 | Of the four emotions the simulated analyzer can draw, none is shown as worried. |

## Left out

- Coroutines, `delay`, `Log` calls and cancellation are left out. Each view-model operation is modelled as an atomic begin/complete pair, so interleavings of concurrent calls are not modelled.
- The AI service call inside `PracticeViewModel` is an `Outcome` parameter: either a value or a failure with a message. The null case of `e.message` is not distinguished from a message.
- The image context of `getSuggestion` is ignored by the source, apart from logging, so it is not a parameter. The conversation history of `getPracticeResponse` is likewise unused: it is a parameter that no result depends on.
- The `RagRepository` query is replaced by the snippet it would return. The Room database, DAOs, DataStore I/O and the IOException fallback of the preference flow are left out: they are persistence.
- Preferences.Decode: requires a well-typed store, one where each key holds a value of its declared type. DataStore's typed keys rule out the other case, which would throw.
- Floats (intensity, confidence, humor level) are modelled as reals. Only their comparisons with the thresholds matter.
- Collections.Take counts characters where Kotlin's `take` counts UTF-16 units. The difference matters only for supplementary-plane characters, which the 20- and 30-character excerpts may split in Kotlin. The practice length checks do count UTF-16 units, through `Practice.Utf16Length`.
- Text.Lower lower-cases ASCII letters only. Kotlin's `lowercase` is locale-independent Unicode lower-casing.
- Suggestion.GetSuggestion does not state in its own contract what the suggestion and explanation texts are. Those are stated by `Suggestion.SuggestionIgnoresStrategy`, `Suggestion.SuggestionCarriesDraft`, `Suggestion.KnowledgeSuggestion`, `Suggestion.ExplanationReflectsStyle` and the `Rules` lemmas.
- Analysis.IsCandidate counts characters where Kotlin's `it.length > 3` counts UTF-16 units. A token such as "a😀b" has length 4 in Kotlin and is a keyword there, but it has 3 characters and is not a keyword in the model. Tokens of ASCII or other basic-plane characters are treated alike.
- MainViewModel, the global suggestion flow and the stale duplicate declarations at the top of the service, the repository and the adapter files are left out. They are broken or dead copies of the modelled code.
- The UI is left out. Of `MainActivity` only `getEmotionEmoji` is modelled, and of the adapters only their package names, the text walk and the decision to store a context entry.
- The accessibility node is an inductive tree whose children may be null. Node recycling, class names and event types are left out.
