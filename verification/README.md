# Fundora voice assistant — a Dafny model

This project models the `FundoraVoiceAssistant` class of the Fundora web app
(`src/Logic.js`). The class has three parts:

- **The response matcher** answers a spoken money question.
  - It scores a fixed table of ten question/answer entries against the lower-cased input.
  - When no entry scores above 3, it falls back to ten ordered finance keywords.
  - When no keyword matches either, it gives one of two default replies.
  - It prefixes the reply with a phrase for the user's money persona.
- **The persona quiz** asks ten questions and scores each answer against six archetypes.
  - The archetypes are guardian, planner, explorer, avoider, maverick and independent.
  - An answer credits an archetype one point per detection keyword it includes.
  - At the end the quiz stores the top archetype as the current persona; ties go to the archetype listed first.
- **The bounded store** keeps the conversation log, the profile and the persona.
  - The log keeps only the newest 50 turns.
  - A profile write replaces one key's value.
  - Clearing empties the log and nothing else.

Two selection rules are modelled as well:

- which synthesis voice `speak` picks;
- which message a recognition error code is shown as.

Modules:

- `Text` (text.dfy): the JavaScript string operations the class relies on.
  - `toLowerCase` (ASCII letters), `includes`, `split(' ')` and `substring(0, n)`.
  - Counting how many words of a list a text includes.
- `Tables` (tables.dfy): lookup in a string-keyed object literal, whose entries keep their insertion order.
- `Matcher` (matcher.dfy): the knowledge base, scoring, best match, keyword fallback, persona prefix and the full reply.
  - The stateless rules are written as functions.
  - `findBestMatch`'s scan is written as the methods `FindBestMatch`, `ScoreEntry` and `CountLongWordsFound`, proved against those functions.
- `Quiz` (quiz.dfy): the archetypes, the detection keywords, the scoreboard, crediting one answer, a run of quiz turns, and the stable descending sort that picks the winner.
- `Voice` (voice.dfy): the voice preference chain and the error messages.
- `Assistant` (assistant.dfy): the class, with the fields the source updates in place.
  - The store and quiz operations are methods with `modifies` clauses.
  - `evaluatePersonaResponse`'s nested loops are the methods `CreditPatterns` and `CreditKeywords`.
  - `RunPersonaQuiz` is the quiz's callback chain, with one recognition event per question.

Modelling notes:

- **Integers and lower-casing.** Scores and indices are unbounded integers; the source's counts never get near any limit. `toLowerCase` is modelled on ASCII letters only.
- **Ties.**
  - `Object.entries` keeps insertion order.
  - `findBestMatch` replaces its best entry only on a strictly higher score, so a tie keeps the earlier entry.
  - `Array.prototype.sort` is stable, so on equal scores `finishPersonaQuiz` keeps the archetype listed first.
- **The best match is tested with `!bestMatch`** (src/Logic.js:127). A match whose answer is the empty string therefore falls back to the keywords. `ChosenReply` models this, although no answer in the table is empty (`KnowledgeBaseFilled`).
- **`getPersonaResponses`** returns the same table on every call. It is modelled as the constant field `personaResponses`, which the constructor sets to `KnowledgeBase`.
- **Quiz fields before the first quiz.** The class sets the quiz fields only when a quiz starts. The model starts them empty, and the methods that read them require the quiz invariant `QuizValid`.
- **A short question can outscore the keyword fallback.** The input "I want to save more" scores 2 × 2 = 4 against `save_money`. The question "How can I save more money?" contributes "save" and "more", two words longer than 3 characters that the input includes. That is above the floor of 3, so the entry's stored answer is returned rather than the "save" keyword reply. `ChosenReplyIsBestOrFallback` states the rule that decides this.

## Model

| member | source | states |
|---|---|---|
| Text.Lower | src/Logic.js:114 | `toLowerCase` keeps the length; `LowerIdempotent` states what it does to letters |
| Text.LowerIdempotent | src/Logic.js:114 | lower-cased text holds no upper-case ASCII letter, and lower-casing leaves lower-case text unchanged |
| Text.Contains | src/Logic.js:147 | `includes`; no contract of its own, `ContainsIff` and `ContainsInEmpty` state it |
| Text.ContainsIff | src/Logic.js:147 | `includes` holds exactly when the needle occurs at some offset of the text |
| Text.ContainsInEmpty | src/Logic.js:147 | the empty text includes only the empty string |
| Text.Take | src/Logic.js:160 | `substring(0, n)` is a prefix of the text, of length n or the whole text when shorter |
| Text.Split | src/Logic.js:140-141 | `split(' ')` yields at least one piece; `SplitJoin` and `SplitNoSpace` pin down the pieces |
| Text.SplitJoin | src/Logic.js:140-141 | `split(' ')` loses nothing: joining the pieces with single spaces gives back the text |
| Text.SplitNoSpace | src/Logic.js:140-141 | no piece of `split(' ')` contains a space, so punctuation stays attached to its word |
| Text.LongWords | src/Logic.js:146-157 | the `length > 3` test; no contract of its own, `LongWordsSound` and `LongWordsComplete` state it |
| Text.LongWordsSound | src/Logic.js:146-157 | the scored words are words of the list, each longer than 3 characters |
| Text.LongWordsComplete | src/Logic.js:146-157 | every word of the list longer than 3 characters is scored once per occurrence, and shorter words never are |
| Text.CountFound | src/Logic.js:435-439 | the counting `forEach`; no contract of its own, `CountFoundBounds`, `CountFoundPositive` and `CountFoundPositions` state it |
| Text.CountFoundBounds | src/Logic.js:435-439 | the number of listed words a text includes is at most the list length, and is 0 exactly when it includes none |
| Text.CountFoundPositive | src/Logic.js:435-439 | an included word is counted at least once |
| Text.CountFoundPositions | src/Logic.js:435-439 | the count is the number of positions of the list whose word the text includes, so a word listed twice counts twice |
| Tables.Lookup | src/Logic.js:210 | object lookup gives the value of the last entry with the key (a repeated key's later definition wins), and nothing exactly when no entry has it |
| Voice.Find | src/Logic.js:56-70 | `voices.find` gives the first voice that satisfies the test, and nothing exactly when none does |
| Voice.ChooseVoice | src/Logic.js:53-78 | the first English "female" voice; else the first English named natural voice (or one named Google and Female); else the first English Google or Microsoft voice; else the engine default, exactly when none of the three exists |
| Voice.ChosenVoiceIsEnglish | src/Logic.js:56-78 | any chosen voice is in the list and has an English language tag |
| Voice.ErrorMessage | src/Logic.js:310-318 | a listed error code gets its own message; the generic message is shown exactly when the code is not listed; the message is never empty |
| Matcher.QuestionHits | src/Logic.js:140-150 | question words longer than 3 characters that the input includes; no contract of its own, `CountLongWordsFound` computes it |
| Matcher.AnswerHits | src/Logic.js:141-157 | answer words longer than 3 characters that the input includes; no contract of its own, `CountLongWordsFound` computes it |
| Matcher.HasPhrase | src/Logic.js:160 | the input includes the first 15 characters of the lower-cased question; no contract of its own, `ScoreBounds` states its bonus |
| Matcher.Score | src/Logic.js:143-162 | an entry's score; no contract of its own, `ScoreEntry` computes it and `ScoreBounds`/`EmptyInputScoresZero` state it |
| Matcher.ScoreBounds | src/Logic.js:143-162 | a phrase match alone lifts a score to 10; a score is bounded by twice the question's words, plus the answer's words, plus 10 |
| Matcher.EmptyInputScoresZero | src/Logic.js:140-162 | the empty input scores 0 against any entry whose question is not empty |
| Matcher.CountLongWordsFound | src/Logic.js:146-157 | the word loop counts the words longer than 3 characters that the input includes |
| Matcher.ScoreEntry | src/Logic.js:140-162 | the loop computes 2 per question word hit, plus 1 per answer word hit, plus 10 for the 15-character question prefix |
| Matcher.Scores | src/Logic.js:139-162 | one score per entry, in table order; `ScoresAt` states each |
| Matcher.ScoresAt | src/Logic.js:139-162 | the score list holds each entry's score at that entry's position |
| Matcher.BestIndex | src/Logic.js:164-167 | the index kept by the strict `>` update lies among the entries scanned; `BestIndexIsFirstMax` states which one |
| Matcher.BestIndexIsFirstMax | src/Logic.js:164-167 | the strict `>` update keeps the highest score, and every earlier score is strictly lower |
| Matcher.Pick | src/Logic.js:170 | the `bestScore > 3` test on the kept entry; no contract of its own, `BestMatchIsFirstMax` states it |
| Matcher.BestMatch | src/Logic.js:135-171 | `findBestMatch`'s result; no contract of its own, `BestMatchIsFirstMax` states it and `FindBestMatch` computes it |
| Matcher.BestMatchIsFirstMax | src/Logic.js:135-171 | no match exactly when no score exceeds 3; otherwise the answer of an entry above 3 with the highest score and strictly above every earlier entry |
| Matcher.FindBestMatch | src/Logic.js:135-171 | the scan over the entries returns the best match as defined by scores |
| Matcher.FirstKeyword | src/Logic.js:188-192 | finds the first keyword, in table order, that the input includes, and nothing exactly when none is included |
| Matcher.ContextualResponse | src/Logic.js:173-198 | `generateContextualResponse`; no contract of its own, `ContextualResponseCases` and `ContextualResponseShape` state it |
| Matcher.KeywordRepliesDistinct | src/Logic.js:175-197 | keywords and their replies are non-empty, and no keyword reply equals either default reply |
| Matcher.ContextualResponseShape | src/Logic.js:173-198 | the fallback reply is never empty, and it is a keyword reply exactly when the input includes some keyword |
| Matcher.ContextualResponseCases | src/Logic.js:173-198 | the reply of the first included keyword; with none, the context default when there is history and the first-time default otherwise |
| Matcher.PersonalityPrefix | src/Logic.js:210 | `personalityPrefixes[persona] \|\| ""`; no contract of its own, `PrefixPerPersona` states it |
| Matcher.PrefixesInOrder | src/Logic.js:201-208 | the prefix table has one non-empty phrase per archetype identifier, in archetype order |
| Matcher.PrefixPerPersona | src/Logic.js:200-210 | the prefix is non-empty exactly when the persona is one of the six identifiers; empty and unknown personas get none |
| Matcher.AddPersonality | src/Logic.js:200-212 | the reply ends with the given response, and is that response alone for an unknown persona |
| Matcher.KnowledgeBaseFilled | src/Logic.js:214-259 | every entry of the table has a non-empty question and a non-empty answer |
| Matcher.ChosenReply | src/Logic.js:124-129 | the best match unless `!bestMatch`, else the keyword fallback; no contract of its own, `ChosenReplyIsBestOrFallback` states it |
| Matcher.Reply | src/Logic.js:113-133 | `generateIntelligentResponse` as a function; no contract of its own, `ReplyShape` and `EmptyInputGetsDefault` state it and `Respond` computes it |
| Matcher.Respond | src/Logic.js:113-133 | lower-case, best match, keyword fallback when there is no (non-empty) match, then the persona prefix |
| Matcher.ReplyShape | src/Logic.js:113-133 | the reply is never empty, whatever the input, and always ends with the chosen reply |
| Matcher.ChosenReplyIsBestOrFallback | src/Logic.js:124-129 | when some entry scores above 3 the reply is the answer of the first highest-scoring entry; otherwise it is the keyword fallback |
| Matcher.EmptyInputMatchesNoEntry | src/Logic.js:135-171 | the empty input matches no entry |
| Matcher.EmptyInputFallsBack | src/Logic.js:188-197 | the empty input includes no keyword, so it gets the default for the history state |
| Matcher.EmptyInputChoosesDefault | src/Logic.js:124-129 | for the empty input the chosen reply is the default for the history state |
| Matcher.EmptyInputGetsDefault | src/Logic.js:113-133 | for the empty input the reply is the persona prefix followed by the default for the history state |
| Quiz.Rank | src/Logic.js:359-366 | each archetype has its position in the scoreboard's key order |
| Quiz.PatternsInOrder | src/Logic.js:425-432 | the detection patterns list the six archetypes in scoreboard order |
| Quiz.ZeroBoard | src/Logic.js:359-366 | the starting scoreboard has all six archetypes at 0 |
| Quiz.Evaluate | src/Logic.js:424-441 | evaluating an answer keeps all six archetypes on the scoreboard |
| Quiz.Credit | src/Logic.js:434-440 | trying pattern entries in order keeps all six archetypes on the scoreboard |
| Quiz.CreditAt | src/Logic.js:434-440 | with distinct archetypes, each listed archetype gains exactly its keyword hits and any other keeps its score |
| Quiz.DetectionCreditIsEvaluate | src/Logic.js:424-441 | trying the detection patterns in order raises each archetype by exactly its keyword hits |
| Quiz.EvaluateBounds | src/Logic.js:434-440 | an answer never lowers a score and raises it by at most the archetype's keyword count; the score is unchanged exactly when no keyword is included |
| Quiz.ResearchCreditsBoth | src/Logic.js:427-431 | an answer including "research" credits both planner and independent |
| Quiz.Turn | src/Logic.js:407-419 | an answer or an error turn keeps all six archetypes on the scoreboard |
| Quiz.Tally | src/Logic.js:407-419 | a run of turns keeps all six archetypes on the scoreboard |
| Quiz.TallyBounds | src/Logic.js:407-419 | over a quiz no score decreases, and each turn adds at most the archetype's keyword count |
| Quiz.TallyAllErrors | src/Logic.js:415-419 | turns that all fail leave the scoreboard unchanged |
| Quiz.Entries | src/Logic.js:444 | `Object.entries` lists the six (archetype, score) pairs in key order |
| Quiz.Insert | src/Logic.js:444-445 | inserting one pair into the sorted list adds exactly one element |
| Quiz.SortDesc | src/Logic.js:444-445 | the sort keeps the number of pairs |
| Quiz.InsertSorted | src/Logic.js:444-445 | inserting into a descending list keeps it descending |
| Quiz.InsertHead | src/Logic.js:444-445 | after an insertion the head is the inserted pair or the old head |
| Quiz.InsertBelow | src/Logic.js:444-445 | inserting keeps every score under a bound that all the pairs respect |
| Quiz.InsertMultiset | src/Logic.js:444-445 | inserting adds exactly the inserted pair |
| Quiz.SortDescSortedPermutation | src/Logic.js:444-445 | the sort orders by descending score and is a permutation of its input |
| Quiz.SortHeadIsFirstMax | src/Logic.js:444-445 | the head of the stable descending sort is the first pair with the highest score |
| Quiz.TopPersona | src/Logic.js:444-445 | `finishPersonaQuiz`'s choice; no contract of its own, `TopPersonaIsFirstMax` and `TopPersonaUnique` state it |
| Quiz.TopPersonaIsFirstMax | src/Logic.js:443-445 | the winner has the highest score, and every archetype listed before it scores strictly less |
| Quiz.TopPersonaUnique | src/Logic.js:443-445 | the first archetype with the highest score is the winner |
| Quiz.ZeroBoardElectsGuardian | src/Logic.js:443-445 | an all-zero scoreboard elects the guardian |
| Quiz.TieGoesToGuardian | src/Logic.js:443-445 | a guardian/planner tie at 2 with the others at 0 elects the guardian |
| Assistant.Newest | src/Logic.js:99-100 | `slice(-n)` is the newest n elements, or all of them when fewer |
| Assistant.AppendBounded | src/Logic.js:96-101 | after an append, the log holds at most 50 entries and the new one last; before it come the newest old entries in order; from a full log exactly the oldest is dropped |
| Assistant.ContextIffHistory | src/Logic.js:117-118 | there is context exactly when the history is non-empty |
| Assistant.FundoraVoiceAssistant.constructor | src/Logic.js:3-10 | loads the stored history, profile and persona |
| Assistant.FundoraVoiceAssistant.SaveConversation | src/Logic.js:88-104 | the log becomes the newest 50 of the old log plus the new turn, which carries the current persona and comes last |
| Assistant.FundoraVoiceAssistant.UpdateProfile | src/Logic.js:107-110 | the key maps to the new value; every other key is unchanged |
| Assistant.FundoraVoiceAssistant.ClearHistory | src/Logic.js:483-487 | the log is empty; profile and persona are unchanged |
| Assistant.FundoraVoiceAssistant.GenerateIntelligentResponse | src/Logic.js:113-133 | the reply over the stored answers, with context exactly when the history is non-empty, framed by the stored persona |
| Assistant.FundoraVoiceAssistant.StartPersonaQuiz | src/Logic.js:357-379 | index 0, all six scores 0, the ten questions |
| Assistant.FundoraVoiceAssistant.AskPersonaQuestion | src/Logic.js:387-399 | past the last question the quiz finishes and stores the winner; otherwise it asks the current question and changes nothing |
| Assistant.FundoraVoiceAssistant.ListenForPersonaAnswer | src/Logic.js:401-422 | with no recognition engine nothing changes; otherwise the index advances by one, and only an answer is lower-cased and evaluated |
| Assistant.FundoraVoiceAssistant.EvaluatePersonaResponse | src/Logic.js:424-441 | each archetype's score rises by exactly the number of its keywords the answer includes |
| Assistant.FundoraVoiceAssistant.CreditPatterns | src/Logic.js:434-440 | the outer loop applies the pattern entries in order |
| Assistant.FundoraVoiceAssistant.CreditKeywords | src/Logic.js:435-439 | the inner loop raises one archetype by its keyword hits and leaves the others alone |
| Assistant.FundoraVoiceAssistant.FinishPersonaQuiz | src/Logic.js:443-457 | the stored persona is the identifier of the winner |
| Assistant.FundoraVoiceAssistant.RunPersonaQuiz | src/Logic.js:357-422 | with an engine, one event per question; after ten events the index is 10 and the stored persona is the winner of the tallied answers; with fewer events the persona is unchanged; without an engine the quiz stalls at index 0 |
| Assistant.AllErrorQuizElectsGuardian | src/Logic.js:415-419 | a quiz of ten failed captures elects the guardian |

## Left out

- `processUserInput` (src/Logic.js:325-339) is left out. It shows messages, calls `generateIntelligentResponse` and then `saveConversation`, and speaks after a timer. The two calls are modelled separately.
- The Web Speech API is left out: `createRecognition`, `recognition.start`, `speechSynthesis.cancel/speak/getVoices`, `utterance.onend` and `startListening`. The voice list, whether an engine exists, and the recognition event of each quiz turn are inputs instead.
- Repeated `onresult` events are left out. Continuous and interim recognition can fire `onresult` several times per question; the model takes exactly one answer-or-error event per quiz turn.
- Timers, `showMessage` and its auto-hide, `window.dispatchEvent`, and the spoken and displayed texts (quiz intro, question banners, `personaDescriptions`, the congratulation message) are left out. They are sequencing and UI.
- `localStorage` and `JSON` are left out. The persisted records are the fields they mirror, and a missing record is passed to the constructor as empty.
- The constructor does not cut a loaded history down to 50, and neither does the model. The bound is proved for the log after each `SaveConversation`.
- `new Date().toISOString()` is left out; the timestamp is a parameter.
- `initializeVoiceSettings` and the floating-point rate, pitch, volume and language settings are left out; they go straight to the engine.
- `getConversationHistory` (src/Logic.js:478-480) is a getter of `conversationHistory`, which the model exposes directly.
- Profile values are narrowed to strings, integers and booleans (`Scalar`). `updateProfile` accepts any JavaScript value, numbers there are floating point, and nothing in the class reads the values back.
- `toLowerCase` outside ASCII is left out (non-ASCII letters keep their case).
- Object lookups that hit inherited `Object.prototype` keys are left out: a persona named "toString" gets no prefix in the model.
- Text.LowerIdempotent: only ASCII letters are covered, for the reason above.
- Quiz fields before the first quiz are left out. The model requires the quiz invariant in the quiz methods; the source would fail on undefined fields there.
- The React `.tsx` components are presentation and navigation, and are not part of this model.
