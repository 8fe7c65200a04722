/** The voice assistant object: the conversation log, the user profile and
    the persona it persists, the quiz state it keeps while the persona quiz
    runs, and the methods that change them. Persistence mirrors these
    fields; timestamps, the recognition engine and the transcripts are
    inputs. */
module Assistant {
  import opened Text
  import opened Tables
  import opened Quiz
  import opened Matcher

  /** A free-form profile value. */
  datatype Scalar = StringValue(s: string) | IntValue(n: int) | BoolValue(b: bool)

  /** One recorded turn; `timestamp` is the ISO time string, taken as given. */
  datatype ConversationEntry = ConversationEntry(timestamp: string, userInput: string, botResponse: string, persona: string)

  /** The log keeps the newest 50 turns; replies look at the newest 5 for context. */
  const HistoryLimit := 50
  const ContextWindow := 5

  /** `s.slice(-n)` for positive `n`: the newest `n` elements, or all of them when fewer. */
  function Newest<T>(s: seq<T>, n: nat): (r: seq<T>)
    requires n > 0
    ensures |r| == if |s| < n then |s| else n
    ensures r == s[|s| - |r|..]
  {
    if |s| <= n then s else s[|s| - n..]
  }

  /** Appending one entry to a bounded log: at most 50 entries, the new one last, before it
      the newest entries of the old log in order, and from a full log exactly the oldest dropped. */
  lemma AppendBounded<T>(log: seq<T>, x: T)
    ensures var r := Newest(log + [x], HistoryLimit);
            && |r| <= HistoryLimit
            && r[|r| - 1] == x
            && r[..|r| - 1] == log[|log| - (|r| - 1)..]
            && (|log| < HistoryLimit ==> r == log + [x])
            && (|log| == HistoryLimit ==> r == log[1..] + [x])
  {
    var r := Newest(log + [x], HistoryLimit);
    assert (log + [x])[|log + [x]| - |r|..] == log[|log| - (|r| - 1)..] + [x];
  }

  /** A context window is non-empty exactly when the whole log is. */
  lemma ContextIffHistory<T>(log: seq<T>)
    ensures |Newest(log, ContextWindow)| > 0 <==> |log| > 0
  {
  }

  class FundoraVoiceAssistant {
    var conversationHistory: seq<ConversationEntry>
    var userProfile: map<string, Scalar>
    var currentPersona: string
    var currentQuestionIndex: int
    var personaScores: Scoreboard
    var personaQuestions: seq<string>
    /** The answers `getPersonaResponses` returns, the same table on every call. */
    const personaResponses: seq<KnowledgeEntry>

    /** Loads the three persisted records; a missing record is passed as empty. The quiz
        fields only receive meaningful values when a quiz starts. */
    constructor (storedHistory: seq<ConversationEntry>, storedProfile: map<string, Scalar>, storedPersona: string)
      ensures conversationHistory == storedHistory
      ensures userProfile == storedProfile
      ensures currentPersona == storedPersona
      ensures currentQuestionIndex == 0 && personaScores == map[] && personaQuestions == []
      ensures personaResponses == KnowledgeBase
    {
      personaResponses := KnowledgeBase;
      conversationHistory := storedHistory;
      userProfile := storedProfile;
      currentPersona := storedPersona;
      currentQuestionIndex := 0;
      personaScores := map[];
      personaQuestions := [];
    }

    /** A running quiz: all six scores present, the fixed questions, the index within them. */
    ghost predicate QuizValid()
      reads this
    {
      && Complete(personaScores)
      && personaQuestions == PersonaQuestions
      && 0 <= currentQuestionIndex <= |personaQuestions|
    }

    /** `saveConversation`: append the turn with the current persona, then keep the newest 50. */
    method SaveConversation(userInput: string, botResponse: string, timestamp: string)
      modifies this`conversationHistory
      ensures conversationHistory
              == Newest(old(conversationHistory) + [ConversationEntry(timestamp, userInput, botResponse, currentPersona)], HistoryLimit)
      ensures |conversationHistory| <= HistoryLimit
      ensures conversationHistory[|conversationHistory| - 1] == ConversationEntry(timestamp, userInput, botResponse, currentPersona)
    {
      var conversation := ConversationEntry(timestamp, userInput, botResponse, currentPersona);
      conversationHistory := conversationHistory + [conversation];
      if |conversationHistory| > HistoryLimit {
        conversationHistory := conversationHistory[|conversationHistory| - HistoryLimit..];
      }
    }

    /** `updateProfile`: the key now maps to the value; every other key is as it was. */
    method UpdateProfile(key: string, value: Scalar)
      modifies this`userProfile
      ensures key in userProfile && userProfile[key] == value
      ensures forall k :: k != key ==> (k in userProfile <==> k in old(userProfile))
      ensures forall k :: k != key && k in userProfile ==> userProfile[k] == old(userProfile)[k]
    {
      userProfile := userProfile[key := value];
    }

    /** `clearHistory`: the log is emptied; profile and persona are untouched. */
    method ClearHistory()
      modifies this`conversationHistory
      ensures conversationHistory == []
      ensures userProfile == old(userProfile) && currentPersona == old(currentPersona)
    {
      conversationHistory := [];
    }

    /** `generateIntelligentResponse`: whether there is context comes from the newest five
        turns, the answers from `getPersonaResponses`, the framing from the stored persona. */
    method GenerateIntelligentResponse(userInput: string) returns (response: string)
      ensures response == Reply(personaResponses, userInput, |conversationHistory| > 0, currentPersona)
    {
      var recentConversations := Newest(conversationHistory, ContextWindow);
      var hasContext := |recentConversations| > 0;
      response := Respond(personaResponses, userInput, hasContext, currentPersona);
    }

    /** `startPersonaQuiz`: index 0, all six scores 0, the ten questions. */
    method StartPersonaQuiz()
      modifies this`currentQuestionIndex, this`personaScores, this`personaQuestions
      ensures QuizValid()
      ensures currentQuestionIndex == 0 && personaScores == ZeroBoard() && personaQuestions == PersonaQuestions
    {
      currentQuestionIndex := 0;
      personaScores := ZeroBoard();
      personaQuestions := PersonaQuestions;
    }

    /** `askPersonaQuestion`: past the last question the quiz finishes; otherwise the current
        question is the one spoken before listening. */
    method AskPersonaQuestion() returns (question: Option<string>)
      requires QuizValid()
      modifies this`currentPersona
      ensures currentQuestionIndex >= |personaQuestions| ==>
                question == None && currentPersona == Name(TopPersona(personaScores))
      ensures currentQuestionIndex < |personaQuestions| ==>
                question == Some(personaQuestions[currentQuestionIndex]) && currentPersona == old(currentPersona)
    {
      if currentQuestionIndex >= |personaQuestions| {
        FinishPersonaQuiz();
        return None;
      }
      question := Some(personaQuestions[currentQuestionIndex]);
    }

    /** `listenForPersonaAnswer` with its two handlers: without a recognition engine nothing
        happens and the quiz stalls; an answer is lower-cased and evaluated, an error is not,
        and either way the index moves to the next question. */
    method ListenForPersonaAnswer(engineAvailable: bool, event: QuizEvent)
      requires QuizValid() && currentQuestionIndex < |personaQuestions|
      modifies this`currentQuestionIndex, this`personaScores
      ensures QuizValid()
      ensures !engineAvailable ==> currentQuestionIndex == old(currentQuestionIndex) && personaScores == old(personaScores)
      ensures engineAvailable ==> currentQuestionIndex == old(currentQuestionIndex) + 1
                                  && personaScores == Turn(old(personaScores), event)
    {
      if !engineAvailable {
        return;
      }
      match event
      case Answer(transcript) =>
        EvaluatePersonaResponse(Lower(transcript));
        currentQuestionIndex := currentQuestionIndex + 1;
      case RecognitionError =>
        currentQuestionIndex := currentQuestionIndex + 1;
    }

    /** `evaluatePersonaResponse`: one point for each detection keyword the answer includes. */
    method EvaluatePersonaResponse(response: string)
      requires Complete(personaScores)
      modifies this`personaScores
      ensures personaScores == Evaluate(old(personaScores), response)
    {
      CreditPatterns(DetectionPatterns, response);
      DetectionCreditIsEvaluate(old(personaScores), response);
    }

    /** The outer loop of `evaluatePersonaResponse`: the pattern entries, in order. */
    method CreditPatterns(patterns: seq<(Persona, seq<string>)>, response: string)
      requires Complete(personaScores)
      modifies this`personaScores
      ensures personaScores == Credit(old(personaScores), patterns, response)
    {
      var i := 0;
      while i < |patterns|
        invariant 0 <= i <= |patterns|
        invariant Complete(personaScores)
        invariant personaScores == Credit(old(personaScores), patterns[..i], response)
      {
        var (persona, keywords) := patterns[i];
        assert patterns[..i + 1][..i] == patterns[..i];
        CreditKeywords(persona, keywords, response);
        i := i + 1;
      }
      assert patterns[..i] == patterns;
    }

    /** The inner loop of `evaluatePersonaResponse`: one archetype's keywords, one by one. */
    method CreditKeywords(persona: Persona, keywords: seq<string>, response: string)
      requires Complete(personaScores)
      modifies this`personaScores
      ensures personaScores == old(personaScores)[persona := old(personaScores)[persona] + CountFound(response, keywords)]
    {
      var j := 0;
      while j < |keywords|
        invariant 0 <= j <= |keywords|
        invariant personaScores == old(personaScores)[persona := old(personaScores)[persona] + CountFound(response, keywords[..j])]
      {
        assert keywords[..j + 1] == keywords[..j] + [keywords[j]];
        CountFoundSnoc(response, keywords[..j], keywords[j]);
        if Contains(response, keywords[j]) {
          personaScores := personaScores[persona := personaScores[persona] + 1];
        }
        j := j + 1;
      }
      assert keywords[..j] == keywords;
    }

    /** `finishPersonaQuiz`: commit the head of the stable descending sort of the scoreboard. */
    method FinishPersonaQuiz()
      requires Complete(personaScores)
      modifies this`currentPersona
      ensures currentPersona == Name(TopPersona(personaScores))
    {
      var topPersona := SortDesc(Entries(personaScores))[0].0;
      currentPersona := Name(topPersona);
    }

    /** The callback chain of one quiz: start, then ask, listen for one event and ask again,
        until the quiz finishes, the events run out, or no recognition engine stalls it. */
    method RunPersonaQuiz(engineAvailable: bool, events: seq<QuizEvent>) returns (consumed: nat)
      modifies this`currentQuestionIndex, this`personaScores, this`personaQuestions, this`currentPersona
      ensures QuizValid()
      ensures !engineAvailable ==> consumed == 0 && currentQuestionIndex == 0 && personaScores == ZeroBoard()
                                   && currentPersona == old(currentPersona)
      ensures engineAvailable ==> consumed == (if |events| < |PersonaQuestions| then |events| else |PersonaQuestions|)
                                  && currentQuestionIndex == consumed
                                  && personaScores == Tally(ZeroBoard(), events[..consumed])
      ensures engineAvailable && |events| >= |PersonaQuestions| ==>
                currentPersona == Name(TopPersona(Tally(ZeroBoard(), events[..|PersonaQuestions|])))
      ensures engineAvailable && |events| < |PersonaQuestions| ==> currentPersona == old(currentPersona)
    {
      StartPersonaQuiz();
      consumed := 0;
      var question := AskPersonaQuestion();
      while question.Some? && consumed < |events|
        invariant QuizValid()
        invariant consumed <= |events| && currentQuestionIndex == consumed
        invariant !engineAvailable ==> consumed == 0
        invariant personaScores == Tally(ZeroBoard(), events[..consumed])
        invariant question.Some? <==> consumed < |PersonaQuestions|
        invariant question.Some? ==> currentPersona == old(currentPersona)
        invariant question.None? ==> currentPersona == Name(TopPersona(personaScores))
        decreases |events| - consumed
      {
        ListenForPersonaAnswer(engineAvailable, events[consumed]);
        if !engineAvailable {
          break;
        }
        assert events[..consumed + 1][..consumed] == events[..consumed];
        consumed := consumed + 1;
        question := AskPersonaQuestion();
      }
    }
  }

  /** A quiz whose ten captures all fail still ends, and elects the guardian. */
  lemma AllErrorQuizElectsGuardian(events: seq<QuizEvent>)
    requires |events| == |PersonaQuestions|
    requires forall k :: 0 <= k < |events| ==> events[k] == RecognitionError
    ensures TopPersona(Tally(ZeroBoard(), events)) == Guardian
  {
    ZeroBoardElectsGuardian();
    TallyAllErrors(ZeroBoard(), events);
  }
}
