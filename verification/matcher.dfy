/** The response matcher: scores the knowledge base against the lower-cased
    input, falls back to the ordered finance keywords and then to one of two
    default replies, and prefixes the persona's framing phrase. */
module Matcher {
  import opened Text
  import opened Tables
  import Quiz

  datatype KnowledgeEntry = KnowledgeEntry(id: string, q: string, a: string)

  /** The question/answer table, in insertion order. */
  const KnowledgeBase: seq<KnowledgeEntry> := [
    KnowledgeEntry("budget_basics",
      "How do I create a budget?",
      "Start with the 50-30-20 rule: 50% for needs, 30% for wants, 20% for savings. Track your expenses for a week first to understand your spending patterns."),
    KnowledgeEntry("emergency_fund",
      "What is an emergency fund?",
      "An emergency fund is 3-6 months of expenses saved for unexpected situations like job loss or medical bills. Start with \U{20B9}1000 and build gradually."),
    KnowledgeEntry("investment_start",
      "How do I start investing?",
      "Begin with SIPs in mutual funds - you can start with just \U{20B9}500 per month. Choose a balanced fund for beginners and increase gradually."),
    KnowledgeEntry("save_money",
      "How can I save more money?",
      "Try the 24-hour rule before purchases, automate your savings, and track where your money goes. Small changes add up quickly!"),
    KnowledgeEntry("debt_management",
      "How do I manage debt?",
      "List all debts, pay minimums on all, then focus extra money on the highest interest debt first. Consider debt consolidation if helpful."),
    KnowledgeEntry("financial_goals",
      "How do I set financial goals?",
      "Make them SMART: Specific, Measurable, Achievable, Relevant, Time-bound. Start with one goal like 'Save \U{20B9}10,000 in 6 months'."),
    KnowledgeEntry("income_increase",
      "How can I increase my income?",
      "Consider skill development, side hustles, freelancing, or asking for a raise. Invest in yourself through courses or certifications."),
    KnowledgeEntry("expense_tracking",
      "How do I track expenses?",
      "Use apps like Walnut or Money Manager, or simply note expenses in your phone. Review weekly to identify patterns."),
    KnowledgeEntry("retirement_planning",
      "When should I start retirement planning?",
      "Start now! Even \U{20B9}1000 monthly at 25 becomes \U{20B9}1.8 crores by 60 with 12% returns. Time is your biggest advantage."),
    KnowledgeEntry("tax_saving",
      "How can I save on taxes?",
      "Use 80C investments like ELSS, PPF, or life insurance. Also consider 80D for health insurance premiums.")
  ]

  /** Weights of the score and the confidence floor. */
  const QuestionWeight := 2
  const AnswerWeight := 1
  const PhraseBonus := 10
  const PhraseLength := 15
  const ConfidenceFloor := 3

  /** Question words longer than 3 characters that the input includes. */
  function QuestionHits(input: string, e: KnowledgeEntry): nat
  {
    CountFound(input, LongWords(Split(Lower(e.q))))
  }

  /** Answer words longer than 3 characters that the input includes. */
  function AnswerHits(input: string, e: KnowledgeEntry): nat
  {
    CountFound(input, LongWords(Split(Lower(e.a))))
  }

  /** The input includes the first 15 characters of the lower-cased question. */
  predicate HasPhrase(input: string, e: KnowledgeEntry)
  {
    Contains(input, Take(Lower(e.q), PhraseLength))
  }

  /** The score of one entry against a lower-cased input. */
  function Score(input: string, e: KnowledgeEntry): nat
  {
    QuestionWeight * QuestionHits(input, e) + AnswerWeight * AnswerHits(input, e)
      + (if HasPhrase(input, e) then PhraseBonus else 0)
  }

  /** The phrase bonus alone lifts an entry to 10, past the confidence floor; without it
      the score is bounded by the entry's word counts. */
  lemma ScoreBounds(input: string, e: KnowledgeEntry)
    ensures HasPhrase(input, e) ==> Score(input, e) >= PhraseBonus
    ensures Score(input, e) <= 2 * |Split(Lower(e.q))| + |Split(Lower(e.a))| + PhraseBonus
  {
    CountFoundBounds(input, LongWords(Split(Lower(e.q))));
    CountFoundBounds(input, LongWords(Split(Lower(e.a))));
    LongWordsSound(Split(Lower(e.q)));
    LongWordsSound(Split(Lower(e.a)));
  }

  /** The empty input scores 0 against any entry whose question is not empty. */
  lemma EmptyInputScoresZero(e: KnowledgeEntry)
    requires e.q != ""
    ensures Score("", e) == 0
  {
    var qw := LongWords(Split(Lower(e.q)));
    var aw := LongWords(Split(Lower(e.a)));
    CountFoundBounds("", qw);
    CountFoundBounds("", aw);
    LongWordsSound(Split(Lower(e.q)));
    LongWordsSound(Split(Lower(e.a)));
    forall k | 0 <= k < |qw| ensures !Contains("", qw[k]) { ContainsInEmpty(qw[k]); }
    forall k | 0 <= k < |aw| ensures !Contains("", aw[k]) { ContainsInEmpty(aw[k]); }
    ContainsInEmpty(Take(Lower(e.q), PhraseLength));
  }

  /** One of `findBestMatch`'s inner loops: the words longer than 3 characters, among
      `words`, that the input includes. */
  method CountLongWordsFound(input: string, words: seq<string>) returns (hits: nat)
    ensures hits == CountFound(input, LongWords(words))
  {
    hits := 0;
    var j := 0;
    while j < |words|
      invariant 0 <= j <= |words|
      invariant hits == CountFound(input, LongWords(words[..j]))
    {
      var word := words[j];
      assert words[..j + 1] == words[..j] + [word];
      assert words[..j + 1][..j] == words[..j];
      CountFoundSnoc(input, LongWords(words[..j]), word);
      if Contains(input, word) && |word| > 3 {
        hits := hits + 1;
      }
      j := j + 1;
    }
    assert words[..j] == words;
  }

  /** The score of one entry, computed as `findBestMatch` does: the question words, the
      answer words, then the phrase bonus. */
  method ScoreEntry(input: string, e: KnowledgeEntry) returns (score: nat)
    ensures score == Score(input, e)
  {
    var questionHits := CountLongWordsFound(input, Split(Lower(e.q)));
    var answerHits := CountLongWordsFound(input, Split(Lower(e.a)));
    score := QuestionWeight * questionHits + AnswerWeight * answerHits;
    if Contains(input, Take(Lower(e.q), PhraseLength)) {
      score := score + PhraseBonus;
    }
  }

  /** The scores of all entries, in table order. */
  function Scores(input: string, kb: seq<KnowledgeEntry>): (s: seq<nat>)
    ensures |s| == |kb|
  {
    if kb == [] then [] else Scores(input, kb[..|kb| - 1]) + [Score(input, kb[|kb| - 1])]
  }

  lemma {:induction false} ScoresAt(input: string, kb: seq<KnowledgeEntry>, k: nat)
    requires k < |kb|
    ensures Scores(input, kb)[k] == Score(input, kb[k])
  {
    if k < |kb| - 1 {
      ScoresAt(input, kb[..|kb| - 1], k);
    }
  }

  /** Index of the best of the first `n` scores: the highest, the earliest on a tie. */
  function BestIndex(scores: seq<nat>, n: nat): (k: nat)
    requires 0 < n <= |scores|
    ensures k < n
  {
    if n == 1 then 0
    else
      var k := BestIndex(scores, n - 1);
      if scores[n - 1] > scores[k] then n - 1 else k
  }

  /** The best index holds the highest score, and every earlier score is strictly lower. */
  lemma {:induction false} BestIndexIsFirstMax(scores: seq<nat>, n: nat)
    requires 0 < n <= |scores|
    ensures forall j :: 0 <= j < n ==> scores[j] <= scores[BestIndex(scores, n)]
    ensures forall j :: 0 <= j < BestIndex(scores, n) ==> scores[j] < scores[BestIndex(scores, n)]
  {
    if n > 1 {
      BestIndexIsFirstMax(scores, n - 1);
    }
  }

  /** The answer of the entry at the best index, when its score is above the confidence floor. */
  function Pick(scores: seq<nat>, kb: seq<KnowledgeEntry>): Option<string>
    requires |scores| == |kb|
  {
    if kb == [] then None
    else
      var k := BestIndex(scores, |kb|);
      if scores[k] > ConfidenceFloor then Some(kb[k].a) else None
  }

  /** The answer `findBestMatch` settles on, if any. */
  function BestMatch(input: string, kb: seq<KnowledgeEntry>): Option<string>
  {
    Pick(Scores(input, kb), kb)
  }

  /** The best match is the answer of the first entry with the highest score, when that score
      is above the confidence floor, and none when no score exceeds 3. */
  lemma BestMatchIsFirstMax(input: string, kb: seq<KnowledgeEntry>)
    ensures BestMatch(input, kb).None? <==> forall j :: 0 <= j < |kb| ==> Score(input, kb[j]) <= ConfidenceFloor
    ensures BestMatch(input, kb).Some? ==>
              exists k :: 0 <= k < |kb| && BestMatch(input, kb).value == kb[k].a
                          && Score(input, kb[k]) > ConfidenceFloor
                          && (forall j :: 0 <= j < |kb| ==> Score(input, kb[j]) <= Score(input, kb[k]))
                          && (forall j :: 0 <= j < k ==> Score(input, kb[j]) < Score(input, kb[k]))
  {
    if kb != [] {
      var scores := Scores(input, kb);
      BestIndexIsFirstMax(scores, |kb|);
      forall j | 0 <= j < |kb| ensures scores[j] == Score(input, kb[j]) {
        ScoresAt(input, kb, j);
      }
    }
  }

  /** `findBestMatch`: a scan keeping the first entry with the strictly highest score. */
  method FindBestMatch(input: string, responses: seq<KnowledgeEntry>) returns (r: Option<string>)
    ensures r == BestMatch(input, responses)
  {
    ghost var scores := Scores(input, responses);
    ghost var best := 0;
    var bestScore := 0;
    var bestResponse: Option<string> := None;
    var i := 0;
    while i < |responses|
      invariant 0 <= i <= |responses|
      invariant i == 0 ==> bestScore == 0 && best == 0
      invariant i > 0 ==> best == BestIndex(scores, i) && bestScore == scores[best]
      invariant bestScore > 0 ==> bestResponse == Some(responses[best].a)
    {
      var score := ScoreEntry(input, responses[i]);
      ScoresAt(input, responses, i);
      ghost var next := if i == 0 || scores[i] > scores[best] then i else best;
      assert next == BestIndex(scores, i + 1);
      if score > bestScore {
        best := i;
        bestScore := score;
        bestResponse := Some(responses[i].a);
      }
      assert best == next;
      i := i + 1;
    }
    r := if bestScore > ConfidenceFloor then bestResponse else None;
  }

  /** The finance keywords tried when no entry is confident, in order, with their replies. */
  const FinancialKeywords: seq<(string, string)> := [
    ("save", "Great question about saving! Based on your persona, I'd recommend starting with small, consistent amounts. What's your monthly income?"),
    ("invest", "Investment is key to building wealth! For your persona type, I suggest starting with low-risk options. How much can you invest monthly?"),
    ("budget", "Budgeting is essential! Let's create a simple plan. What are your main monthly expenses?"),
    ("emergency", "Emergency funds are crucial! Aim for 3-6 months of expenses. How much do you currently have saved?"),
    ("goal", "Setting financial goals is smart! What's your biggest financial dream right now?"),
    ("debt", "Let's tackle your debt strategically. What type of debt are you dealing with?"),
    ("income", "Understanding your income is the first step. Are you looking to increase it or manage it better?"),
    ("expense", "Tracking expenses helps a lot! What's your biggest spending category?"),
    ("plan", "Financial planning is wise! What timeline are you thinking about?"),
    ("help", "I'm here to help with all your money questions! What specific area would you like guidance on?")
  ]

  const ContextDefault := "I understand you're looking for more specific guidance. Could you tell me more about your financial situation or goals?"
  const FirstTimeDefault := "Hi! I'm here to help with your financial journey. You can ask me about saving, investing, budgeting, or any money-related questions. What would you like to know?"

  /** Index of the first keyword of `table` that the input includes. */
  function FirstKeyword(input: string, table: seq<(string, string)>): (r: Option<nat>)
    ensures r.None? <==> forall j :: 0 <= j < |table| ==> !Contains(input, table[j].0)
    ensures r.Some? ==> r.value < |table| && Contains(input, table[r.value].0)
                        && forall j :: 0 <= j < r.value ==> !Contains(input, table[j].0)
  {
    if table == [] then None
    else if Contains(input, table[0].0) then Some(0)
    else
      match FirstKeyword(input, table[1..])
      case None => None
      case Some(k) => Some(k + 1)
  }

  /** `generateContextualResponse`: the reply of the first included keyword, else a default
      chosen by whether there is any history. */
  function ContextualResponse(input: string, hasContext: bool): string
  {
    match FirstKeyword(input, FinancialKeywords)
    case Some(k) => FinancialKeywords[k].1
    case None => if hasContext then ContextDefault else FirstTimeDefault
  }

  /** Every keyword and every keyword reply is non-empty, and each reply differs, already in
      length, from both defaults. */
  lemma KeywordRepliesDistinct()
    ensures forall k :: 0 <= k < |FinancialKeywords| ==>
              |FinancialKeywords[k].0| > 0 && |FinancialKeywords[k].1| > 0
              && |FinancialKeywords[k].1| != |ContextDefault| && |FinancialKeywords[k].1| != |FirstTimeDefault|
  {
  }

  /** The fallback reply is never empty, and it is a keyword reply exactly when the input
      includes a keyword. */
  lemma ContextualResponseShape(input: string, hasContext: bool)
    ensures |ContextualResponse(input, hasContext)| > 0
    ensures (exists j :: 0 <= j < |FinancialKeywords| && Contains(input, FinancialKeywords[j].0))
            <==> ContextualResponse(input, hasContext) != ContextDefault
                 && ContextualResponse(input, hasContext) != FirstTimeDefault
  {
    KeywordRepliesDistinct();
    var r := ContextualResponse(input, hasContext);
    match FirstKeyword(input, FinancialKeywords)
    case Some(k) =>
      assert |r| != |ContextDefault| && |r| != |FirstTimeDefault|;
    case None =>
  }

  /** The fallback reply is that of the first keyword the input includes, and otherwise the
      default for the history state. */
  lemma ContextualResponseCases(input: string, hasContext: bool)
    ensures forall k :: 0 <= k < |FinancialKeywords| && Contains(input, FinancialKeywords[k].0)
                        && (forall j :: 0 <= j < k ==> !Contains(input, FinancialKeywords[j].0))
                        ==> ContextualResponse(input, hasContext) == FinancialKeywords[k].1
    ensures (forall j :: 0 <= j < |FinancialKeywords| ==> !Contains(input, FinancialKeywords[j].0))
            ==> ContextualResponse(input, hasContext) == if hasContext then ContextDefault else FirstTimeDefault
  {
    match FirstKeyword(input, FinancialKeywords)
    case Some(k) =>
      forall k' | 0 <= k' < |FinancialKeywords| && Contains(input, FinancialKeywords[k'].0)
                  && (forall j :: 0 <= j < k' ==> !Contains(input, FinancialKeywords[j].0))
        ensures k' == k
      {
        if k' < k {
        } else if k < k' {
        }
      }
    case None =>
  }

  /** The framing phrase per persona identifier. */
  const PersonalityPrefixes: seq<(string, string)> := [
    ("guardian", "For someone who values security like you, "),
    ("planner", "Since you love planning ahead, "),
    ("explorer", "Given your curiosity about new opportunities, "),
    ("avoider", "I know finance can feel overwhelming, so let's keep it simple: "),
    ("maverick", "For someone bold like you, "),
    ("independent", "Since you prefer making your own decisions, ")
  ]

  /** `personalityPrefixes[persona] || ""`. */
  function PersonalityPrefix(persona: string): string
  {
    match Lookup(PersonalityPrefixes, persona)
    case Some(prefix) => prefix
    case None => ""
  }

  /** The prefix table is keyed by the archetype identifiers, in scoreboard order. */
  lemma PrefixesInOrder()
    ensures |PersonalityPrefixes| == |Quiz.Order|
    ensures forall k :: 0 <= k < |Quiz.Order| ==> PersonalityPrefixes[k].0 == Quiz.Name(Quiz.Order[k])
    ensures forall k :: 0 <= k < |Quiz.Order| ==> |PersonalityPrefixes[k].1| > 0
  {
  }

  /** Every archetype has a framing phrase; any other identifier, the empty one included, has none. */
  lemma PrefixPerPersona(persona: string)
    ensures |PersonalityPrefix(persona)| > 0 <==> exists p: Quiz.Persona :: Quiz.Name(p) == persona
  {
    PrefixesInOrder();
    if exists p: Quiz.Persona :: Quiz.Name(p) == persona {
      var p: Quiz.Persona :| Quiz.Name(p) == persona;
      assert PersonalityPrefixes[Quiz.Rank(p)].0 == persona;
    } else {
      forall k | 0 <= k < |PersonalityPrefixes| ensures PersonalityPrefixes[k].0 != persona {
        assert PersonalityPrefixes[k].0 == Quiz.Name(Quiz.Order[k]);
      }
    }
  }

  /** `addPersonalityToResponse`: the reply, after the persona's framing phrase. */
  function AddPersonality(response: string, persona: string): (r: string)
    ensures |r| >= |response| && r[|r| - |response|..] == response
    ensures Lookup(PersonalityPrefixes, persona).None? ==> r == response
  {
    PersonalityPrefix(persona) + response
  }

  /** The answers `getPersonaResponses` supplies: every question and every answer is non-empty. */
  predicate Filled(responses: seq<KnowledgeEntry>)
  {
    forall k :: 0 <= k < |responses| ==> responses[k].q != "" && |responses[k].a| > 0
  }

  lemma KnowledgeBaseFilled()
    ensures Filled(KnowledgeBase)
  {
  }

  /** The reply before framing: the confident answer from `responses`, else the fallback. The
      test `!bestMatch` also sends an empty answer to the fallback. */
  function ChosenReply(responses: seq<KnowledgeEntry>, input: string, hasContext: bool): string
  {
    var bestMatch := BestMatch(input, responses);
    if bestMatch.Some? && bestMatch.value != "" then bestMatch.value
    else ContextualResponse(input, hasContext)
  }

  /** `generateIntelligentResponse` over the answers `responses`, given whether any history
      exists and the stored persona. */
  function Reply(responses: seq<KnowledgeEntry>, userInput: string, hasContext: bool, persona: string): string
  {
    AddPersonality(ChosenReply(responses, Lower(userInput), hasContext), persona)
  }

  /** The reply steps of `generateIntelligentResponse`: lower-case the input, scan for the
      confident answer, else fall back to the keywords, then frame for the persona. */
  method Respond(responses: seq<KnowledgeEntry>, userInput: string, hasContext: bool, persona: string)
    returns (response: string)
    ensures response == Reply(responses, userInput, hasContext, persona)
  {
    var input := Lower(userInput);
    var bestMatch := FindBestMatch(input, responses);
    var chosen: string;
    if bestMatch.Some? && bestMatch.value != "" {
      chosen := bestMatch.value;
    } else {
      chosen := ContextualResponse(input, hasContext);
    }
    response := AddPersonality(chosen, persona);
  }

  /** Every reply is non-empty, whatever the answers, and ends with the chosen reply. */
  lemma ReplyShape(responses: seq<KnowledgeEntry>, userInput: string, hasContext: bool, persona: string)
    ensures var r := Reply(responses, userInput, hasContext, persona);
            var chosen := ChosenReply(responses, Lower(userInput), hasContext);
            |r| > 0 && |r| >= |chosen| && r[|r| - |chosen|..] == chosen
  {
    ContextualResponseShape(Lower(userInput), hasContext);
  }

  /** The chosen reply is the answer of the first highest-scoring entry when some entry scores
      above the floor, and the keyword fallback otherwise. */
  lemma ChosenReplyIsBestOrFallback(responses: seq<KnowledgeEntry>, input: string, hasContext: bool)
    requires Filled(responses)
    ensures (exists j :: 0 <= j < |responses| && Score(input, responses[j]) > ConfidenceFloor) ==>
              exists k :: 0 <= k < |responses| && ChosenReply(responses, input, hasContext) == responses[k].a
                          && (forall j :: 0 <= j < |responses| ==> Score(input, responses[j]) <= Score(input, responses[k]))
                          && (forall j :: 0 <= j < k ==> Score(input, responses[j]) < Score(input, responses[k]))
    ensures (forall j :: 0 <= j < |responses| ==> Score(input, responses[j]) <= ConfidenceFloor) ==>
              ChosenReply(responses, input, hasContext) == ContextualResponse(input, hasContext)
  {
    BestMatchIsFirstMax(input, responses);
  }

  /** No entry with a non-empty question is confident about the empty input. */
  lemma EmptyInputMatchesNoEntry(responses: seq<KnowledgeEntry>)
    requires forall k :: 0 <= k < |responses| ==> responses[k].q != ""
    ensures BestMatch("", responses) == None
  {
    forall k | 0 <= k < |responses| ensures Score("", responses[k]) == 0 {
      EmptyInputScoresZero(responses[k]);
    }
    BestMatchIsFirstMax("", responses);
  }

  /** The empty input includes no finance keyword, so it gets a default reply. */
  lemma EmptyInputFallsBack(hasContext: bool)
    ensures ContextualResponse("", hasContext) == if hasContext then ContextDefault else FirstTimeDefault
  {
    KeywordRepliesDistinct();
    forall j | 0 <= j < |FinancialKeywords| ensures !Contains("", FinancialKeywords[j].0) {
      ContainsInEmpty(FinancialKeywords[j].0);
    }
    ContextualResponseCases("", hasContext);
  }

  /** The empty input matches no entry and no keyword, so the chosen reply is the default. */
  lemma EmptyInputChoosesDefault(responses: seq<KnowledgeEntry>, hasContext: bool)
    requires forall k :: 0 <= k < |responses| ==> responses[k].q != ""
    ensures ChosenReply(responses, "", hasContext) == if hasContext then ContextDefault else FirstTimeDefault
  {
    EmptyInputMatchesNoEntry(responses);
    EmptyInputFallsBack(hasContext);
  }

  /** The empty input gets the default reply, framed for the persona. */
  lemma EmptyInputGetsDefault(responses: seq<KnowledgeEntry>, hasContext: bool, persona: string)
    requires forall k :: 0 <= k < |responses| ==> responses[k].q != ""
    ensures Reply(responses, "", hasContext, persona)
            == PersonalityPrefix(persona) + (if hasContext then ContextDefault else FirstTimeDefault)
  {
    assert Lower("") == "";
    EmptyInputChoosesDefault(responses, hasContext);
  }

}
