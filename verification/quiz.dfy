/** The persona quiz's pure part: the six archetypes, their detection
    keywords, the scoreboard and how one answer raises it, and how the
    winner is picked once the ten questions are done. The quiz's mutable
    state (question index, live scoreboard) lives in the Assistant class. */
module Quiz {
  import opened Text

  datatype Persona = Guardian | Planner | Explorer | Avoider | Maverick | Independent

  /** The order of the scoreboard's keys, which is the order the winner is picked in. */
  const Order: seq<Persona> := [Guardian, Planner, Explorer, Avoider, Maverick, Independent]

  /** Position of an archetype in `Order`. */
  function Rank(p: Persona): (k: nat)
    ensures k < |Order| && Order[k] == p
  {
    match p
    case Guardian => 0
    case Planner => 1
    case Explorer => 2
    case Avoider => 3
    case Maverick => 4
    case Independent => 5
  }

  /** The identifier stored as the current persona. */
  function Name(p: Persona): string
  {
    match p
    case Guardian => "guardian"
    case Planner => "planner"
    case Explorer => "explorer"
    case Avoider => "avoider"
    case Maverick => "maverick"
    case Independent => "independent"
  }

  /** The detection patterns, in the order they are tried: an answer that includes a
      keyword credits its archetype. */
  const DetectionPatterns: seq<(Persona, seq<string>)> := [
    (Guardian, ["safe", "secure", "careful", "conservative", "protect", "anxious", "worried"]),
    (Planner, ["plan", "organize", "track", "budget", "save first", "research", "prepare"]),
    (Explorer, ["explore", "learn", "try", "curious", "new", "different", "experiment"]),
    (Avoider, ["avoid", "ignore", "overwhelming", "boring", "later", "procrastinate"]),
    (Maverick, ["risk", "bold", "quick", "aggressive", "high return", "gamble"]),
    (Independent, ["myself", "own", "research", "decide", "analyze", "logic", "data"])
  ]

  /** The patterns list the archetypes in scoreboard order. */
  lemma PatternsInOrder()
    ensures |DetectionPatterns| == |Order|
    ensures forall k :: 0 <= k < |Order| ==> DetectionPatterns[k].0 == Order[k]
  {
  }

  /** The keywords of one archetype. */
  function Keywords(p: Persona): seq<string>
  {
    DetectionPatterns[Rank(p)].1
  }

  /** The ten quiz questions, asked in this order. */
  const PersonaQuestions: seq<string> := [
    "When you get money, do you prefer planning what to do with it or just going with the flow?",
    "Do you track your monthly expenses or just check your balance now and then?",
    "Would you say you're someone who avoids thinking about finances until absolutely necessary?",
    "If you receive a sudden bonus, do you invest it, spend it, or let it sit in your account?",
    "Do you enjoy researching before buying or investing in something?",
    "How often do you compare yourself financially with friends or peers?",
    "Would you rather buy something on EMI or save up and buy later?",
    "Do you feel anxious when you check your bank account or confident?",
    "When traveling, do you plan every detail or go with the flow?",
    "Do you think of budgeting as empowering or restricting?"
  ]

  /** A scoreboard maps archetypes to hit counts; a complete one has all six keys. */
  type Scoreboard = map<Persona, int>

  predicate Complete(b: Scoreboard)
  {
    forall p: Persona :: p in b
  }

  /** The scoreboard a quiz starts from: every archetype at 0. */
  function ZeroBoard(): (b: Scoreboard)
    ensures Complete(b)
    ensures forall p: Persona :: b[p] == 0
  {
    assert forall p: Persona :: p in Order by {
      forall p: Persona ensures p in Order {
        assert Order[Rank(p)] == p;
      }
    }
    map p | p in Order :: 0
  }

  /** How much one (lower-cased) answer credits archetype `p`: one per keyword it includes. */
  function KeywordHits(response: string, p: Persona): nat
  {
    CountFound(response, Keywords(p))
  }

  /** The scoreboard after evaluating one lower-cased answer. */
  function Evaluate(b: Scoreboard, response: string): (r: Scoreboard)
    requires Complete(b)
    ensures Complete(r)
  {
    map p | p in b :: b[p] + KeywordHits(response, p)
  }

  /** Pattern entries name distinct archetypes. */
  predicate DistinctPersonas(patterns: seq<(Persona, seq<string>)>)
  {
    forall i, j :: 0 <= i < j < |patterns| ==> patterns[i].0 != patterns[j].0
  }

  /** The scoreboard after the pattern entries are tried in order, each entry crediting its
      archetype one point per keyword the answer includes. */
  function Credit(b: Scoreboard, patterns: seq<(Persona, seq<string>)>, response: string): (r: Scoreboard)
    requires Complete(b)
    ensures Complete(r)
  {
    if patterns == [] then b
    else
      var prev := Credit(b, patterns[..|patterns| - 1], response);
      var (p, keywords) := patterns[|patterns| - 1];
      prev[p := prev[p] + CountFound(response, keywords)]
  }

  /** With distinct archetypes, each listed archetype gains exactly its entry's hits and every
      other archetype keeps its score. */
  lemma {:induction false} CreditAt(b: Scoreboard, patterns: seq<(Persona, seq<string>)>, response: string, p: Persona)
    requires Complete(b) && DistinctPersonas(patterns)
    ensures forall k :: 0 <= k < |patterns| && patterns[k].0 == p ==>
              Credit(b, patterns, response)[p] == b[p] + CountFound(response, patterns[k].1)
    ensures (forall k :: 0 <= k < |patterns| ==> patterns[k].0 != p) ==> Credit(b, patterns, response)[p] == b[p]
  {
    if patterns != [] {
      var init := patterns[..|patterns| - 1];
      var last := patterns[|patterns| - 1];
      assert forall k :: 0 <= k < |init| ==> init[k] == patterns[k];
      CreditAt(b, init, response, p);
      if last.0 == p {
        assert forall k :: 0 <= k < |init| ==> init[k].0 != p;
      }
    }
  }

  /** Trying the detection patterns in order is `Evaluate`. */
  lemma DetectionCreditIsEvaluate(b: Scoreboard, response: string)
    requires Complete(b)
    ensures Credit(b, DetectionPatterns, response) == Evaluate(b, response)
  {
    PatternsInOrder();
    var credited := Credit(b, DetectionPatterns, response);
    var evaluated := Evaluate(b, response);
    assert DistinctPersonas(DetectionPatterns) by {
      forall i, j | 0 <= i < j < |DetectionPatterns| ensures DetectionPatterns[i].0 != DetectionPatterns[j].0 {
        assert Rank(DetectionPatterns[i].0) == i && Rank(DetectionPatterns[j].0) == j;
      }
    }
    forall p: Persona ensures credited[p] == evaluated[p] {
      CreditAt(b, DetectionPatterns, response, p);
      assert DetectionPatterns[Rank(p)].0 == p;
    }
    assert credited.Keys == evaluated.Keys;
  }

  /** An answer raises every score, by at most its keyword count: no keyword counts twice. */
  lemma EvaluateBounds(b: Scoreboard, response: string, p: Persona)
    requires Complete(b)
    ensures b[p] <= Evaluate(b, response)[p] <= b[p] + |Keywords(p)|
    ensures Evaluate(b, response)[p] == b[p] <==> forall k :: 0 <= k < |Keywords(p)| ==> !Contains(response, Keywords(p)[k])
  {
    CountFoundBounds(response, Keywords(p));
  }

  /** 'research' is a keyword of two archetypes and credits both. */
  lemma ResearchCreditsBoth(b: Scoreboard, response: string)
    requires Complete(b) && Contains(response, "research")
    ensures Evaluate(b, response)[Planner] >= b[Planner] + 1
    ensures Evaluate(b, response)[Independent] >= b[Independent] + 1
  {
    assert "research" == Keywords(Planner)[5];
    assert "research" == Keywords(Independent)[2];
    CountFoundPositive(response, Keywords(Planner), "research");
    CountFoundPositive(response, Keywords(Independent), "research");
  }

  /** What happens during one quiz turn: an answer transcript arrives, or the capture fails. */
  datatype QuizEvent = Answer(transcript: string) | RecognitionError

  /** The scoreboard after one turn: an answer is lower-cased and evaluated, an error is skipped. */
  function Turn(b: Scoreboard, e: QuizEvent): (r: Scoreboard)
    requires Complete(b)
    ensures Complete(r)
  {
    match e
    case Answer(t) => Evaluate(b, Lower(t))
    case RecognitionError => b
  }

  /** The scoreboard after a run of turns, in order. */
  function Tally(b: Scoreboard, events: seq<QuizEvent>): (r: Scoreboard)
    requires Complete(b)
    ensures Complete(r)
  {
    if events == [] then b
    else Turn(Tally(b, events[..|events| - 1]), events[|events| - 1])
  }

  /** Scores never decrease over a quiz, and each answer adds at most the archetype's keyword count. */
  lemma {:induction false} TallyBounds(b: Scoreboard, events: seq<QuizEvent>, p: Persona)
    requires Complete(b)
    ensures b[p] <= Tally(b, events)[p] <= b[p] + |events| * |Keywords(p)|
  {
    if events != [] {
      var init := events[..|events| - 1];
      TallyBounds(b, init, p);
      var last := events[|events| - 1];
      if last.Answer? {
        EvaluateBounds(Tally(b, init), Lower(last.transcript), p);
      }
      assert |events| * |Keywords(p)| == |init| * |Keywords(p)| + |Keywords(p)|;
    }
  }

  /** A quiz in which every capture failed leaves the scoreboard as it was. */
  lemma {:induction false} TallyAllErrors(b: Scoreboard, events: seq<QuizEvent>)
    requires Complete(b)
    requires forall k :: 0 <= k < |events| ==> events[k] == RecognitionError
    ensures Tally(b, events) == b
  {
    if events != [] {
      TallyAllErrors(b, events[..|events| - 1]);
    }
  }

  /** `Object.entries(scores)`: the scoreboard as (archetype, score) pairs in key order. */
  function Entries(b: Scoreboard): (es: seq<(Persona, int)>)
    requires Complete(b)
    ensures |es| == |Order|
    ensures forall k :: 0 <= k < |es| ==> es[k] == (Order[k], b[Order[k]])
  {
    seq(|Order|, k requires 0 <= k < |Order| => (Order[k], b[Order[k]]))
  }

  /** Inserting one pair in front of every pair whose score is not higher. */
  function Insert(x: (Persona, int), s: seq<(Persona, int)>): (r: seq<(Persona, int)>)
    ensures |r| == |s| + 1
  {
    if s == [] || x.1 >= s[0].1 then [x] + s else [s[0]] + Insert(x, s[1..])
  }

  /** The stable sort by descending score, `sort(([,a], [,b]) => b - a)`: an earlier pair
      stays ahead of a later pair with the same score. */
  function SortDesc(s: seq<(Persona, int)>): (r: seq<(Persona, int)>)
    ensures |r| == |s|
  {
    if s == [] then [] else Insert(s[0], SortDesc(s[1..]))
  }

  predicate SortedDesc(s: seq<(Persona, int)>)
  {
    forall i, j :: 0 <= i < j < |s| ==> s[i].1 >= s[j].1
  }

  lemma {:induction false} InsertSorted(x: (Persona, int), s: seq<(Persona, int)>)
    requires SortedDesc(s)
    ensures SortedDesc(Insert(x, s))
  {
    if s != [] && x.1 < s[0].1 {
      InsertSorted(x, s[1..]);
      InsertHead(x, s[1..]);
      var r := Insert(x, s);
      assert r == [s[0]] + Insert(x, s[1..]);
      forall i, j | 0 <= i < j < |r| ensures r[i].1 >= r[j].1 {
        if i == 0 {
          InsertBelow(x, s[1..], s[0].1, j - 1);
        }
      }
    }
  }

  lemma {:induction false} InsertHead(x: (Persona, int), s: seq<(Persona, int)>)
    ensures Insert(x, s)[0] == x || (s != [] && Insert(x, s)[0] == s[0])
  {
  }

  /** Inserting keeps every score under a bound that `x` and all of `s` respect. */
  lemma {:induction false} InsertBelow(x: (Persona, int), s: seq<(Persona, int)>, m: int, k: nat)
    requires x.1 <= m && forall i :: 0 <= i < |s| ==> s[i].1 <= m
    requires k < |s| + 1
    ensures Insert(x, s)[k].1 <= m
  {
    if s != [] && x.1 < s[0].1 && k > 0 {
      InsertBelow(x, s[1..], m, k - 1);
    }
  }

  lemma {:induction false} InsertMultiset(x: (Persona, int), s: seq<(Persona, int)>)
    ensures multiset(Insert(x, s)) == multiset(s) + multiset{x}
  {
    if s != [] && x.1 < s[0].1 {
      InsertMultiset(x, s[1..]);
      assert s == [s[0]] + s[1..];
    }
  }

  /** The sort orders the pairs by descending score and neither loses nor invents any. */
  lemma {:induction false} SortDescSortedPermutation(s: seq<(Persona, int)>)
    ensures SortedDesc(SortDesc(s))
    ensures multiset(SortDesc(s)) == multiset(s)
  {
    if s != [] {
      SortDescSortedPermutation(s[1..]);
      InsertSorted(s[0], SortDesc(s[1..]));
      InsertMultiset(s[0], SortDesc(s[1..]));
      assert s == [s[0]] + s[1..];
    }
  }

  /** The pair at index `k` has the highest score and no earlier pair reaches it. */
  ghost predicate FirstMax(s: seq<(Persona, int)>, k: int)
  {
    0 <= k < |s|
    && (forall j :: 0 <= j < |s| ==> s[j].1 <= s[k].1)
    && (forall j :: 0 <= j < k ==> s[j].1 < s[k].1)
  }

  /** The head of the stable descending sort is the first pair with the highest score. */
  lemma {:induction false} SortHeadIsFirstMax(s: seq<(Persona, int)>)
    requires s != []
    ensures exists k :: FirstMax(s, k) && SortDesc(s)[0] == s[k]
  {
    var rest := SortDesc(s[1..]);
    if s[1..] == [] {
      assert FirstMax(s, 0);
    } else {
      SortHeadIsFirstMax(s[1..]);
      var k' :| FirstMax(s[1..], k') && rest[0] == s[1..][k'];
      if s[0].1 >= rest[0].1 {
        assert SortDesc(s)[0] == s[0];
        assert FirstMax(s, 0);
      } else {
        assert SortDesc(s)[0] == rest[0];
        assert FirstMax(s, k' + 1);
      }
    }
  }

  /** `finishPersonaQuiz`'s choice: the archetype at the head of the sorted entries. */
  function TopPersona(b: Scoreboard): Persona
    requires Complete(b)
  {
    SortDesc(Entries(b))[0].0
  }

  /** The winner has the highest score, and every archetype listed before it scores strictly less. */
  ghost predicate IsFirstMaxPersona(b: Scoreboard, p: Persona)
    requires Complete(b)
  {
    && (forall q: Persona :: b[q] <= b[p])
    && (forall q: Persona :: Rank(q) < Rank(p) ==> b[q] < b[p])
  }

  lemma TopPersonaIsFirstMax(b: Scoreboard)
    requires Complete(b)
    ensures IsFirstMaxPersona(b, TopPersona(b))
  {
    var es := Entries(b);
    SortHeadIsFirstMax(es);
    var k :| FirstMax(es, k) && SortDesc(es)[0] == es[k];
    var top := TopPersona(b);
    assert top == Order[k];
    assert Rank(top) == k;
    forall q: Persona ensures b[q] <= b[top] && (Rank(q) < Rank(top) ==> b[q] < b[top]) {
      assert es[Rank(q)] == (q, b[q]);
    }
  }

  /** The first-maximum archetype is unique, so it is the winner. */
  lemma TopPersonaUnique(b: Scoreboard, p: Persona)
    requires Complete(b) && IsFirstMaxPersona(b, p)
    ensures TopPersona(b) == p
  {
    TopPersonaIsFirstMax(b);
    var top := TopPersona(b);
    assert Rank(top) == Rank(p);
  }

  /** An all-zero scoreboard, as left by a quiz of ten failed captures, elects the guardian. */
  lemma ZeroBoardElectsGuardian()
    ensures TopPersona(ZeroBoard()) == Guardian
  {
    TopPersonaUnique(ZeroBoard(), Guardian);
  }

  /** A guardian/planner tie at the top goes to the guardian, who is listed first. */
  lemma TieGoesToGuardian()
    ensures TopPersona(ZeroBoard()[Guardian := 2][Planner := 2]) == Guardian
  {
    TopPersonaUnique(ZeroBoard()[Guardian := 2][Planner := 2], Guardian);
  }
}
