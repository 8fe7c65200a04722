/** String helpers with the meaning of the JavaScript string operations the
    assistant relies on: `toLowerCase` (ASCII letters only), `includes`,
    `split(' ')`, `substring(0, n)`, and counting the words of a list that
    a text includes. */
module Text {

  /** `c.toLowerCase()` restricted to ASCII: 'A'..'Z' become 'a'..'z'. */
  function LowerChar(c: char): (d: char)
    ensures 'A' <= c <= 'Z' ==> 'a' <= d <= 'z' && d as int - c as int == 32
    ensures !('A' <= c <= 'Z') ==> d == c
  {
    if 'A' <= c <= 'Z' then (c as int + 32) as char else c
  }

  /** `s.toLowerCase()`, character by character. */
  function Lower(s: string): (r: string)
    ensures |r| == |s|
  {
    if s == [] then [] else [LowerChar(s[0])] + Lower(s[1..])
  }

  /** Lower-casing works on each character in place. */
  lemma {:induction false} LowerAt(s: string)
    ensures forall i :: 0 <= i < |s| ==> Lower(s)[i] == LowerChar(s[i])
  {
    if s != [] {
      LowerAt(s[1..]);
    }
  }

  predicate IsLower(s: string)
  {
    forall i :: 0 <= i < |s| ==> !('A' <= s[i] <= 'Z')
  }

  /** Lower-casing yields lower-case text and leaves lower-case text alone. */
  lemma LowerIdempotent(s: string)
    ensures IsLower(Lower(s))
    ensures IsLower(s) ==> Lower(s) == s
  {
    LowerAt(s);
    if IsLower(s) {
      assert forall i :: 0 <= i < |s| ==> Lower(s)[i] == s[i];
    }
  }

  /** `hay.includes(needle)`: does `needle` occur in `hay` at some offset? */
  function Contains(hay: string, needle: string): (b: bool)
    decreases |hay|
  {
    if |needle| > |hay| then false
    else if hay[..|needle|] == needle then true
    else Contains(hay[1..], needle)
  }

  ghost predicate OccursAt(hay: string, needle: string, i: int)
  {
    0 <= i && i + |needle| <= |hay| && hay[i..i + |needle|] == needle
  }

  /** `Contains` is exactly "occurs at some offset". */
  lemma {:induction false} ContainsIff(hay: string, needle: string)
    ensures Contains(hay, needle) <==> exists i :: OccursAt(hay, needle, i)
    decreases |hay|
  {
    if |needle| > |hay| {
    } else if hay[..|needle|] == needle {
      assert OccursAt(hay, needle, 0);
    } else {
      ContainsIff(hay[1..], needle);
      if Contains(hay[1..], needle) {
        var i :| OccursAt(hay[1..], needle, i);
        assert hay[1..][i..i + |needle|] == hay[i + 1..i + 1 + |needle|];
        assert OccursAt(hay, needle, i + 1);
      } else {
        forall i | OccursAt(hay, needle, i) ensures false {
          if i > 0 {
            assert hay[1..][i - 1..i - 1 + |needle|] == hay[i..i + |needle|];
            assert OccursAt(hay[1..], needle, i - 1);
          }
        }
      }
    }
  }

  /** Nothing but the empty string occurs in the empty text. */
  lemma ContainsInEmpty(needle: string)
    ensures Contains("", needle) <==> needle == ""
  {
  }

  /** `s.substring(0, n)`: the first `n` characters, or all of `s` when shorter. */
  function Take(s: string, n: nat): (r: string)
    ensures |r| == if |s| < n then |s| else n
    ensures r <= s
  {
    if |s| <= n then s else s[..n]
  }

  /** `s.split(' ')`: the pieces between single spaces; empty pieces are kept. */
  function Split(s: string): (words: seq<string>)
    ensures |words| >= 1
    decreases |s|
  {
    if s == [] then [""]
    else if s[0] == ' ' then [""] + Split(s[1..])
    else
      var rest := Split(s[1..]);
      [[s[0]] + rest[0]] + rest[1..]
  }

  /** `words.join(' ')`, the inverse of `Split`. */
  function Join(words: seq<string>): string
    requires |words| >= 1
  {
    if |words| == 1 then words[0] else words[0] + " " + Join(words[1..])
  }

  predicate NoSpace(w: string)
  {
    forall i :: 0 <= i < |w| ==> w[i] != ' '
  }

  /** Splitting loses nothing: the pieces join back to the text. */
  lemma {:induction false} SplitJoin(s: string)
    ensures Join(Split(s)) == s
    decreases |s|
  {
    if s == [] {
    } else if s[0] == ' ' {
      SplitJoin(s[1..]);
      var rest := Split(s[1..]);
      assert Split(s) == [""] + rest;
      assert Join([""] + rest) == "" + " " + Join(rest);
      assert s == [' '] + s[1..];
    } else {
      SplitJoin(s[1..]);
      var rest := Split(s[1..]);
      var words := Split(s);
      assert words == [[s[0]] + rest[0]] + rest[1..];
      if |rest| == 1 {
        assert Join(words) == [s[0]] + rest[0];
      } else {
        assert words[1..] == rest[1..];
        assert Join(words) == [s[0]] + rest[0] + " " + Join(rest[1..]);
        assert Join(rest) == rest[0] + " " + Join(rest[1..]);
      }
      assert s == [s[0]] + s[1..];
    }
  }

  /** No piece of a split holds a space. */
  lemma {:induction false} SplitNoSpace(s: string)
    ensures forall k :: 0 <= k < |Split(s)| ==> NoSpace(Split(s)[k])
    decreases |s|
  {
    if s != [] {
      SplitNoSpace(s[1..]);
      var rest := Split(s[1..]);
      var words := Split(s);
      if s[0] == ' ' {
        assert words == [""] + rest;
        forall k | 0 <= k < |words| ensures NoSpace(words[k]) {
          if k > 0 {
            assert words[k] == rest[k - 1];
          }
        }
      } else {
        assert words == [[s[0]] + rest[0]] + rest[1..];
        forall k | 0 <= k < |words| ensures NoSpace(words[k]) {
          if k == 0 {
            assert NoSpace(rest[0]);
          } else {
            assert words[k] == rest[k];
          }
        }
      }
    }
  }

  /** The words that the scorer looks at: those of length greater than 3. */
  function LongWords(words: seq<string>): (r: seq<string>)
  {
    if words == [] then []
    else
      var init := LongWords(words[..|words| - 1]);
      var last := words[|words| - 1];
      if |last| > 3 then init + [last] else init
  }

  /** The long words are words of the list, each longer than 3 characters, and no more of them. */
  lemma {:induction false} LongWordsSound(words: seq<string>)
    ensures |LongWords(words)| <= |words|
    ensures forall k :: 0 <= k < |LongWords(words)| ==> |LongWords(words)[k]| > 3 && LongWords(words)[k] in words
  {
    if words != [] {
      var init := words[..|words| - 1];
      LongWordsSound(init);
      assert words == init + [words[|words| - 1]];
    }
  }

  /** Every word of the list longer than 3 characters is among the long words, as often as
      it occurs in the list; shorter words are dropped. */
  lemma {:induction false} LongWordsComplete(words: seq<string>)
    ensures forall w :: w in words && |w| > 3 ==> w in LongWords(words)
    ensures forall w :: multiset(LongWords(words))[w] == if |w| > 3 then multiset(words)[w] else 0
  {
    if words != [] {
      var init := words[..|words| - 1];
      var last := words[|words| - 1];
      LongWordsComplete(init);
      assert words == init + [last];
      assert multiset(words) == multiset(init) + multiset{last};
    }
  }

  /** How many entries of `words` (counted with repetition) `text` includes. */
  function CountFound(text: string, words: seq<string>): nat
  {
    if words == [] then 0
    else CountFound(text, words[..|words| - 1]) + (if Contains(text, words[|words| - 1]) then 1 else 0)
  }

  /** The count is at most the number of words, and is zero exactly when no word is included. */
  lemma {:induction false} CountFoundBounds(text: string, words: seq<string>)
    ensures CountFound(text, words) <= |words|
    ensures CountFound(text, words) == 0 <==> forall k :: 0 <= k < |words| ==> !Contains(text, words[k])
  {
    if words != [] {
      var init := words[..|words| - 1];
      CountFoundBounds(text, init);
      assert forall k :: 0 <= k < |init| ==> init[k] == words[k];
    }
  }

  /** An included word is counted at least once. */
  lemma {:induction false} CountFoundPositive(text: string, words: seq<string>, w: string)
    requires w in words && Contains(text, w)
    ensures CountFound(text, words) >= 1
  {
    var last := words[|words| - 1];
    if last != w {
      var init := words[..|words| - 1];
      assert words == init + [last];
      CountFoundPositive(text, init, w);
    }
  }

  /** The positions of the list holding a word the text includes. */
  ghost function FoundAt(text: string, words: seq<string>): set<int>
  {
    set i | 0 <= i < |words| && Contains(text, words[i])
  }

  /** The count is the number of positions of the list holding a word the text includes,
      so a word listed twice is counted twice. */
  lemma {:induction false} CountFoundPositions(text: string, words: seq<string>)
    ensures CountFound(text, words) == |FoundAt(text, words)|
  {
    if words != [] {
      var n := |words| - 1;
      var init := words[..n];
      CountFoundPositions(text, init);
      assert forall i :: 0 <= i < n ==> init[i] == words[i];
      if Contains(text, words[n]) {
        assert FoundAt(text, words) == FoundAt(text, init) + {n};
        assert n !in FoundAt(text, init);
      } else {
        assert FoundAt(text, words) == FoundAt(text, init);
      }
    }
  }

  /** One more word raises the count by one exactly when the text includes it. */
  lemma CountFoundSnoc(text: string, words: seq<string>, w: string)
    ensures CountFound(text, words + [w]) == CountFound(text, words) + (if Contains(text, w) then 1 else 0)
  {
    assert (words + [w])[..|words|] == words;
  }
}
