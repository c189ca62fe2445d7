/** The spaCy-free parts of the feature extractor (src/humor_features/extractor.py): the atomic
    features of the raw text, the structural arithmetic over sentence lengths, the wordplay scan,
    the pause count and the narrative decision rules. The parsed document is abstracted as a
    sequence of tokens, the sentence lengths and the tagger's counts. */
module Extractor {
  import opened Text
  import opened Base

  /** What the extractor reads of one spaCy token. */
  datatype Token = Token(text: string, isSpace: bool, isPunct: bool)

  /** The first `n` elements, or all of them: `xs[:n]`. */
  function Take<T>(xs: seq<T>, n: nat): (r: seq<T>)
    ensures |r| <= n && |r| <= |xs|
    ensures r == xs[..|r|]
    ensures |r| < n ==> r == xs
  {
    if |xs| > n then xs[..n] else xs
  }

  // ---- _extract_atomic ----

  /** `sum(1 for c in text if ord(c) > 0x1F300)` */
  function EmojiCount(s: string): (n: nat)
    ensures n <= |s|
    decreases |s|
  {
    if s == [] then 0
    else EmojiCount(s[..|s| - 1]) + if s[|s| - 1] as int > 0x1F300 then 1 else 0
  }

  /** `str.isupper()`: at least one cased character and no lower-case one. */
  predicate IsUpperWord(w: string) {
    (exists i :: 0 <= i < |w| && IsUpperChar(w[i])) && forall i :: 0 <= i < |w| ==> !IsLowerChar(w[i])
  }

  /** `[w for w in words if w.isupper() and len(w) > 1]` */
  function CapsWords(words: seq<string>): (caps: seq<string>)
    ensures |caps| <= |words|
    ensures forall w :: w in caps <==> w in words && IsUpperWord(w) && |w| > 1
    decreases |words|
  {
    if words == [] then []
    else
      var last := words[|words| - 1];
      assert words == words[..|words| - 1] + [last];
      CapsWords(words[..|words| - 1]) + if IsUpperWord(last) && |last| > 1 then [last] else []
  }

  /** `caps_words_count` counts every whitespace-split word that is upper-case and longer than one
      character, as often as it occurs, and nothing else. */
  lemma {:induction false} CapsWordsCount(words: seq<string>, w: string)
    ensures multiset(CapsWords(words))[w] == if IsUpperWord(w) && |w| > 1 then multiset(words)[w] else 0
    decreases |words|
  {
    if words != [] {
      var last := words[|words| - 1];
      assert words == words[..|words| - 1] + [last];
      CapsWordsCount(words[..|words| - 1], w);
    }
  }

  /** The distinct words in order of first occurrence: the key order of `word_counts`. */
  function Distinct(words: seq<string>): seq<string>
    decreases |words|
  {
    if words == [] then []
    else
      var init := words[..|words| - 1];
      var last := words[|words| - 1];
      Distinct(init) + if last in init then [] else [last]
  }

  /** The loop filling `word_counts`: its keys in insertion order and each word's count. */
  method CountWords(words: seq<string>) returns (counts: map<string, nat>, order: seq<string>)
    ensures order == Distinct(words)
    ensures forall w :: w in counts <==> w in words
    ensures forall w :: w in counts ==> counts[w] == multiset(words)[w]
  {
    counts := map[];
    order := [];
    for i := 0 to |words|
      invariant order == Distinct(words[..i])
      invariant forall w :: w in counts <==> w in words[..i]
      invariant forall w :: w in counts ==> counts[w] == multiset(words[..i])[w]
    {
      var w := words[i];
      assert words[..i + 1] == words[..i] + [w];
      DistinctStep(words, i);
      if w in counts {
        counts := counts[w := counts[w] + 1];
      } else {
        counts := counts[w := 1];
        order := order + [w];
      }
    }
    assert words[..|words|] == words;
  }

  /** The counting loop's step: `words[i]` joins the key order only on its first occurrence. */
  lemma {:induction false} DistinctStep(words: seq<string>, i: nat)
    requires i < |words|
    ensures words[i] in words[..i] ==> Distinct(words[..i + 1]) == Distinct(words[..i])
    ensures words[i] !in words[..i] ==> Distinct(words[..i + 1]) == Distinct(words[..i]) + [words[i]]
  {
    assert words[..i + 1][..i] == words[..i];
    assert Distinct(words[..i]) + [] == Distinct(words[..i]);
  }

  /** `[w for w, count in word_counts.items() if count > 1]` */
  function Repeated(order: seq<string>, occurrences: multiset<string>): seq<string>
    decreases |order|
  {
    if order == [] then []
    else
      var last := order[|order| - 1];
      Repeated(order[..|order| - 1], occurrences) + if occurrences[last] > 1 then [last] else []
  }

  /** The `repetitions` feature: at most five repeated words. */
  function Repetitions(words: seq<string>): seq<string> {
    Take(Repeated(Distinct(words), multiset(words)), 5)
  }

  const SoundPatterns: seq<string> := ["ha", "he", "hi", "ho", "chu", "bum", "pif", "paf"]

  const ExaggerationWords: set<string> := {
    "nigdy", "zawsze", "wszyscy", "nikt", "wszystko", "nic",
    "kompletnie", "totalnie", "absolutnie", "mega", "ultra"
  }

  /** `[w for w in words if any(p in w for p in sound_patterns)]` */
  function SoundWords(words: seq<string>): seq<string>
    decreases |words|
  {
    if words == [] then []
    else
      var last := words[|words| - 1];
      SoundWords(words[..|words| - 1]) + if AnyIn(SoundPatterns, last) then [last] else []
  }

  /** `[w for w in words if w in self.exaggeration_words]` */
  function Hyperboles(words: seq<string>): seq<string>
    decreases |words|
  {
    if words == [] then []
    else
      var last := words[|words| - 1];
      Hyperboles(words[..|words| - 1]) + if last in ExaggerationWords then [last] else []
  }

  datatype AtomicFeatures = AtomicFeatures(
    emojiCount: nat, exclamationCount: nat, capsWordsCount: nat,
    repetitions: seq<string>, soundWords: seq<string>, hyperboles: seq<string>)

  /** `_extract_atomic(text)` */
  function AtomicOf(text: string): AtomicFeatures {
    var words := Words(Lower(text));
    AtomicFeatures(EmojiCount(text), Count(text, "!"), |CapsWords(Words(text))|,
                   Repetitions(words), SoundWords(words), Hyperboles(words))
  }

  method ExtractAtomic(text: string) returns (f: AtomicFeatures)
    ensures f == AtomicOf(text)
  {
    var words := Words(Lower(text));
    var counts, order := CountWords(words);
    var repetitions := [];
    for k := 0 to |order|
      invariant repetitions == Repeated(order[..k], multiset(words))
    {
      assert order[..k + 1][..k] == order[..k];
      DistinctFacts(words);
      assert order[k] in words;
      if counts[order[k]] > 1 {
        repetitions := repetitions + [order[k]];
      }
    }
    assert order[..|order|] == order;
    f := AtomicFeatures(EmojiCount(text), Count(text, "!"), |CapsWords(Words(text))|,
                        Take(repetitions, 5), SoundWords(words), Hyperboles(words));
  }

  /** `word_counts` has one key per distinct word, never twice. */
  lemma {:induction false} DistinctFacts(words: seq<string>)
    ensures forall w :: w in Distinct(words) <==> w in words
    ensures forall i, j :: 0 <= i < j < |Distinct(words)| ==> Distinct(words)[i] != Distinct(words)[j]
    decreases |words|
  {
    if words != [] {
      var init := words[..|words| - 1];
      DistinctFacts(init);
      assert words == init + [words[|words| - 1]];
    }
  }

  /** The filter over the count table keeps exactly the listed words occurring more than once. */
  lemma {:induction false} RepeatedIff(order: seq<string>, occurrences: multiset<string>, w: string)
    ensures w in Repeated(order, occurrences) <==> w in order && occurrences[w] > 1
    decreases |order|
  {
    if order != [] {
      var init := order[..|order| - 1];
      RepeatedIff(init, occurrences, w);
      assert order == init + [order[|order| - 1]];
    }
  }

  /** A word is reported as repeated only if it occurs at least twice; when fewer than five are
      reported, every word occurring at least twice is among them. */
  lemma {:induction false} RepetitionsIff(words: seq<string>, w: string)
    ensures |Repetitions(words)| <= 5
    ensures w in Repetitions(words) ==> multiset(words)[w] > 1
    ensures |Repetitions(words)| < 5 ==> (w in Repetitions(words) <==> multiset(words)[w] > 1)
  {
    var all := Repeated(Distinct(words), multiset(words));
    DistinctFacts(words);
    RepeatedIff(Distinct(words), multiset(words), w);
    if w in Repetitions(words) {
      assert w in all;
    }
  }

  /** The exclamation count is the number of '!' characters. */
  lemma {:induction false} ExclamationCountIsCharCount(text: string)
    ensures AtomicOf(text).exclamationCount == multiset(text)['!']
  {
    CountChar(text, '!');
  }

  // ---- _extract_structural (the arithmetic) ----

  /** The exact-integer fields of `StructuralFeatures`; the average and variance are floats. */
  datatype StructuralFeatures = StructuralFeatures(
    sentenceCount: nat, hasQuestion: bool, sentenceLengths: seq<nat>,
    hasClearPunchline: bool, setupLength: nat, punchlineLength: nat)

  /** `_extract_structural(doc, text)` over the lengths of the parsed sentences. */
  function StructuralOf(lengths: seq<nat>, text: string): (f: StructuralFeatures)
    ensures f.sentenceCount == |lengths| && f.sentenceLengths == lengths
    ensures f.hasClearPunchline <==> f.sentenceCount >= 2
    ensures f.setupLength + f.punchlineLength == Sum(lengths)
    ensures f.sentenceCount < 2 ==> f.setupLength == 0
    ensures f.sentenceCount > 0 ==> f.punchlineLength == lengths[|lengths| - 1]
  {
    var n := |lengths|;
    StructuralFeatures(
      n, '?' in text, lengths, n >= 2,
      if n > 1 then Sum(lengths[..n - 1]) else 0,
      if n > 0 then lengths[n - 1] else 0)
  }

  // ---- _extract_semantic: the wordplay scan ----

  /** `[t.text.lower() for t in doc if not t.is_space and not t.is_punct]` */
  function ContentWords(tokens: seq<Token>): (words: seq<string>)
    ensures |words| <= |tokens|
    decreases |tokens|
  {
    if tokens == [] then []
    else
      var last := tokens[|tokens| - 1];
      ContentWords(tokens[..|tokens| - 1]) + if !last.isSpace && !last.isPunct then [Lower(last.text)] else []
  }

  /** A word is a content word exactly when it is the lower-cased text of a token that is
      neither space nor punctuation. */
  lemma {:induction false} ContentWordsIff(tokens: seq<Token>, w: string)
    ensures w in ContentWords(tokens) <==>
      exists i :: 0 <= i < |tokens| && !tokens[i].isSpace && !tokens[i].isPunct && w == Lower(tokens[i].text)
    decreases |tokens|
  {
    if tokens != [] {
      var init := tokens[..|tokens| - 1];
      ContentWordsIff(init, w);
      assert forall i :: 0 <= i < |init| ==> init[i] == tokens[i];
    }
  }

  /** Two words that may form a pun: both longer than three letters, the same first three, and
      different. */
  predicate Similar(w1: string, w2: string) {
    |w1| > 3 && |w2| > 3 && w1[..3] == w2[..3] && w1 != w2
  }

  function Pun(w1: string, w2: string): string {
    w1 + "/" + w2
  }

  /** The candidates the inner loop adds for `words[i]` against `words[i+1..hi]`. */
  function Row(words: seq<string>, i: nat, hi: nat): seq<string>
    requires i < hi <= |words|
    decreases hi
  {
    if hi == i + 1 then []
    else Row(words, i, hi - 1) + if Similar(words[i], words[hi - 1]) then [Pun(words[i], words[hi - 1])] else []
  }

  /** The candidates after the outer loop has handled `words[..n]`. */
  function Candidates(words: seq<string>, n: nat): seq<string>
    requires n <= |words|
    decreases n
  {
    if n == 0 then [] else Candidates(words, n - 1) + Row(words, n - 1, |words|)
  }

  /** The nested loop collecting `wordplay`, then `wordplay[:5]`. */
  method Wordplay(words: seq<string>) returns (wordplay: seq<string>)
    ensures wordplay == Take(Candidates(words, |words|), 5)
  {
    var all := [];
    for i := 0 to |words|
      invariant all == Candidates(words, i)
    {
      ghost var done := all;
      assert done + Row(words, i, i + 1) == done + [] == done;
      for j := i + 1 to |words|
        invariant all == done + Row(words, i, j)
      {
        RowStep(words, i, j);
        if |words[i]| > 3 && |words[j]| > 3 && words[i][..3] == words[j][..3] && words[i] != words[j] {
          all := all + [words[i] + "/" + words[j]];
          assert all == done + (Row(words, i, j) + [Pun(words[i], words[j])]);
        }
      }
    }
    wordplay := Take(all, 5);
  }

  /** The wordplay scan over the content words of the parsed text. */
  method WordplayOf(tokens: seq<Token>) returns (wordplay: seq<string>)
    ensures var words := ContentWords(tokens); wordplay == Take(Candidates(words, |words|), 5)
  {
    wordplay := Wordplay(ContentWords(tokens));
  }

  /** The inner loop's step: `words[j]` adds its pun with `words[i]` exactly when they are similar. */
  lemma {:induction false} RowStep(words: seq<string>, i: nat, j: nat)
    requires i < j < |words|
    ensures Similar(words[i], words[j]) ==> Row(words, i, j + 1) == Row(words, i, j) + [Pun(words[i], words[j])]
    ensures !Similar(words[i], words[j]) ==> Row(words, i, j + 1) == Row(words, i, j)
  {
    assert Row(words, i, j) + [] == Row(words, i, j);
  }

  /** The row holds exactly the pairs of `words[i]` with a later similar word below `hi`. */
  lemma {:induction false} RowIff(words: seq<string>, i: nat, hi: nat, c: string)
    requires i < hi <= |words|
    ensures c in Row(words, i, hi) <==> exists j :: i < j < hi && Similar(words[i], words[j]) && c == Pun(words[i], words[j])
    decreases hi
  {
    if hi > i + 1 {
      RowIff(words, i, hi - 1, c);
    }
  }

  /** A wordplay candidate is exactly a pair of similar words in reading order. */
  lemma {:induction false} CandidatesIff(words: seq<string>, c: string)
    ensures c in Candidates(words, |words|) <==>
      exists i, j :: 0 <= i < j < |words| && Similar(words[i], words[j]) && c == Pun(words[i], words[j])
  {
    if c in Candidates(words, |words|) {
      CandidateIsPair(words, |words|, c);
    }
    if exists i, j :: 0 <= i < j < |words| && Similar(words[i], words[j]) && c == Pun(words[i], words[j]) {
      var i, j :| 0 <= i < j < |words| && Similar(words[i], words[j]) && c == Pun(words[i], words[j]);
      PairIsCandidate(words, |words|, i, j);
    }
  }

  lemma {:induction false} CandidateIsPair(words: seq<string>, n: nat, c: string)
    requires n <= |words| && c in Candidates(words, n)
    ensures exists i, j :: 0 <= i < n && i < j < |words| && Similar(words[i], words[j]) && c == Pun(words[i], words[j])
    decreases n
  {
    if c in Candidates(words, n - 1) {
      CandidateIsPair(words, n - 1, c);
    } else {
      RowIff(words, n - 1, |words|, c);
    }
  }

  lemma {:induction false} PairIsCandidate(words: seq<string>, n: nat, i: nat, j: nat)
    requires n <= |words| && i < n && i < j < |words| && Similar(words[i], words[j])
    ensures Pun(words[i], words[j]) in Candidates(words, n)
    decreases n
  {
    if i == n - 1 {
      PairInRow(words, i, |words|, j);
    } else {
      PairIsCandidate(words, n - 1, i, j);
    }
  }

  /** A similar later word below `hi` puts its pun in the row of `words[i]`. */
  lemma {:induction false} PairInRow(words: seq<string>, i: nat, hi: nat, j: nat)
    requires i < j < hi <= |words| && Similar(words[i], words[j])
    ensures Pun(words[i], words[j]) in Row(words, i, hi)
    decreases hi
  {
    if j < hi - 1 {
      PairInRow(words, i, hi - 1, j);
    }
  }

  // ---- _extract_timing: pause indicators ----

  /** `text.count(',') + text.count('.') + text.count(';') + text.count(':')` */
  function PauseIndicators(text: string): nat {
    Count(text, ",") + Count(text, ".") + Count(text, ";") + Count(text, ":")
  }

  /** Each one-character count is the number of that character, so the pause count is the number
      of commas, full stops, semicolons and colons. */
  lemma {:induction false} PauseIndicatorsCountChars(text: string)
    ensures PauseIndicators(text) == multiset(text)[','] + multiset(text)['.'] + multiset(text)[';'] + multiset(text)[':']
  {
    CountChar(text, ',');
    CountChar(text, '.');
    CountChar(text, ';');
    CountChar(text, ':');
  }

  // ---- _extract_narrative ----

  const FirstPersonWords: seq<string> := ["ja", "mnie", "mój", "moja"]
  const ThirdPersonWords: seq<string> := ["on", "ona", "jego", "jej"]
  const PositiveWords: seq<string> := ["dobrze", "super", "świetnie", "wspaniale"]
  const NegativeWords: seq<string> := ["źle", "słabo", "kiepsko", "fatalnie"]
  const ConflictWords: seq<string> := ["ale", "jednak", "niestety", "problem"]
  const ResolutionWords: seq<string> := ["więc", "dlatego", "w końcu", "okazało się"]

  /** `sum(1 for t in doc if t.text.lower() in listed)` */
  function CountListed(tokens: seq<Token>, listed: seq<string>): (n: nat)
    ensures n <= |tokens|
    decreases |tokens|
  {
    if tokens == [] then 0
    else CountListed(tokens[..|tokens| - 1], listed) + if Lower(tokens[|tokens| - 1].text) in listed then 1 else 0
  }

  /** `any(t.text.lower() in listed for t in doc)` */
  predicate AnyListed(tokens: seq<Token>, listed: seq<string>) {
    exists i :: 0 <= i < |tokens| && Lower(tokens[i].text) in listed
  }

  /** The three-way comparison behind the perspective and the emotional arc: the strictly larger
      count wins, a tie is neutral. */
  function Compare(a: nat, b: nat, aWins: string, bWins: string): string {
    if a > b then aWins else if b > a then bWins else "neutral"
  }

  function Perspective(firstPerson: nat, thirdPerson: nat): string {
    Compare(firstPerson, thirdPerson, "1st person", "3rd person")
  }

  function EmotionalArc(positive: nat, negative: nat): string {
    Compare(positive, negative, "positive", "negative")
  }

  /** `min(characters, 10)` with `characters` the PER entities plus the distinct lower-cased
      pronouns. */
  function CharacterCount(personEntities: nat, pronouns: seq<string>): (n: nat)
    ensures n <= 10
    ensures n <= personEntities + |pronouns|
  {
    DistinctLowerBound(pronouns);
    var characters := personEntities + |LowerSet(pronouns)|;
    if characters < 10 then characters else 10
  }

  /** `set([p.lower() for p in pronouns])` */
  function LowerSet(pronouns: seq<string>): set<string> {
    set i | 0 <= i < |pronouns| :: Lower(pronouns[i])
  }

  datatype NarrativeFeatures = NarrativeFeatures(
    perspective: string, emotionalArc: string, conflictPresent: bool, resolutionPresent: bool,
    characterCount: nat)

  /** `_extract_narrative`, given the tokens, the number of PER entities and the texts of the
      PRON tokens. */
  function NarrativeOf(tokens: seq<Token>, personEntities: nat, pronouns: seq<string>): (n: NarrativeFeatures)
    ensures n.perspective == "1st person" <==> CountListed(tokens, FirstPersonWords) > CountListed(tokens, ThirdPersonWords)
    ensures n.perspective == "3rd person" <==> CountListed(tokens, ThirdPersonWords) > CountListed(tokens, FirstPersonWords)
    ensures n.perspective == "neutral" <==> CountListed(tokens, FirstPersonWords) == CountListed(tokens, ThirdPersonWords)
    ensures n.emotionalArc == "positive" <==> CountListed(tokens, PositiveWords) > CountListed(tokens, NegativeWords)
    ensures n.emotionalArc == "negative" <==> CountListed(tokens, NegativeWords) > CountListed(tokens, PositiveWords)
    ensures n.emotionalArc == "neutral" <==> CountListed(tokens, PositiveWords) == CountListed(tokens, NegativeWords)
    ensures n.conflictPresent <==> AnyListed(tokens, ConflictWords)
    ensures n.resolutionPresent <==> AnyListed(tokens, ResolutionWords)
    ensures n.characterCount <= 10 && n.characterCount <= personEntities + |pronouns|
  {
    PerspectiveFacts(CountListed(tokens, FirstPersonWords), CountListed(tokens, ThirdPersonWords));
    CompareFacts(CountListed(tokens, PositiveWords), CountListed(tokens, NegativeWords), "positive", "negative");
    NarrativeFeatures(
      Perspective(CountListed(tokens, FirstPersonWords), CountListed(tokens, ThirdPersonWords)),
      EmotionalArc(CountListed(tokens, PositiveWords), CountListed(tokens, NegativeWords)),
      AnyListed(tokens, ConflictWords),
      AnyListed(tokens, ResolutionWords),
      CharacterCount(personEntities, pronouns))
  }

  /** The comparison names the strictly larger side, is neutral exactly on a tie, and swapping
      the counts swaps the verdict. */
  lemma {:induction false} CompareFacts(a: nat, b: nat, aWins: string, bWins: string)
    requires aWins != "neutral" && bWins != "neutral" && aWins != bWins
    ensures Compare(a, b, aWins, bWins) == aWins <==> a > b
    ensures Compare(a, b, aWins, bWins) == bWins <==> b > a
    ensures Compare(a, b, aWins, bWins) == "neutral" <==> a == b
    ensures Compare(b, a, bWins, aWins) == Compare(a, b, aWins, bWins)
  {
  }

  /** The perspective is first person exactly when first-person pronouns outnumber third-person
      ones, and neutral exactly on a tie. */
  lemma {:induction false} PerspectiveFacts(firstPerson: nat, thirdPerson: nat)
    ensures Perspective(firstPerson, thirdPerson) == "1st person" <==> firstPerson > thirdPerson
    ensures Perspective(firstPerson, thirdPerson) == "3rd person" <==> thirdPerson > firstPerson
    ensures Perspective(firstPerson, thirdPerson) == "neutral" <==> firstPerson == thirdPerson
  {
    CompareFacts(firstPerson, thirdPerson, "1st person", "3rd person");
  }

  /** Tokens never contain a space, so the two-word markers "w końcu" and "okazało się" can never
      signal a resolution: only "więc" and "dlatego" can. */
  lemma {:induction false} ResolutionNeedsOneWord(tokens: seq<Token>)
    requires forall i :: 0 <= i < |tokens| ==> ' ' !in tokens[i].text
    ensures AnyListed(tokens, ResolutionWords) <==> AnyListed(tokens, ["więc", "dlatego"])
  {
    forall i | 0 <= i < |tokens|
      ensures Lower(tokens[i].text) != "w końcu" && Lower(tokens[i].text) != "okazało się"
    {
      LowerKeepsSpaces(tokens[i].text);
      assert "w końcu"[1] == ' ';
      assert "okazało się"[7] == ' ';
    }
  }

  /** Lower-casing never creates a space. */
  lemma {:induction false} LowerKeepsSpaces(s: string)
    requires ' ' !in s
    ensures ' ' !in Lower(s)
  {
    forall i | 0 <= i < |s| ensures Lower(s)[i] != ' ' {
      assert s[i] != ' ';
    }
  }

  /** Lower-casing the pronouns can only merge them, never add any. */
  lemma {:induction false} DistinctLowerBound(pronouns: seq<string>)
    ensures |LowerSet(pronouns)| <= |pronouns|
    decreases |pronouns|
  {
    if pronouns != [] {
      var init := pronouns[..|pronouns| - 1];
      DistinctLowerBound(init);
      assert LowerSet(pronouns) == LowerSet(init) + {Lower(pronouns[|pronouns| - 1])} by {
        forall x | x in LowerSet(pronouns) ensures x in LowerSet(init) + {Lower(pronouns[|pronouns| - 1])} {
          var i :| 0 <= i < |pronouns| && x == Lower(pronouns[i]);
          if i < |init| {
            assert init[i] == pronouns[i];
          }
        }
        forall x | x in LowerSet(init) ensures x in LowerSet(pronouns) {
          var i :| 0 <= i < |init| && x == Lower(init[i]);
          assert init[i] == pronouns[i];
        }
      }
    }
  }
}
