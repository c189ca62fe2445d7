/** What every analyzer shares (src/joke_analyser/analyzers/base.py): the result record of
    `analyze`, the sentence splitter and tokenizer used when no spaCy model is loaded, and the
    length and count helpers. */
module Base {
  import opened Text

  /** The dictionary `analyze` returns: `score` in tenths of a point, `explanation`,
      `key_elements`. */
  datatype Analysis = Analysis(score: int, explanation: string, keyElements: seq<string>)

  /** The `analyze` contract: a score between 0 and 10. */
  predicate ValidAnalysis(a: Analysis) {
    0 <= a.score <= 100
  }

  /** The weight a fired signal adds to a running score. */
  function Pts(fired: bool, weight: int): int {
    if fired then weight else 0
  }

  /** The key element a fired signal appends. */
  function Tag(fired: bool, element: string): seq<string> {
    if fired then [element] else []
  }

  /** `[len(s) for s in sentences]` */
  function Lengths(ss: seq<string>): (ls: seq<nat>)
    ensures |ls| == |ss|
  {
    seq(|ss|, i requires 0 <= i < |ss| => |ss[i]|)
  }

  /** `sum(xs)` */
  function Sum(xs: seq<nat>): nat
    decreases |xs|
  {
    if xs == [] then 0 else Sum(xs[..|xs| - 1]) + xs[|xs| - 1]
  }

  /** `max(xs)`: an element no other element exceeds. */
  function MaxOf(xs: seq<nat>): (m: nat)
    requires |xs| > 0
    ensures m in xs
    ensures forall i :: 0 <= i < |xs| ==> xs[i] <= m
    decreases |xs|
  {
    if |xs| == 1 then xs[0]
    else
      var rest := MaxOf(xs[..|xs| - 1]);
      assert forall i :: 0 <= i < |xs| - 1 ==> xs[..|xs| - 1][i] == xs[i];
      if xs[|xs| - 1] > rest then xs[|xs| - 1] else rest
  }

  /** `min(xs)`: an element no other element undercuts. */
  function MinOf(xs: seq<nat>): (m: nat)
    requires |xs| > 0
    ensures m in xs
    ensures forall i :: 0 <= i < |xs| ==> m <= xs[i]
    decreases |xs|
  {
    if |xs| == 1 then xs[0]
    else
      var rest := MinOf(xs[..|xs| - 1]);
      assert forall i :: 0 <= i < |xs| - 1 ==> xs[..|xs| - 1][i] == xs[i];
      if xs[|xs| - 1] < rest then xs[|xs| - 1] else rest
  }

  /** Equal elements sum to their count times their value. */
  lemma {:induction false} SumConstant(xs: seq<nat>, v: nat)
    requires forall i :: 0 <= i < |xs| ==> xs[i] == v
    ensures Sum(xs) == |xs| * v
    decreases |xs|
  {
    if xs != [] {
      SumConstant(xs[..|xs| - 1], v);
    }
  }

  predicate IsTerminator(c: char) {
    c == '.' || c == '!' || c == '?'
  }

  function FirstTerminator(s: string): (k: nat)
    ensures k <= |s|
    ensures forall i :: 0 <= i < k ==> !IsTerminator(s[i])
    ensures k < |s| ==> IsTerminator(s[k])
    decreases |s|
  {
    if |s| == 0 || IsTerminator(s[0]) then 0 else 1 + FirstTerminator(s[1..])
  }

  /** The fallback of `_get_sentences`: `re.split(r'[.!?]+', text)`, each piece stripped,
      empty pieces dropped. Cutting at every terminator instead of at maximal runs only adds
      empty pieces between adjacent terminators, and those are dropped as well. */
  function Sentences(text: string): (ss: seq<string>)
    decreases |text|
  {
    var k := FirstTerminator(text);
    var head := Strip(text[..k]);
    (if head == "" then [] else [head]) + (if k == |text| then [] else Sentences(text[k + 1..]))
  }

  ghost predicate WellFormedSentence(s: string) {
    && s != ""
    && !IsSpace(s[0]) && !IsSpace(s[|s| - 1])
    && forall i :: 0 <= i < |s| ==> !IsTerminator(s[i])
  }

  ghost predicate Blank(text: string) {
    forall i :: 0 <= i < |text| ==> IsSpace(text[i]) || IsTerminator(text[i])
  }

  /** No fallback sentence is empty, has surrounding whitespace or holds '.', '!' or '?'. */
  lemma {:induction false} SentencesWellFormed(text: string)
    ensures AllWellFormed(Sentences(text))
    decreases |text|
  {
    var k := FirstTerminator(text);
    var head := Strip(text[..k]);
    HeadWellFormed(text, k);
    SentencesStep(text);
    if k < |text| {
      SentencesWellFormed(text[k + 1..]);
      PrependWellFormed(head, Sentences(text[k + 1..]));
    } else {
      PrependWellFormed(head, []);
    }
  }

  lemma {:induction false} SentencesStep(text: string)
    ensures var k := FirstTerminator(text);
      Sentences(text) == (if Strip(text[..k]) == "" then [] else [Strip(text[..k])])
        + (if k == |text| then [] else Sentences(text[k + 1..]))
  {
  }

  ghost predicate AllWellFormed(ss: seq<string>) {
    forall n :: 0 <= n < |ss| ==> WellFormedSentence(ss[n])
  }

  lemma {:induction false} PrependWellFormed(head: string, rest: seq<string>)
    requires head != "" ==> WellFormedSentence(head)
    requires AllWellFormed(rest)
    ensures AllWellFormed((if head == "" then [] else [head]) + rest)
  {
    var ss := (if head == "" then [] else [head]) + rest;
    var d := |ss| - |rest|;
    forall n | 0 <= n < |ss|
      ensures WellFormedSentence(ss[n])
    {
      if n >= d {
        assert ss[n] == rest[n - d];
      }
    }
  }

  lemma {:induction false} HeadWellFormed(text: string, k: nat)
    requires k == FirstTerminator(text)
    ensures Strip(text[..k]) != "" ==> WellFormedSentence(Strip(text[..k]))
  {
    var piece := text[..k];
    var head := Strip(piece);
    StripFacts(piece);
    if head != "" {
      var i, j :| 0 <= i <= j <= |piece| && head == piece[i..j];
      forall x | 0 <= x < |head| ensures !IsTerminator(head[x]) {
        assert head[x] == text[i + x];
      }
    }
  }

  /** There are no fallback sentences exactly when the text holds nothing but whitespace
      and terminators. */
  lemma {:induction false} SentencesEmptyIff(text: string)
    ensures Sentences(text) == [] <==> Blank(text)
    decreases |text|
  {
    var k := FirstTerminator(text);
    var piece := text[..k];
    StripFacts(piece);
    BlankSplit(text, k);
    if k < |text| {
      SentencesEmptyIff(text[k + 1..]);
    }
  }

  /** A text is blank exactly when the part before its first terminator is whitespace and
      the part after it is blank. */
  lemma {:induction false} BlankSplit(text: string, k: nat)
    requires k == FirstTerminator(text)
    ensures Blank(text) <==> AllSpace(text[..k]) && (k == |text| || Blank(text[k + 1..]))
  {
    var piece := text[..k];
    if Blank(text) {
      forall x | 0 <= x < |piece| ensures IsSpace(piece[x]) {
        assert piece[x] == text[x];
      }
      if k < |text| {
        var rest := text[k + 1..];
        forall x | 0 <= x < |rest| ensures IsSpace(rest[x]) || IsTerminator(rest[x]) {
          assert rest[x] == text[k + 1 + x];
        }
      }
    }
    if AllSpace(piece) && (k == |text| || Blank(text[k + 1..])) {
      forall x | 0 <= x < |text| ensures IsSpace(text[x]) || IsTerminator(text[x]) {
        if x < k { assert text[x] == piece[x]; }
        else if x > k { assert text[x] == text[k + 1..][x - k - 1]; }
      }
    }
  }

  /** A non-blank text without terminators is one sentence: itself, stripped. */
  lemma {:induction false} OneSentence(text: string)
    requires forall i :: 0 <= i < |text| ==> !IsTerminator(text[i])
    requires !AllSpace(text)
    ensures Sentences(text) == [Strip(text)]
  {
    assert FirstTerminator(text) == |text|;
    assert text[..|text|] == text;
    StripFacts(text);
  }

  /** `_tokenize` without spaCy: `text.split()`. */
  function Tokenize(text: string): seq<string> {
    Words(text)
  }

  /** `_calculate_text_length` */
  function TextLength(text: string): nat {
    |text|
  }

  /** `_calculate_sentence_count` */
  function SentenceCount(text: string): nat {
    |Sentences(text)|
  }

  /** `_calculate_word_count` */
  function WordCount(text: string): nat {
    |Tokenize(text)|
  }

  function TerminatorCount(text: string): nat {
    multiset(text)['.'] + multiset(text)['!'] + multiset(text)['?']
  }

  /** Each terminator closes at most one sentence. */
  lemma {:induction false} SentenceCountBound(text: string)
    ensures SentenceCount(text) <= TerminatorCount(text) + 1
    decreases |text|
  {
    var k := FirstTerminator(text);
    if k < |text| {
      var rest := text[k + 1..];
      SentenceCountBound(rest);
      TerminatorSplit(text, k);
      assert |Sentences(text)| <= 1 + |Sentences(rest)|;
    }
  }

  lemma {:induction false} TerminatorSplit(text: string, k: nat)
    requires k < |text| && IsTerminator(text[k])
    ensures TerminatorCount(text) >= 1 + TerminatorCount(text[k + 1..])
  {
    var rest := text[k + 1..];
    assert text == text[..k] + [text[k]] + rest;
    assert multiset(text) == multiset(text[..k]) + multiset{text[k]} + multiset(rest);
  }

  /** Only whitespace-only text has no words. */
  lemma {:induction false} WordCountZeroIff(text: string)
    ensures WordCount(text) == 0 <==> AllSpace(text)
  {
    WordsFacts(text);
  }
}
