/** The semantic-shift analyzer (src/joke_analyser/analyzers/semantic_shift.py): ambiguous words,
    metaphor markers, quotation marks, a literalized metaphor and a parenthetical comment.
    Scores are in tenths. */
module SemanticShift {
  import opened Text
  import opened Base

  /** The table lists "bat" twice, so a text containing it counts two ambiguous words. */
  const AmbiguousWords: seq<string> := [
    "bank", "zamek", "klucz", "mysz", "łóżko", "kwadrans",
    "pole", "korzeń", "para", "bat", "bat", "kod", "błąd"
  ]

  const MetaphorMarkers: seq<string> := [
    "jak", "jakby", "przypomina", "wygląda", "brzmi",
    "jest jak", "niczym", "podobnie"
  ]

  /** The (metaphor, literal) pairs of `_detect_literalization`. */
  const MetaphorPairs: seq<(string, string)> := [
    ("nie mam internetu", "umieram"), ("brak połączenia", "śmierć"), ("offline", "martw"),
    ("błąd", "cierpię"), ("zawiesił się", "panika")
  ]

  const Fallback := "Brak wyraźnych przesunięć semantycznych."

  /** The quote count as the source sums it: the ASCII double quote is listed twice, the
      single quote and the low-9 quote once. */
  function QuoteCount(t: string): nat {
    Count(t, "\"") + Count(t, "'") + Count(t, "„") + Count(t, "\"")
  }

  /** `_detect_literalization`: both halves of some metaphor pair occur. */
  predicate DetectLiteralization(t: string) {
    exists k :: 0 <= k < |MetaphorPairs| && Contains(t, MetaphorPairs[k].0) && Contains(t, MetaphorPairs[k].1)
  }

  /** Both '(' and ')' occur in the original text. */
  predicate HasParentheses(text: string) {
    Contains(text, "(") && Contains(text, ")")
  }

  /** `_generate_explanation` */
  function Explanation(ambiguousCount: nat, metaphorCount: nat, quoteCount: nat): string {
    var parts :=
      Tag(ambiguousCount > 0, "Użyto " + NatToString(ambiguousCount) + " wieloznacznych słów.")
      + Tag(metaphorCount > 0, "Wykryto " + NatToString(metaphorCount) + " metafor.")
      + Tag(quoteCount >= 2, "Cytaty sygnalizują zmianę znaczenia.");
    if parts == [] then Fallback else Join(parts, " ")
  }

  /** What steps 1 and 2 of `analyze` (ambiguous words, metaphor markers) add to the score. */
  function WordScore(t: string): nat {
    15 * CountIn(AmbiguousWords, t) + 20 * CountIn(MetaphorMarkers, t)
  }

  function WordElements(t: string): seq<string> {
    var ambiguous := CountIn(AmbiguousWords, t);
    var metaphor := CountIn(MetaphorMarkers, t);
    Tag(ambiguous > 0, NatToString(ambiguous) + " wieloznaczne słowa")
    + Tag(metaphor > 0, NatToString(metaphor) + " markery metafor")
  }

  /** What steps 3 to 5 (quotes, literalization, parentheses) add to the score. */
  function ShapeScore(text: string, t: string): nat {
    Pts(QuoteCount(t) >= 2, 15) + Pts(DetectLiteralization(t), 25) + Pts(HasParentheses(text), 10)
  }

  function ShapeElements(text: string, t: string): seq<string> {
    Tag(QuoteCount(t) >= 2, "Cytaty (zmiana kontekstu)")
    + Tag(DetectLiteralization(t), "Literalizacja metafory")
    + Tag(HasParentheses(text), "Komentarz w nawiasach")
  }

  /** The score before the cap. */
  function RawScore(text: string): int {
    var t := Lower(text);
    WordScore(t) + ShapeScore(text, t)
  }

  function KeyElements(text: string): seq<string> {
    var t := Lower(text);
    WordElements(t) + ShapeElements(text, t)
  }

  /** The result of `analyze` on `text`: `min(10, score)`. */
  function AnalysisOf(text: string): Analysis {
    var t := Lower(text);
    var raw := RawScore(text);
    Analysis(if raw > 100 then 100 else raw,
             Explanation(CountIn(AmbiguousWords, t), CountIn(MetaphorMarkers, t), QuoteCount(t)),
             KeyElements(text))
  }

  /** Steps 1 and 2 of `analyze`. */
  method DetectWords(t: string) returns (score: int, keyElements: seq<string>, ambiguousCount: nat, metaphorCount: nat)
    ensures score == WordScore(t) && keyElements == WordElements(t)
    ensures ambiguousCount == CountIn(AmbiguousWords, t) && metaphorCount == CountIn(MetaphorMarkers, t)
  {
    score := 0;
    keyElements := [];
    ambiguousCount := CountIn(AmbiguousWords, t);
    if ambiguousCount > 0 {
      score := score + ambiguousCount * 15;
      keyElements := keyElements + [NatToString(ambiguousCount) + " wieloznaczne słowa"];
    }
    metaphorCount := CountIn(MetaphorMarkers, t);
    if metaphorCount > 0 {
      score := score + metaphorCount * 20;
      keyElements := keyElements + [NatToString(metaphorCount) + " markery metafor"];
    }
  }

  /** Steps 3 to 5 of `analyze`. */
  method DetectShape(text: string, t: string) returns (score: int, keyElements: seq<string>, quoteCount: nat)
    ensures score == ShapeScore(text, t) && keyElements == ShapeElements(text, t)
    ensures quoteCount == QuoteCount(t)
  {
    score := 0;
    keyElements := [];
    quoteCount := QuoteCount(t);
    if quoteCount >= 2 {
      score := score + 15;
      keyElements := keyElements + ["Cytaty (zmiana kontekstu)"];
    }
    if DetectLiteralization(t) {
      score := score + 25;
      keyElements := keyElements + ["Literalizacja metafory"];
    }
    if HasParentheses(text) {
      score := score + 10;
      keyElements := keyElements + ["Komentarz w nawiasach"];
    }
  }

  /** `SemanticShiftAnalyzer.analyze` */
  method Analyze(text: string) returns (r: Analysis)
    ensures r == AnalysisOf(text)
    ensures ValidAnalysis(r)
  {
    var t := Lower(text);
    var wordScore, wordElements, ambiguousCount, metaphorCount := DetectWords(t);
    var shapeScore, shapeElements, quoteCount := DetectShape(text, t);
    var score := wordScore + shapeScore;
    if score > 100 {
      score := 100;
    }
    r := Analysis(score, Explanation(ambiguousCount, metaphorCount, quoteCount), wordElements + shapeElements);
  }

  /** "bat" is listed twice, so a text containing it counts at least two ambiguous words and
      gains at least 3.0 from them. */
  lemma {:induction false} BatCountsTwice(t: string)
    requires Contains(t, "bat")
    ensures CountIn(AmbiguousWords, t) >= 2
  {
    var pre := AmbiguousWords[..9];
    var bats := ["bat", "bat"];
    var post := AmbiguousWords[11..];
    assert AmbiguousWords == pre + bats + post;
    CountInAppend(pre + bats, post, t);
    CountInAppend(pre, bats, t);
    assert CountIn(bats, t) == CountIn(["bat"], t) + 1;
  }

  /** The quote count weighs each ASCII double quote twice and each single or low-9 quote once. */
  lemma {:induction false} QuoteCountWeights(t: string)
    ensures QuoteCount(t) == 2 * multiset(t)['"'] + multiset(t)['\''] + multiset(t)['„']
  {
    CountChar(t, '"');
    CountChar(t, '\'');
    CountChar(t, '„');
  }

  /** A single ASCII double quote already reaches the threshold of two quotes. */
  lemma {:induction false} OneDoubleQuoteSignalsShift(t: string)
    requires '"' in t
    ensures QuoteCount(t) >= 2
  {
    QuoteCountWeights(t);
  }

  /** The explanation is the fallback exactly when no ambiguous word, no metaphor marker and
      fewer than two quotes were found. */
  lemma {:induction false} ExplanationFallbackIff(ambiguousCount: nat, metaphorCount: nat, quoteCount: nat)
    ensures Explanation(ambiguousCount, metaphorCount, quoteCount) == Fallback
      <==> ambiguousCount == 0 && metaphorCount == 0 && quoteCount < 2
  {
    var parts :=
      Tag(ambiguousCount > 0, "Użyto " + NatToString(ambiguousCount) + " wieloznacznych słów.")
      + Tag(metaphorCount > 0, "Wykryto " + NatToString(metaphorCount) + " metafor.")
      + Tag(quoteCount >= 2, "Cytaty sygnalizują zmianę znaczenia.");
    if parts != [] {
      JoinStartsWith(parts, " ");
      assert Fallback[0] == 'B';
      assert parts[0][0] != 'B';
    }
  }
}
