/** The timing analyzer (src/humor_features/analyzers/timing.py): sentence rhythm, a short
    punchline, pauses, exclamations, questions and a shift of register. Scores are in tenths. */
module Timing {
  import opened Text
  import opened Base

  const PauseMarks: seq<string> := ["—", "...", "–", ";", ":"]

  const FormalWords: seq<string> := [
    "proszę", "uprzejmie", "szanowny", "poważanie",
    "niniejszy", "rzeczony", "stosowny"
  ]

  const InformalWords: seq<string> := [
    "kurczę", "cholera", "hej", "ej", "co do", "spoko",
    "ziomek", "stary", "koles", "no", "tak jakby"
  ]

  const Fallback := "Brak wyraźnych elementów timingowych."

  /** More than 30 characters between the longest and the shortest of two or more sentences. */
  predicate VariedRhythm(lengths: seq<nat>) {
    |lengths| >= 2 && MaxOf(lengths) - MinOf(lengths) > 30
  }

  /** Two or more sentences and a last one shorter than 0.7 times the mean length, compared
      exactly: `last < 0.7 * sum / n` is `10 * n * last < 7 * sum`. */
  predicate ShortPunchline(lengths: seq<nat>) {
    |lengths| >= 2 && 10 * |lengths| * lengths[|lengths| - 1] < 7 * Sum(lengths)
  }

  /** `sum(text.count(mark) for mark in pause_marks)` on the original text. */
  function PauseCount(text: string): nat {
    Count(text, "—") + Count(text, "...") + Count(text, "–") + Count(text, ";") + Count(text, ":")
  }

  /** `_detect_register_shift`: a formal and an informal word in the lower-cased text. */
  predicate DetectRegisterShift(text: string) {
    var t := Lower(text);
    AnyIn(FormalWords, t) && AnyIn(InformalWords, t)
  }

  /** `_generate_explanation` */
  function Explanation(sentenceCount: nat, pauseCount: nat, exclamationCount: nat): string {
    var parts :=
      (if sentenceCount == 1 then ["Jeden ciągły bieg (może brakować pauzy)."]
       else if sentenceCount >= 3 then [NatToString(sentenceCount) + " zdań (dobry rytm)."]
       else [])
      + Tag(pauseCount > 0, "Wykryto " + NatToString(pauseCount) + " pauzy (timing).")
      + Tag(exclamationCount > 0, "Wykrzykniki dodają energii.");
    if parts == [] then Fallback else Join(parts, " ")
  }

  /** What step 1 (sentence lengths) adds to the score. */
  function RhythmScore(lengths: seq<nat>): nat {
    Pts(VariedRhythm(lengths), 20) + Pts(ShortPunchline(lengths), 25)
  }

  function RhythmElements(lengths: seq<nat>): seq<string> {
    Tag(VariedRhythm(lengths), "Zmienne długości zdań (rytm)")
    + Tag(ShortPunchline(lengths), "Krótki punchline (uderzenie)")
  }

  /** What steps 2 to 5 (pauses, '!', '?', register) add to the score. */
  function MarkScore(text: string): nat {
    15 * PauseCount(text) + 10 * Count(text, "!") + 5 * Count(text, "?")
    + Pts(DetectRegisterShift(text), 20)
  }

  function MarkElements(text: string): seq<string> {
    var pauses := PauseCount(text);
    var exclamations := Count(text, "!");
    var questions := Count(text, "?");
    Tag(pauses > 0, NatToString(pauses) + " pauzy")
    + Tag(exclamations > 0, NatToString(exclamations) + " wykrzykniki")
    + Tag(questions > 0, NatToString(questions) + " pytania")
    + Tag(DetectRegisterShift(text), "Zmiana rejestru")
  }

  function RawScore(text: string): int {
    RhythmScore(Lengths(Sentences(text))) + MarkScore(text)
  }

  function KeyElements(text: string): seq<string> {
    RhythmElements(Lengths(Sentences(text))) + MarkElements(text)
  }

  /** The result of `analyze` on `text`: `min(10, score)`. */
  function AnalysisOf(text: string): Analysis {
    var raw := RawScore(text);
    Analysis(if raw > 100 then 100 else raw,
             Explanation(|Sentences(text)|, PauseCount(text), Count(text, "!")),
             KeyElements(text))
  }

  /** Step 1 of `analyze`: rhythm and a short punchline, from the sentence lengths. */
  method DetectRhythm(lengths: seq<nat>) returns (score: int, keyElements: seq<string>)
    ensures score == RhythmScore(lengths) && keyElements == RhythmElements(lengths)
  {
    score := 0;
    keyElements := [];
    if |lengths| > 0 {
      if |lengths| >= 2 {
        var variation := MaxOf(lengths) - MinOf(lengths);
        if variation > 30 {
          score := score + 20;
          keyElements := keyElements + ["Zmienne długości zdań (rytm)"];
        }
      }
      if |lengths| >= 2 && 10 * |lengths| * lengths[|lengths| - 1] < 7 * Sum(lengths) {
        score := score + 25;
        keyElements := keyElements + ["Krótki punchline (uderzenie)"];
      }
    }
  }

  /** Steps 2 to 5 of `analyze`, on the original text. */
  method DetectMarks(text: string) returns (score: int, keyElements: seq<string>, pauseCount: nat, exclamationCount: nat)
    ensures score == MarkScore(text) && keyElements == MarkElements(text)
    ensures pauseCount == PauseCount(text) && exclamationCount == Count(text, "!")
  {
    pauseCount := PauseCount(text);
    var pauseTag: seq<string> := [];
    if pauseCount > 0 {
      pauseTag := [NatToString(pauseCount) + " pauzy"];
    }
    exclamationCount := Count(text, "!");
    var exclamationTag: seq<string> := [];
    if exclamationCount > 0 {
      exclamationTag := [NatToString(exclamationCount) + " wykrzykniki"];
    }
    var questionCount := Count(text, "?");
    var questionTag: seq<string> := [];
    if questionCount > 0 {
      questionTag := [NatToString(questionCount) + " pytania"];
    }
    var registerShift := DetectRegisterShift(text);
    var registerTag: seq<string> := [];
    if registerShift {
      registerTag := ["Zmiana rejestru"];
    }
    score := pauseCount * 15 + exclamationCount * 10 + questionCount * 5 + Pts(registerShift, 20);
    keyElements := pauseTag + exclamationTag + questionTag + registerTag;
  }

  /** `TimingAnalyzer.analyze` */
  method Analyze(text: string) returns (r: Analysis)
    ensures r == AnalysisOf(text)
    ensures ValidAnalysis(r)
  {
    var sentences := Sentences(text);
    var rhythmScore, rhythmElements := DetectRhythm(Lengths(sentences));
    var markScore, markElements, pauseCount, exclamationCount := DetectMarks(text);
    var score := rhythmScore + markScore;
    if score > 100 {
      score := 100;
    }
    r := Analysis(score, Explanation(|sentences|, pauseCount, exclamationCount), rhythmElements + markElements);
  }

  /** Sentences of one common length give neither a varied rhythm nor a short punchline. */
  lemma {:induction false} EqualLengthsNoRhythm(lengths: seq<nat>, v: nat)
    requires forall i :: 0 <= i < |lengths| ==> lengths[i] == v
    ensures RhythmScore(lengths) == 0
  {
    if |lengths| >= 2 {
      SumConstant(lengths, v);
      assert MaxOf(lengths) == v && MinOf(lengths) == v;
      assert 10 * |lengths| * v >= 7 * (|lengths| * v);
    }
  }

  /** A short punchline is strictly shorter than the longest sentence. */
  lemma {:induction false} ShortPunchlineBelowMax(lengths: seq<nat>)
    requires ShortPunchline(lengths)
    ensures lengths[|lengths| - 1] < MaxOf(lengths)
  {
    var n, m, last := |lengths|, MaxOf(lengths), lengths[|lengths| - 1];
    SumBound(lengths, m);
    assert 10 * n * last == 10 * (n * last);
    assert 10 * (n * last) < 7 * (n * m);
  }

  /** A sum is at most its length times any upper bound of its elements. */
  lemma {:induction false} SumBound(xs: seq<nat>, m: nat)
    requires forall i :: 0 <= i < |xs| ==> xs[i] <= m
    ensures Sum(xs) <= |xs| * m
    decreases |xs|
  {
    if xs != [] {
      SumBound(xs[..|xs| - 1], m);
    }
  }

  /** Each pause mark that is a single character is counted once per occurrence. */
  lemma {:induction false} SingleCharPauses(text: string)
    ensures PauseCount(text) == Count(text, "—") + Count(text, "...") + multiset(text)['–']
      + multiset(text)[';'] + multiset(text)[':']
  {
    CountChar(text, '–');
    CountChar(text, ';');
    CountChar(text, ':');
  }

  /** The explanation is the fallback exactly when there are zero or two sentences, no pause and
      no exclamation. */
  lemma {:induction false} ExplanationFallbackIff(sentenceCount: nat, pauseCount: nat, exclamationCount: nat)
    ensures Explanation(sentenceCount, pauseCount, exclamationCount) == Fallback
      <==> (sentenceCount == 0 || sentenceCount == 2) && pauseCount == 0 && exclamationCount == 0
  {
    var parts :=
      (if sentenceCount == 1 then ["Jeden ciągły bieg (może brakować pauzy)."]
       else if sentenceCount >= 3 then [NatToString(sentenceCount) + " zdań (dobry rytm)."]
       else [])
      + Tag(pauseCount > 0, "Wykryto " + NatToString(pauseCount) + " pauzy (timing).")
      + Tag(exclamationCount > 0, "Wykrzykniki dodają energii.");
    if parts != [] {
      JoinStartsWith(parts, " ");
      assert Fallback[0] == 'B';
      assert parts[0][0] != 'B';
    }
  }
}
