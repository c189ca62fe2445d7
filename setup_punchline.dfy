/** The setup–twist–punchline analyzer (src/joke_analyser/analyzers/setup_punchline.py).
    Three structural zones are detected; each adds 3 points, a multi-sentence text adds 1, a
    punchline at the end adds 0.5, and a text under 50 or over 300 characters loses 1 or 0.5. The
    score is clamped to [0, 10] on both sides. Scores are in tenths. */
module SetupPunchline {
  import opened Text
  import opened Base

  const SetupMarkers: seq<string> := [
    "kiedy", "gdy", "jeśli", "zawsze", "często", "zazwyczaj",
    "normalnie", "zwykle", "wczoraj", "dziś", "rano"
  ]

  const TwistMarkers: seq<string> := [
    "ale", "jednak", "niestety", "okazuje się", "nagle",
    "wtedy", "to", "więc", "zamiast", "niż"
  ]

  const PunchlinePunctuation: seq<string> := ["—", "...", ":", "–", "!"]

  /** `_detect_setup`: a setup marker in the lower-cased text, or a first sentence longer
      than 20 characters. */
  predicate DetectSetup(text: string, sentences: seq<string>) {
    AnyIn(SetupMarkers, Lower(text)) || (|sentences| > 0 && |sentences[0]| > 20)
  }

  /** `_detect_twist`: a twist marker as a whole space-delimited phrase. */
  predicate DetectTwist(text: string) {
    AnyPhrase(TwistMarkers, Lower(text))
  }

  /** `_detect_punchline`: punchline punctuation anywhere in the original text; or a last
      sentence shorter than 0.7 times the one before it; or more than 10 non-blank characters
      between the first and the second '?'. */
  predicate DetectPunchline(text: string, sentences: seq<string>) {
    || AnyIn(PunchlinePunctuation, text)
    || (|sentences| >= 2 && 10 * |sentences[|sentences| - 1]| < 7 * |sentences[|sentences| - 2]|)
    || ('?' in text && |Strip(SplitOn(text, '?')[1])| > 10)
  }

  /** `_is_punchline_at_end` */
  predicate IsPunchlineAtEnd(sentences: seq<string>) {
    |sentences| >= 2 && ('!' in sentences[|sentences| - 1] || |sentences[|sentences| - 1]| < 80)
  }

  /** The structural verdict that opens the explanation. */
  function Opening(hasSetup: bool, hasTwist: bool, hasPunchline: bool): string {
    if hasSetup && hasTwist && hasPunchline then "Pełna struktura setup-twist-punchline."
    else if hasSetup && hasPunchline then "Struktura setup-punchline bez wyraźnego twista."
    else if hasSetup then "Setup wykryty, ale brak wyraźnego punchline."
    else "Brak wyraźnej struktury setup-punchline."
  }

  /** `_generate_explanation` */
  function Explanation(hasSetup: bool, hasTwist: bool, hasPunchline: bool, sentenceCount: nat): string {
    var first := Opening(hasSetup, hasTwist, hasPunchline);
    var parts :=
      if sentenceCount == 1 then [first, "Żart w jednym zdaniu (może być za krótki)."]
      else if sentenceCount >= 3 then [first, "Żart w " + NatToString(sentenceCount) + " zdaniach (dobra struktura)."]
      else [first];
    Join(parts, " ")
  }

  /** The points of the detected signals, in the order the analyzer checks them. */
  function SignalScore(hasSetup: bool, hasTwist: bool, hasPunchline: bool, sentenceCount: nat, atEnd: bool): int {
    Pts(hasSetup, 30) + Pts(hasTwist, 30) + Pts(hasPunchline, 30) + Pts(sentenceCount >= 2, 10) + Pts(atEnd, 5)
  }

  /** The key elements of the detected signals, in the order the analyzer checks them. */
  function SignalElements(hasSetup: bool, hasTwist: bool, hasPunchline: bool, sentenceCount: nat, atEnd: bool): seq<string> {
    Tag(hasSetup, "Setup wykryty") + Tag(hasTwist, "Twist wykryty") + Tag(hasPunchline, "Punchline wykryty")
    + Tag(sentenceCount >= 2, "Struktura: " + NatToString(sentenceCount) + " zdania")
    + Tag(atEnd, "Punchline na końcu")
  }

  /** The running score before the final clamp. */
  function RawScore(text: string): int {
    var ss := Sentences(text);
    SignalScore(DetectSetup(text, ss), DetectTwist(text), DetectPunchline(text, ss), |ss|,
                |ss| > 0 && IsPunchlineAtEnd(ss))
    - Pts(|text| < 50, 10) - Pts(|text| > 300, 5)
  }

  /** `max(0, min(10, score))` */
  function Score(text: string): int {
    var raw := RawScore(text);
    if raw > 100 then 100 else if raw < 0 then 0 else raw
  }

  function KeyElements(text: string): seq<string> {
    var ss := Sentences(text);
    SignalElements(DetectSetup(text, ss), DetectTwist(text), DetectPunchline(text, ss), |ss|,
                   |ss| > 0 && IsPunchlineAtEnd(ss))
  }

  /** The result of `analyze` on `text`. */
  function AnalysisOf(text: string): Analysis {
    var ss := Sentences(text);
    Analysis(Score(text),
             Explanation(DetectSetup(text, ss), DetectTwist(text), DetectPunchline(text, ss), |ss|),
             KeyElements(text))
  }

  /** The signal-by-signal part of `analyze`: each detected signal adds its points and its key
      element, in the order the analyzer checks them. */
  method AddSignals(hasSetup: bool, hasTwist: bool, hasPunchline: bool, sentenceCount: nat, atEnd: bool)
    returns (score: int, keyElements: seq<string>)
    ensures score == SignalScore(hasSetup, hasTwist, hasPunchline, sentenceCount, atEnd)
    ensures keyElements == SignalElements(hasSetup, hasTwist, hasPunchline, sentenceCount, atEnd)
  {
    var structure := "Struktura: " + NatToString(sentenceCount) + " zdania";
    score := 0;
    keyElements := [];
    if hasSetup {
      score := score + 30;
      keyElements := keyElements + ["Setup wykryty"];
    }
    assert keyElements == Tag(hasSetup, "Setup wykryty");
    if hasTwist {
      score := score + 30;
      keyElements := keyElements + ["Twist wykryty"];
    }
    assert keyElements == Tag(hasSetup, "Setup wykryty") + Tag(hasTwist, "Twist wykryty");
    if hasPunchline {
      score := score + 30;
      keyElements := keyElements + ["Punchline wykryty"];
    }
    assert keyElements == Tag(hasSetup, "Setup wykryty") + Tag(hasTwist, "Twist wykryty")
      + Tag(hasPunchline, "Punchline wykryty");
    if sentenceCount >= 2 {
      score := score + 10;
      keyElements := keyElements + [structure];
    }
    assert keyElements == Tag(hasSetup, "Setup wykryty") + Tag(hasTwist, "Twist wykryty")
      + Tag(hasPunchline, "Punchline wykryty") + Tag(sentenceCount >= 2, structure);
    if atEnd {
      score := score + 5;
      keyElements := keyElements + ["Punchline na końcu"];
    }
  }

  /** `SetupPunchlineAnalyzer.analyze`: builds the score and the key elements signal by signal. */
  method Analyze(text: string) returns (r: Analysis)
    ensures r == AnalysisOf(text)
    ensures ValidAnalysis(r)
  {
    var sentences := Sentences(text);
    var hasSetup := DetectSetup(text, sentences);
    var hasTwist := DetectTwist(text);
    var hasPunchline := DetectPunchline(text, sentences);
    var atEnd := |sentences| > 0 && IsPunchlineAtEnd(sentences);
    var score, keyElements := AddSignals(hasSetup, hasTwist, hasPunchline, |sentences|, atEnd);
    if |text| < 50 {
      score := score - 10;
    }
    if |text| > 300 {
      score := score - 5;
    }
    assert score == RawScore(text);
    score := if score > 100 then 100 else if score < 0 then 0 else score;
    assert score == Score(text);
    var explanation := Explanation(hasSetup, hasTwist, hasPunchline, |sentences|);
    assert keyElements == KeyElements(text);
    r := Analysis(score, explanation, keyElements);
  }

  /** A twist is found exactly when some twist marker, padded with spaces, occurs at some index
      of the padded lower-cased text. */
  lemma {:induction false} TwistIffOccurs(text: string)
    ensures DetectTwist(text) <==>
      exists m, i :: m in TwistMarkers && OccursAt(Padded(Lower(text)), Padded(m), i)
  {
    forall m | m in TwistMarkers {
      ContainsIff(Padded(Lower(text)), Padded(m));
    }
    if DetectTwist(text) {
      var k :| 0 <= k < |TwistMarkers| && Contains(Padded(Lower(text)), Padded(TwistMarkers[k]));
      assert TwistMarkers[k] in TwistMarkers;
    }
  }

  /** The fallback splitter never leaves a '!' in a sentence, so the punchline is "at the end"
      exactly when there are two or more sentences and the last is shorter than 80 characters. */
  lemma {:induction false} PunchlineAtEndOnSentences(text: string)
    ensures var ss := Sentences(text);
      IsPunchlineAtEnd(ss) <==> |ss| >= 2 && |ss[|ss| - 1]| < 80
  {
    var ss := Sentences(text);
    SentencesWellFormed(text);
    if |ss| >= 2 {
      var last := ss[|ss| - 1];
      assert WellFormedSentence(ss[|ss| - 1]);
    }
  }

  /** The explanation opens with the structural verdict, and that verdict is the "no structure"
      clause exactly when no setup is found. */
  lemma {:induction false} ExplanationOpening(hasSetup: bool, hasTwist: bool, hasPunchline: bool, n: nat)
    ensures StartsWith(Explanation(hasSetup, hasTwist, hasPunchline, n), Opening(hasSetup, hasTwist, hasPunchline))
    ensures Opening(hasSetup, hasTwist, hasPunchline) == "Brak wyraźnej struktury setup-punchline." <==> !hasSetup
  {
    var e := Explanation(hasSetup, hasTwist, hasPunchline, n);
    var first := Opening(hasSetup, hasTwist, hasPunchline);
    if n == 1 || n >= 3 {
      var second := if n == 1 then "Żart w jednym zdaniu (może być za krótki)."
        else "Żart w " + NatToString(n) + " zdaniach (dobra struktura).";
      assert e == first + " " + Join([second], " ");
    }
  }

  /** A text with a setup marker, a '!' and at least two sentences scores at least 6.0, whatever
      its length. */
  lemma {:induction false} SetupAndExclamationScoreAtLeastSix(text: string)
    requires AnyIn(SetupMarkers, Lower(text))
    requires '!' in text
    requires SentenceCount(text) >= 2
    ensures AnalysisOf(text).score >= 60
  {
    ContainsChar(text, '!');
    assert PunchlinePunctuation[4] == "!";
    assert DetectPunchline(text, Sentences(text));
  }
}
