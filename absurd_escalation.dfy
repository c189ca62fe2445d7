/** The absurd-escalation analyzer (src/humor_features/analyzers/absurd_escalation.py): the
    highest tier of absurdity reached, escalation markers, escalation from the first to the last
    sentence, the "Waldus" escalation (a technical failure turned cosmic) and hyperbole. Scores
    are in tenths. */
module AbsurdEscalation {
  import opened Text
  import opened Base

  /** One entry of `ABSURDITY_LEVELS`: a level and its markers. */
  datatype Tier = Tier(level: nat, markers: seq<string>)

  const AbsurdityLevels: seq<Tier> := [
    Tier(1, ["normalnie", "zwykle", "codziennie", "standardowo"]),
    Tier(3, ["dziwnie", "niezwykle", "nietypowo", "niespodziewanie"]),
    Tier(5, ["absurdalnie", "szalenie", "kompletnie", "totalnie"]),
    Tier(7, ["kosmicznie", "transcendentalnie", "nieskończenie"]),
    Tier(10, ["kwantowo", "metafizycznie", "ontologicznie"])
  ]

  const EscalationMarkers: seq<string> := [
    "jeszcze", "nawet", "aż", "dopiero", "w końcu",
    "coraz", "bardziej", "i to", "mało tego"
  ]

  const TechProblems: seq<string> := ["padł", "błąd", "error", "nie działa", "zawiesił"]
  const CosmicDespair: seq<string> := ["umierać", "grób", "nicość", "pustka", "koniec"]

  const HyperboleWords: seq<string> := [
    "nigdy", "zawsze", "wszyscy", "nikt", "wszystko", "nic",
    "nieskończenie", "wieczność", "milion", "bilion"
  ]

  /** The highest level among the tiers with a marker in `t`, or 0 when none has one. */
  function LevelOf(tiers: seq<Tier>, t: string): nat
    decreases |tiers|
  {
    if tiers == [] then 0
    else
      var last := tiers[|tiers| - 1];
      var rest := LevelOf(tiers[..|tiers| - 1], t);
      if AnyIn(last.markers, t) && last.level > rest then last.level else rest
  }

  /** `_detect_absurdity_level`: the loop keeping the running maximum. */
  method DetectAbsurdityLevel(tiers: seq<Tier>, t: string) returns (maxLevel: nat)
    ensures maxLevel == LevelOf(tiers, t)
  {
    maxLevel := 0;
    var i := 0;
    while i < |tiers|
      invariant 0 <= i <= |tiers|
      invariant maxLevel == LevelOf(tiers[..i], t)
    {
      assert tiers[..i + 1][..i] == tiers[..i];
      if AnyIn(tiers[i].markers, t) {
        maxLevel := if tiers[i].level > maxLevel then tiers[i].level else maxLevel;
      }
      i := i + 1;
    }
    assert tiers[..i] == tiers;
  }

  /** `_sentence_absurdity`: the first of the two-word tiers, lowest first, that the lower-cased
      sentence hits; 2 when none does. */
  function SentenceAbsurdity(sentence: string): nat {
    var s := Lower(sentence);
    if AnyIn(["normalnie", "zwykle"], s) then 1
    else if AnyIn(["dziwnie", "niezwykle"], s) then 3
    else if AnyIn(["absurdalnie", "szalenie"], s) then 5
    else if AnyIn(["kosmicznie", "transcendentalnie"], s) then 7
    else if AnyIn(["kwantowo", "metafizycznie"], s) then 10
    else 2
  }

  /** Two or more sentences, and the last is more absurd than the first. */
  predicate Escalates(sentences: seq<string>) {
    |sentences| >= 2 && SentenceAbsurdity(sentences[|sentences| - 1]) > SentenceAbsurdity(sentences[0])
  }

  /** `_is_waldus_escalation` */
  predicate IsWaldusEscalation(t: string) {
    AnyIn(TechProblems, t) && AnyIn(CosmicDespair, t)
  }

  /** `_detect_hyperbole` */
  function HyperboleCount(t: string): nat {
    CountIn(HyperboleWords, t)
  }

  /** The clause naming the absurdity level. */
  function LevelClause(level: nat): string {
    if level == 0 then "Brak wyraźnego absurdu."
    else if level <= 3 then "Lekki absurd (poziom " + NatToString(level) + ")."
    else if level <= 7 then "Średni absurd (poziom " + NatToString(level) + ")."
    else "Peak chaos (poziom " + NatToString(level) + ")!"
  }

  /** `_generate_explanation` */
  function Explanation(level: nat, escalationCount: nat, sentenceCount: nat): string {
    Join([LevelClause(level)]
         + Tag(escalationCount > 0, "Wykryto " + NatToString(escalationCount) + " markerów eskalacji.")
         + Tag(sentenceCount >= 3, "Dobra długość dla eskalacji."), " ")
  }

  /** What steps 1 to 3 (level, escalation markers, escalation across sentences) add. */
  function EscalationScore(text: string, t: string): nat {
    8 * LevelOf(AbsurdityLevels, t) + 15 * CountPhrases(EscalationMarkers, t)
    + Pts(Escalates(Sentences(text)), 20)
  }

  function EscalationElements(text: string, t: string): seq<string> {
    var level := LevelOf(AbsurdityLevels, t);
    var escalation := CountPhrases(EscalationMarkers, t);
    Tag(level > 0, "Poziom absurdu: " + NatToString(level) + "/10")
    + Tag(escalation > 0, NatToString(escalation) + " markery eskalacji")
    + Tag(Escalates(Sentences(text)), "Eskalacja w kolejnych zdaniach")
  }

  /** What steps 4 and 5 (Waldus escalation, hyperbole) add. */
  function ExtremeScore(t: string): nat {
    Pts(IsWaldusEscalation(t), 25) + 10 * HyperboleCount(t)
  }

  function ExtremeElements(t: string): seq<string> {
    var hyperboles := HyperboleCount(t);
    Tag(IsWaldusEscalation(t), "Styl Waldus (tech → cosmic)")
    + Tag(hyperboles > 0, NatToString(hyperboles) + " hiperbole")
  }

  function RawScore(text: string): int {
    var t := Lower(text);
    EscalationScore(text, t) + ExtremeScore(t)
  }

  function KeyElements(text: string): seq<string> {
    var t := Lower(text);
    EscalationElements(text, t) + ExtremeElements(t)
  }

  /** The result of `analyze` on `text`: `min(10, score)`. */
  function AnalysisOf(text: string): Analysis {
    var t := Lower(text);
    var raw := RawScore(text);
    Analysis(if raw > 100 then 100 else raw,
             Explanation(LevelOf(AbsurdityLevels, t), CountPhrases(EscalationMarkers, t), |Sentences(text)|),
             KeyElements(text))
  }

  /** Step 3 of `analyze`: the last sentence scores a higher absurdity than the first. */
  method DetectSentenceEscalation(text: string) returns (escalates: bool)
    ensures escalates == Escalates(Sentences(text))
  {
    var sentences := Sentences(text);
    escalates := false;
    if |sentences| >= 2 {
      var levels := seq(|sentences|, i requires 0 <= i < |sentences| => SentenceAbsurdity(sentences[i]));
      escalates := levels[|levels| - 1] > levels[0];
    }
  }

  /** Steps 1 to 3 of `analyze`. */
  method DetectEscalation(text: string, t: string) returns (score: int, keyElements: seq<string>, level: nat, escalationCount: nat)
    ensures score == EscalationScore(text, t) && keyElements == EscalationElements(text, t)
    ensures level == LevelOf(AbsurdityLevels, t) && escalationCount == CountPhrases(EscalationMarkers, t)
  {
    level := DetectAbsurdityLevel(AbsurdityLevels, t);
    var levelTag: seq<string> := [];
    if level > 0 {
      levelTag := ["Poziom absurdu: " + NatToString(level) + "/10"];
    }
    escalationCount := CountPhrases(EscalationMarkers, t);
    var escalationTag: seq<string> := [];
    if escalationCount > 0 {
      escalationTag := [NatToString(escalationCount) + " markery eskalacji"];
    }
    var escalates := DetectSentenceEscalation(text);
    var sentenceTag: seq<string> := [];
    if escalates {
      sentenceTag := ["Eskalacja w kolejnych zdaniach"];
    }
    score := level * 8 + escalationCount * 15 + Pts(escalates, 20);
    keyElements := levelTag + escalationTag + sentenceTag;
  }

  /** Steps 4 and 5 of `analyze`. */
  method DetectExtremes(t: string) returns (score: int, keyElements: seq<string>)
    ensures score == ExtremeScore(t) && keyElements == ExtremeElements(t)
  {
    score := 0;
    keyElements := [];
    if IsWaldusEscalation(t) {
      score := score + 25;
      keyElements := keyElements + ["Styl Waldus (tech → cosmic)"];
    }
    var hyperboleCount := HyperboleCount(t);
    if hyperboleCount > 0 {
      score := score + hyperboleCount * 10;
      keyElements := keyElements + [NatToString(hyperboleCount) + " hiperbole"];
    }
  }

  /** `AbsurdEscalationAnalyzer.analyze` */
  method Analyze(text: string) returns (r: Analysis)
    ensures r == AnalysisOf(text)
    ensures ValidAnalysis(r)
  {
    var t := Lower(text);
    var escalationScore, escalationElements, level, escalationCount := DetectEscalation(text, t);
    var extremeScore, extremeElements := DetectExtremes(t);
    var score := escalationScore + extremeScore;
    if score > 100 {
      score := 100;
    }
    r := Analysis(score, Explanation(level, escalationCount, |Sentences(text)|),
                  escalationElements + extremeElements);
  }

  /** The detected level is the maximum over the tiers that have a marker in the text: no such
      tier exceeds it, and it is 0 or the level of one of them. */
  lemma {:induction false} LevelIsMaximum(tiers: seq<Tier>, t: string)
    ensures forall k :: 0 <= k < |tiers| && AnyIn(tiers[k].markers, t) ==> tiers[k].level <= LevelOf(tiers, t)
    ensures LevelOf(tiers, t) == 0
      || exists k :: 0 <= k < |tiers| && AnyIn(tiers[k].markers, t) && tiers[k].level == LevelOf(tiers, t)
    decreases |tiers|
  {
    if tiers != [] {
      var init := tiers[..|tiers| - 1];
      LevelIsMaximum(init, t);
      assert forall k :: 0 <= k < |init| ==> init[k] == tiers[k];
    }
  }

  /** The detected level is one of 0, 1, 3, 5, 7, 10, so its contribution is one of 0.0, 0.8,
      2.4, 4.0, 5.6, 8.0 points. */
  lemma {:induction false} DetectedLevels(t: string)
    ensures LevelOf(AbsurdityLevels, t) in {0, 1, 3, 5, 7, 10}
  {
    LevelIsMaximum(AbsurdityLevels, t);
  }

  /** A peak-chaos marker puts the level at 10 whatever else the text holds. */
  lemma {:induction false} PeakMarkerGivesTen(t: string)
    requires AnyIn(AbsurdityLevels[4].markers, t)
    ensures LevelOf(AbsurdityLevels, t) == 10
  {
    LevelIsMaximum(AbsurdityLevels, t);
    DetectedLevels(t);
  }

  /** A sentence of the lowest tier scores 1, below every other sentence, so a last sentence of
      that tier never escalates. */
  lemma {:induction false} LowestTierNeverEscalates(ss: seq<string>)
    requires |ss| >= 2
    requires AnyIn(["normalnie", "zwykle"], Lower(ss[|ss| - 1]))
    ensures !Escalates(ss)
  {
  }

  /** The explanation opens with the clause for the level's bucket. */
  lemma {:induction false} ExplanationOpensWithLevel(level: nat, escalationCount: nat, sentenceCount: nat)
    ensures StartsWith(Explanation(level, escalationCount, sentenceCount), LevelClause(level))
  {
    JoinStartsWith([LevelClause(level)]
         + Tag(escalationCount > 0, "Wykryto " + NatToString(escalationCount) + " markerów eskalacji.")
         + Tag(sentenceCount >= 3, "Dobra długość dla eskalacji."), " ");
  }
}
