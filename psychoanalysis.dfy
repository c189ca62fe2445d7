/** The psychoanalysis analyzer (src/joke_analyser/analyzers/psychoanalysis.py): psychological
    states, defense mechanisms, self-reference, projection and meta-commentary. Scores are in
    tenths. */
module Psychoanalysis {
  import opened Text
  import opened Base

  /** One entry of `PSYCHOLOGICAL_STATES`: a state's name and its markers. */
  datatype State = State(name: string, markers: seq<string>)

  const PsychologicalStates: seq<State> := [
    State("despair", ["rozpacz", "beznadziejność", "pustek", "nicość", "koniec"]),
    State("anger", ["wkurza", "denerwuje", "wścieka", "frustruje", "irytuje"]),
    State("sadness", ["smutek", "żal", "tęsknota", "samotność", "melancholia"]),
    State("fear", ["strach", "lęk", "obawa", "panika", "przerażenie"]),
    State("self-deprecation", ["głupi", "idiota", "debil", "nieudacznik", "fail"]),
    State("projection", ["to nie ja", "to ty", "to oni", "wina nie moja"])
  ]

  const DefenseMechanisms: seq<string> := [
    "przecież", "właściwie", "w sumie", "no dobra",
    "może", "chyba", "jakby", "niby"
  ]

  const ProjectionPatterns: seq<string> := [
    "to ty", "to twoja", "to wasz", "to ich",
    "wina nie moja", "nie ja", "to nie ze mną"
  ]

  const MetaPatterns: seq<string> := [
    "wiem że", "zdaję sobie sprawę", "rozumiem że",
    "to znaczy", "czyli", "innymi słowy"
  ]

  const Fallback := "Brak wyraźnych elementów" + " psychoanalitycznych."

  /** The names of the states with a marker in `t`, in table order. */
  function DetectedStates(states: seq<State>, t: string): (names: seq<string>)
    ensures |names| <= |states|
    decreases |states|
  {
    if states == [] then []
    else
      var last := states[|states| - 1];
      DetectedStates(states[..|states| - 1], t) + Tag(AnyIn(last.markers, t), last.name)
  }

  /** `f"Stan: {name}"` for each detected state. */
  function StateElements(names: seq<string>): (r: seq<string>)
    ensures |r| == |names|
  {
    seq(|names|, k requires 0 <= k < |names| => "Stan: " + names[k])
  }

  /** Non-overlapping occurrences of " ja ", " mnie " and " moje " in the unpadded text. */
  function SelfRefCount(t: string): nat {
    Count(t, " ja ") + Count(t, " mnie ") + Count(t, " moje ")
  }

  /** `_detect_projection` */
  predicate DetectProjection(t: string) {
    AnyIn(ProjectionPatterns, t)
  }

  /** `_detect_meta_commentary` */
  predicate DetectMetaCommentary(t: string) {
    AnyIn(MetaPatterns, t)
  }

  /** `_generate_explanation` */
  function Explanation(detectedStates: seq<string>, defenseCount: nat, selfRefCount: nat): string {
    var parts :=
      Tag(|detectedStates| > 0, "Wykryto stany: " + Join(detectedStates, ", ") + ".")
      + Tag(defenseCount > 0, NatToString(defenseCount) + " mechanizmów obronnych.")
      + Tag(selfRefCount > 2, "Silna auto-referencja (narcyzm?).");
    if parts == [] then Fallback else Join(parts, " ")
  }

  /** What steps 2 to 5 (defenses, self-reference, projection, meta-commentary) add. */
  function SignalScore(t: string): nat {
    15 * CountPhrases(DefenseMechanisms, t) + 5 * SelfRefCount(t)
    + Pts(DetectProjection(t), 20) + Pts(DetectMetaCommentary(t), 25)
  }

  function SignalElements(t: string): seq<string> {
    var defenses := CountPhrases(DefenseMechanisms, t);
    var selfRefs := SelfRefCount(t);
    Tag(defenses > 0, NatToString(defenses) + " mechanizmów obronnych")
    + Tag(selfRefs > 0, "Auto-referencja (" + NatToString(selfRefs) + "x)")
    + Tag(DetectProjection(t), "Projekcja (przerzucenie winy)")
    + Tag(DetectMetaCommentary(t), "Meta-komentarz")
  }

  function RawScore(text: string): int {
    var t := Lower(text);
    20 * |DetectedStates(PsychologicalStates, t)| + SignalScore(t)
  }

  function KeyElements(text: string): seq<string> {
    var t := Lower(text);
    StateElements(DetectedStates(PsychologicalStates, t)) + SignalElements(t)
  }

  /** The result of `analyze` on `text`: `min(10, score)`. */
  function AnalysisOf(text: string): Analysis {
    var t := Lower(text);
    var raw := RawScore(text);
    Analysis(if raw > 100 then 100 else raw,
             Explanation(DetectedStates(PsychologicalStates, t), CountPhrases(DefenseMechanisms, t), SelfRefCount(t)),
             KeyElements(text))
  }

  /** Step 1 of `analyze`: the loop over `PSYCHOLOGICAL_STATES`. */
  method DetectStates(states: seq<State>, t: string) returns (detected: seq<string>, keyElements: seq<string>)
    ensures detected == DetectedStates(states, t)
    ensures keyElements == StateElements(detected)
  {
    detected := [];
    keyElements := [];
    var i := 0;
    while i < |states|
      invariant 0 <= i <= |states|
      invariant detected == DetectedStates(states[..i], t)
      invariant keyElements == StateElements(detected)
    {
      assert states[..i + 1][..i] == states[..i];
      if AnyIn(states[i].markers, t) {
        detected := detected + [states[i].name];
        keyElements := keyElements + ["Stan: " + states[i].name];
      }
      i := i + 1;
    }
    assert states[..i] == states;
  }

  /** Steps 2 to 5 of `analyze`. */
  method DetectSignals(t: string) returns (score: int, keyElements: seq<string>, defenseCount: nat, selfRefCount: nat)
    ensures score == SignalScore(t) && keyElements == SignalElements(t)
    ensures defenseCount == CountPhrases(DefenseMechanisms, t) && selfRefCount == SelfRefCount(t)
  {
    defenseCount := CountPhrases(DefenseMechanisms, t);
    var defenseTag: seq<string> := [];
    if defenseCount > 0 {
      defenseTag := [NatToString(defenseCount) + " mechanizmów obronnych"];
    }
    selfRefCount := SelfRefCount(t);
    var selfRefTag: seq<string> := [];
    if selfRefCount > 0 {
      selfRefTag := ["Auto-referencja (" + NatToString(selfRefCount) + "x)"];
    }
    var projection := DetectProjection(t);
    var projectionTag: seq<string> := [];
    if projection {
      projectionTag := ["Projekcja (przerzucenie winy)"];
    }
    var meta := DetectMetaCommentary(t);
    var metaTag: seq<string> := [];
    if meta {
      metaTag := ["Meta-komentarz"];
    }
    score := defenseCount * 15 + selfRefCount * 5 + Pts(projection, 20) + Pts(meta, 25);
    keyElements := defenseTag + selfRefTag + projectionTag + metaTag;
  }

  /** `PsychoanalysisAnalyzer.analyze` */
  method Analyze(text: string) returns (r: Analysis)
    ensures r == AnalysisOf(text)
    ensures ValidAnalysis(r)
  {
    var t := Lower(text);
    var detected, stateElements := DetectStates(PsychologicalStates, t);
    var signalScore, signalElements, defenseCount, selfRefCount := DetectSignals(t);
    var score := 20 * |detected| + signalScore;
    if score > 100 {
      score := 100;
    }
    r := Analysis(score, Explanation(detected, defenseCount, selfRefCount), stateElements + signalElements);
  }

  /** A state is reported exactly when it is a table entry with a marker in the text. */
  lemma {:induction false} DetectedStatesIff(states: seq<State>, t: string, s: State)
    requires forall i, j :: 0 <= i < j < |states| ==> states[i].name != states[j].name
    requires s in states
    ensures s.name in DetectedStates(states, t) <==> AnyIn(s.markers, t)
    decreases |states|
  {
    var init := states[..|states| - 1];
    var last := states[|states| - 1];
    assert states == init + [last];
    if s == last {
      NameNotDetected(init, t, s.name);
    } else {
      assert s in init;
      DetectedStatesIff(init, t, s);
    }
  }

  /** Only the names of the listed states can be reported. */
  lemma {:induction false} NameNotDetected(states: seq<State>, t: string, name: string)
    requires forall i :: 0 <= i < |states| ==> states[i].name != name
    ensures name !in DetectedStates(states, t)
    decreases |states|
  {
    if states != [] {
      NameNotDetected(states[..|states| - 1], t, name);
    }
  }

  /** "to nie ja" is both a marker of the projection state and, through "nie ja", a projection
      pattern, so it earns 2.0 twice. */
  lemma {:induction false} NotMeCountsTwice(t: string)
    requires Contains(t, "to nie ja")
    ensures "projection" in DetectedStates(PsychologicalStates, t)
    ensures DetectProjection(t)
  {
    var states := PsychologicalStates;
    assert AnyIn(states[5].markers, t) by {
      assert states[5].markers[0] == "to nie ja";
    }
    DetectedStatesIff(states, t, states[5]);
    assert Contains("to nie ja", "nie ja") by {
      assert "to nie ja"[3..] == "nie ja";
      assert StartsWith("to nie ja"[3..], "nie ja");
    }
    ContainsTransitive(t, "to nie ja", "nie ja");
    assert ProjectionPatterns[5] == "nie ja";
  }

  /** Occurrences of " ja " do not overlap: two adjacent ones share a space, so " ja ja " holds
      two words "ja" but one self-reference. */
  lemma {:induction false} AdjacentSelfRefsCountOnce()
    ensures Count(" ja ja ", " ja ") == 1
  {
    assert StartsWith(" ja ja ", " ja ");
    assert " ja ja "[4..] == "ja ";
  }

  /** The explanation is the fallback exactly when no state, no defense mechanism and at most two
      self-references were found. */
  lemma {:induction false} ExplanationFallbackIff(detectedStates: seq<string>, defenseCount: nat, selfRefCount: nat)
    ensures Explanation(detectedStates, defenseCount, selfRefCount) == Fallback
      <==> |detectedStates| == 0 && defenseCount == 0 && selfRefCount <= 2
  {
    var parts :=
      Tag(|detectedStates| > 0, "Wykryto stany: " + Join(detectedStates, ", ") + ".")
      + Tag(defenseCount > 0, NatToString(defenseCount) + " mechanizmów obronnych.")
      + Tag(selfRefCount > 2, "Silna auto-referencja (narcyzm?).");
    if parts != [] {
      JoinStartsWith(parts, " ");
      assert Fallback[0] == 'B';
      assert parts[0][0] != 'B';
    }
  }
}
