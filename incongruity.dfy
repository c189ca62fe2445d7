/** The incongruity analyzer (src/joke_analyser/analyzers/incongruity.py): clashes between two
    domains of reality, contrast markers, anthropomorphization of technology, semantically
    clashing word pairs and the "Waldus" style (technology plus suffering). Scores are in tenths. */
module Incongruity {
  import opened Text
  import opened Base

  /** A non-empty word list; its first word names the domain in labels. */
  type Domain = s: seq<string> | |s| > 0 witness [""]

  /** One entry of `INCONGRUITY_PAIRS`: a "high" and a "low" domain. */
  datatype DomainPair = DomainPair(high: Domain, low: Domain)

  const IncongruityPairs: seq<DomainPair> := [
    DomainPair(["filozofia", "egzystencja", "metafizyka", "transcendencja", "ontologia"],
               ["kebab", "piwo", "przeciek", "kanał", "kibel"]),
    DomainPair(["api", "serwer", "request", "endpoint", "database", "ai", "algorytm", "kod"],
               ["miłość", "smutek", "śmierć", "strach", "tęsknota", "samotność"]),
    DomainPair(["synergize", "leverage", "optimize", "innovate", "disrupt", "blockchain"],
               ["rano", "kawa", "autobus", "kolejka", "śniadanie"]),
    DomainPair(["cyfrowy", "wirtualny", "online", "internet", "cloud"],
               ["ciało", "fizyczny", "dotyk", "zapach", "głód"]),
    DomainPair(["quantum", "einstein", "relatywność", "teoria", "badania"],
               ["losowo", "przypadek", "chaos", "bez sensu"])
  ]

  const ContrastMarkers: seq<string> := [
    "ale", "jednak", "zamiast", "niż", "mimo", "choć",
    "podczas gdy", "z drugiej strony", "przeciwnie"
  ]

  const AnthropoMarkers: seq<string> := [
    "czuję", "myślę", "cierpię", "umierać", "żyć",
    "tęsknię", "kocham", "nienawidzę", "boję się"
  ]

  /** The word pairs of `_detect_semantic_clash`. */
  const ClashPairs: seq<(string, string)> := [
    ("api", "śmierć"), ("request", "płacz"), ("server", "samotność"), ("kod", "miłość"),
    ("algorytm", "smutek"), ("database", "rozpacz"), ("endpoint", "egzystencja"),
    ("quantum", "kebab")
  ]

  const TechWords: seq<string> := ["api", "request", "server", "internet", "kod", "cyfrowy"]
  const SufferWords: seq<string> := ["śmierć", "umierać", "cierpię", "samotność", "rozpacz"]

  const Fallback := "Brak wyraźnych niespójności." + " Może być za spójny."

  /** A pair clashes when both of its domains have a word in the text. */
  predicate Clashes(p: DomainPair, t: string) {
    CountIn(p.high, t) > 0 && CountIn(p.low, t) > 0
  }

  /** The pairs that clash, in table order. */
  function FiredPairs(pairs: seq<DomainPair>, t: string): (fired: seq<DomainPair>)
    ensures |fired| <= |pairs|
    decreases |pairs|
  {
    if pairs == [] then []
    else
      var init := pairs[..|pairs| - 1];
      var last := pairs[|pairs| - 1];
      FiredPairs(init, t) + if Clashes(last, t) then [last] else []
  }

  /** `f"{high[0]}↔{low[0]}"` */
  function Label(p: DomainPair): string {
    p.high[0] + "↔" + p.low[0]
  }

  /** `f"Clash: {high[0]} + {low[0]}"` */
  function ClashElement(p: DomainPair): string {
    "Clash: " + p.high[0] + " + " + p.low[0]
  }

  function Labels(ps: seq<DomainPair>): (r: seq<string>)
    ensures |r| == |ps|
  {
    seq(|ps|, k requires 0 <= k < |ps| => Label(ps[k]))
  }

  function ClashElements(ps: seq<DomainPair>): (r: seq<string>)
    ensures |r| == |ps|
  {
    seq(|ps|, k requires 0 <= k < |ps| => ClashElement(ps[k]))
  }

  /** `_detect_semantic_clash`: both words of some clash pair occur. */
  predicate DetectSemanticClash(t: string) {
    exists k :: 0 <= k < |ClashPairs| && Contains(t, ClashPairs[k].0) && Contains(t, ClashPairs[k].1)
  }

  /** `_is_waldus_style`: a tech word and a suffering word both occur. */
  predicate IsWaldusStyle(t: string) {
    AnyIn(TechWords, t) && AnyIn(SufferWords, t)
  }

  /** `_generate_explanation` */
  function Explanation(detected: seq<string>, contrastCount: nat, anthropoCount: nat): string {
    var parts :=
      (if |detected| > 0
       then ["Wykryto " + NatToString(|detected|) + " zderzenie domen: " + Join(detected, ", ") + "."]
       else [])
      + (if contrastCount > 0 then ["Użyto " + NatToString(contrastCount) + " markerów kontrastu."] else [])
      + (if anthropoCount > 0 then ["Antropomorfizacja (tech → emocje)."] else []);
    if parts == [] then Fallback else Join(parts, " ")
  }

  /** What steps 2 to 5 of `analyze` add to the score, on the lower-cased text `t`. */
  function SignalScore(t: string): nat {
    Pts(CountPhrases(ContrastMarkers, t) > 0, 15) + Pts(CountIn(AnthropoMarkers, t) > 0, 20)
    + Pts(DetectSemanticClash(t), 15) + Pts(IsWaldusStyle(t), 15)
  }

  /** The key elements steps 2 to 5 of `analyze` append, on the lower-cased text `t`. */
  function SignalElements(t: string): seq<string> {
    var contrast := CountPhrases(ContrastMarkers, t);
    Tag(contrast > 0, NatToString(contrast) + " marker kontrastu")
    + Tag(CountIn(AnthropoMarkers, t) > 0, "Antropomorfizacja")
    + Tag(DetectSemanticClash(t), "Zderzenie semantyczne")
    + Tag(IsWaldusStyle(t), "Styl Waldus (tech + egzystencja)")
  }

  /** The score before the cap. */
  function RawScore(text: string): int {
    var t := Lower(text);
    25 * |FiredPairs(IncongruityPairs, t)| + SignalScore(t)
  }

  function KeyElements(text: string): seq<string> {
    var t := Lower(text);
    ClashElements(FiredPairs(IncongruityPairs, t)) + SignalElements(t)
  }

  /** The result of `analyze` on `text`: `min(10, score)`. */
  function AnalysisOf(text: string): Analysis {
    var t := Lower(text);
    var raw := RawScore(text);
    Analysis(if raw > 100 then 100 else raw,
             Explanation(Labels(FiredPairs(IncongruityPairs, t)), CountPhrases(ContrastMarkers, t),
                         CountIn(AnthropoMarkers, t)),
             KeyElements(text))
  }

  /** Step 1 of `analyze`: the loop over `INCONGRUITY_PAIRS`, collecting the labels and key
      elements of the clashing pairs. */
  method DetectDomainClashes(pairs: seq<DomainPair>, t: string) returns (detected: seq<string>, keyElements: seq<string>)
    ensures detected == Labels(FiredPairs(pairs, t))
    ensures keyElements == ClashElements(FiredPairs(pairs, t))
  {
    detected := [];
    keyElements := [];
    ghost var fired: seq<DomainPair> := [];
    var i := 0;
    while i < |pairs|
      invariant 0 <= i <= |pairs|
      invariant fired == FiredPairs(pairs[..i], t)
      invariant detected == Labels(fired) && keyElements == ClashElements(fired)
    {
      var p := pairs[i];
      assert pairs[..i + 1][..i] == pairs[..i];
      if CountIn(p.high, t) > 0 && CountIn(p.low, t) > 0 {
        ExtendFired(fired, p);
        fired := fired + [p];
        detected := detected + [Label(p)];
        keyElements := keyElements + [ClashElement(p)];
      } else {
        assert FiredPairs(pairs[..i + 1], t) == fired + [];
        assert fired + [] == fired;
      }
      i := i + 1;
    }
    assert pairs[..i] == pairs;
  }

  /** Appending a clashing pair appends its label and key element. */
  lemma {:induction false} ExtendFired(before: seq<DomainPair>, p: DomainPair)
    ensures Labels(before + [p]) == Labels(before) + [Label(p)]
    ensures ClashElements(before + [p]) == ClashElements(before) + [ClashElement(p)]
  {
  }

  /** Steps 2 to 5 of `analyze`: contrast markers, anthropomorphization, semantic clash and
      the Waldus style. */
  method DetectSignals(t: string) returns (score: int, keyElements: seq<string>, contrastCount: nat, anthropoCount: nat)
    ensures score == SignalScore(t) && keyElements == SignalElements(t)
    ensures contrastCount == CountPhrases(ContrastMarkers, t) && anthropoCount == CountIn(AnthropoMarkers, t)
  {
    contrastCount := CountPhrases(ContrastMarkers, t);
    var contrastTag: seq<string> := [];
    if contrastCount > 0 {
      contrastTag := [NatToString(contrastCount) + " marker kontrastu"];
    }
    anthropoCount := CountIn(AnthropoMarkers, t);
    var anthropoTag: seq<string> := [];
    if anthropoCount > 0 {
      anthropoTag := ["Antropomorfizacja"];
    }
    var clash := DetectSemanticClash(t);
    var clashTag: seq<string> := [];
    if clash {
      clashTag := ["Zderzenie semantyczne"];
    }
    var waldus := IsWaldusStyle(t);
    var waldusTag: seq<string> := [];
    if waldus {
      waldusTag := ["Styl Waldus (tech + egzystencja)"];
    }
    score := Pts(contrastCount > 0, 15) + Pts(anthropoCount > 0, 20) + Pts(clash, 15) + Pts(waldus, 15);
    keyElements := contrastTag + anthropoTag + clashTag + waldusTag;
  }

  /** `IncongruityAnalyzer.analyze` */
  method Analyze(text: string) returns (r: Analysis)
    ensures r == AnalysisOf(text)
    ensures ValidAnalysis(r)
  {
    var t := Lower(text);
    var detected, keyElements := DetectDomainClashes(IncongruityPairs, t);
    var bonus, signalElements, contrastCount, anthropoCount := DetectSignals(t);
    var score := 25 * |detected| + bonus;
    keyElements := keyElements + signalElements;
    if score > 100 {
      score := 100;
    }
    r := Analysis(score, Explanation(detected, contrastCount, anthropoCount), keyElements);
  }

  /** A pair is reported exactly when it is a table entry whose two domains both have a word in
      the text; the report keeps table order and adds nothing else. */
  lemma {:induction false} FiredPairsIff(pairs: seq<DomainPair>, t: string, p: DomainPair)
    ensures p in FiredPairs(pairs, t) <==> p in pairs && Clashes(p, t)
    decreases |pairs|
  {
    if pairs != [] {
      var init := pairs[..|pairs| - 1];
      FiredPairsIff(init, t, p);
      assert pairs == init + [pairs[|pairs| - 1]];
    }
  }

  /** The explanation is the fallback exactly when no domain clash, no contrast marker and no
      anthropomorphization was found. */
  lemma {:induction false} ExplanationFallbackIff(detected: seq<string>, contrastCount: nat, anthropoCount: nat)
    ensures Explanation(detected, contrastCount, anthropoCount) == Fallback
      <==> |detected| == 0 && contrastCount == 0 && anthropoCount == 0
  {
    var e := Explanation(detected, contrastCount, anthropoCount);
    var parts :=
      (if |detected| > 0
       then ["Wykryto " + NatToString(|detected|) + " zderzenie domen: " + Join(detected, ", ") + "."]
       else [])
      + (if contrastCount > 0 then ["Użyto " + NatToString(contrastCount) + " markerów kontrastu."] else [])
      + (if anthropoCount > 0 then ["Antropomorfizacja (tech → emocje)."] else []);
    if parts != [] {
      JoinStartsWith(parts, " ");
      assert Fallback[0] == 'B';
      assert parts[0][0] != 'B';
      assert e[0] == parts[0][0];
    }
  }
}
