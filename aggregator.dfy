/** The aggregating `JokeAnalyzer` (src/humor_features/analyzer.py): runs the nine theory
    analyzers in registry order and derives the overall score, the dominant theory, the
    goal-weighted percentages, the recommendations and the target segments. Scores are in tenths;
    goal weights are in hundredths. */
module Aggregator {
  import opened Wrappers
  import opened Text
  import opened Base
  import opened Models
  import SP = SetupPunchline
  import Inc = Incongruity
  import Sem = SemanticShift
  import Tim = Timing
  import Abs = AbsurdEscalation
  import Psy = Psychoanalysis
  import Arch = Archetype
  import Atoms = HumorAtoms
  import RE = ReverseEngineering

  /** The keys of `self.analyzers`, in insertion order. */
  const Registry: seq<Theory> := [
    Theory.SetupPunchline, Theory.Incongruity, Theory.SemanticShift, Theory.Timing,
    Theory.AbsurdEscalation, Theory.Psychoanalysis, Theory.Archetype, Theory.HumorAtoms,
    Theory.ReverseEngineering
  ]

  /** `self.analyzers[t].analyze(text, context)`: the analyzer registered for `t`. The lookup is
      written as equality tests rather than a `match`, which keeps the proofs that unfold it small. */
  function RunAnalyzer(t: Theory, text: string): Analysis {
    if t == Theory.SetupPunchline then SP.AnalysisOf(text)
    else if t == Theory.Incongruity then Inc.AnalysisOf(text)
    else if t == Theory.SemanticShift then Sem.AnalysisOf(text)
    else if t == Theory.Timing then Tim.AnalysisOf(text)
    else if t == Theory.AbsurdEscalation then Abs.AnalysisOf(text)
    else if t == Theory.Psychoanalysis then Psy.AnalysisOf(text)
    else if t == Theory.Archetype then Arch.AnalysisOf(text)
    else if t == Theory.HumorAtoms then Atoms.AnalysisOf(text)
    else RE.AnalysisOf(text)
  }

  /** Dispatch to the analyzer registered for `t`. */
  method Run(t: Theory, text: string) returns (r: Analysis)
    ensures r == RunAnalyzer(t, text)
    ensures ValidAnalysis(r)
  {
    if t == Theory.SetupPunchline {
      r := SP.Analyze(text);
    } else if t == Theory.Incongruity {
      r := Inc.Analyze(text);
    } else if t == Theory.SemanticShift {
      r := Sem.Analyze(text);
    } else if t == Theory.Timing {
      r := Tim.Analyze(text);
    } else if t == Theory.AbsurdEscalation {
      r := Abs.Analyze(text);
    } else if t == Theory.Psychoanalysis {
      r := Psy.Analyze(text);
    } else if t == Theory.Archetype {
      r := Arch.Analyze(text);
    } else if t == Theory.HumorAtoms {
      r := Atoms.Analyze(text);
    } else {
      r := RE.Analyze(text);
    }
  }

  /** One item of `raw_scores`: a theory and its score in tenths. The dictionary is a sequence
      of items in insertion order. */
  type Entry = (Theory, int)

  /** `raw_scores.get(t, default)` */
  function Get(entries: seq<Entry>, t: Theory, default: int): int
    decreases |entries|
  {
    if entries == [] then default
    else if entries[0].0 == t then entries[0].1
    else Get(entries[1..], t, default)
  }

  function Scores(entries: seq<Entry>): (xs: seq<int>)
    ensures |xs| == |entries|
    ensures forall k :: 0 <= k < |entries| ==> xs[k] == entries[k].1
  {
    seq(|entries|, k requires 0 <= k < |entries| => entries[k].1)
  }

  function Total(xs: seq<int>): int
    decreases |xs|
  {
    if xs == [] then 0 else Total(xs[..|xs| - 1]) + xs[|xs| - 1]
  }

  /** The `TheoryScore` built from one analyzer's result. */
  function ToTheoryScore(a: Analysis): TheoryScore {
    TheoryScore(a.score, a.explanation, a.keyElements)
  }

  /** The registered analyzers applied to `text`. */
  function Analyzer(text: string): Theory -> Analysis {
    t => RunAnalyzer(t, text)
  }

  /** `theory_scores` after the loop has stored the result of `analyze` for each of `theories`. */
  function TheoryScoresOf(analyze: Theory -> Analysis, theories: seq<Theory>): map<string, TheoryScore>
    decreases |theories|
  {
    if theories == [] then map[]
    else
      var last := theories[|theories| - 1];
      TheoryScoresOf(analyze, theories[..|theories| - 1])[TheoryValue(last) := ToTheoryScore(analyze(last))]
  }

  /** `raw_scores` after the loop has stored the score of `analyze` for each of `theories`. */
  function RawEntries(analyze: Theory -> Analysis, theories: seq<Theory>): (entries: seq<Entry>)
    ensures |entries| == |theories|
  {
    seq(|theories|, k requires 0 <= k < |theories| => (theories[k], analyze(theories[k]).score))
  }

  /** `round(sum(scores) / 9, 1)` on scores in tenths: the mean to the nearest tenth. A mean of
      nine tenths never lies halfway between two tenths, so no tie rule is needed. */
  function OverallScore(scores: seq<int>): (o: int)
    requires |scores| == 9
    ensures -4 <= 9 * o - Total(scores) <= 4
  {
    (2 * Total(scores) + 9) / 18
  }

  /** `max(raw_scores, key=raw_scores.get)`: the position of the first maximum, since `max`
      replaces its candidate only on a strictly greater value. */
  function FirstMax(xs: seq<int>): (k: nat)
    requires |xs| > 0
    ensures k < |xs|
    ensures forall j :: 0 <= j < |xs| ==> xs[j] <= xs[k]
    ensures forall j :: 0 <= j < k ==> xs[j] < xs[k]
    decreases |xs|
  {
    if |xs| == 1 then 0
    else
      var k := FirstMax(xs[..|xs| - 1]);
      if xs[|xs| - 1] > xs[k] then |xs| - 1 else k
  }

  function Dominant(entries: seq<Entry>): Theory
    requires |entries| > 0
  {
    entries[FirstMax(Scores(entries))].0
  }

  /** `self.weights[goal]` in hundredths, `None` for a goal outside the table. */
  function Weights(goal: string): Option<seq<(Theory, nat)>> {
    if goal == "reach" then
      Some([(Theory.SetupPunchline, 35), (Theory.Archetype, 30), (Theory.Incongruity, 20), (Theory.Timing, 15)])
    else if goal == "monetization" then
      Some([(Theory.Psychoanalysis, 40), (Theory.Archetype, 25), (Theory.Incongruity, 20), (Theory.AbsurdEscalation, 15)])
    else if goal == "viral" then
      Some([(Theory.AbsurdEscalation, 40), (Theory.Archetype, 25), (Theory.SemanticShift, 20), (Theory.Timing, 15)])
    else None
  }

  /** `weighted_sum` scaled by 1000: score in tenths times weight in hundredths, a missing score
      counting as zero. */
  function WeightedSum(entries: seq<Entry>, weights: seq<(Theory, nat)>): int
    decreases |weights|
  {
    if weights == [] then 0
    else
      var last := weights[|weights| - 1];
      WeightedSum(entries, weights[..|weights| - 1]) + Get(entries, last.0, 0) * last.1
  }

  function WeightTotal(weights: seq<(Theory, nat)>): nat
    decreases |weights|
  {
    if weights == [] then 0 else WeightTotal(weights[..|weights| - 1]) + weights[|weights| - 1].1
  }

  /** Python's `int(x / d)` for a positive `d`: division truncating toward zero. */
  function TruncDiv(x: int, d: nat): (q: int)
    requires d > 0
    ensures x >= 0 ==> 0 <= q * d <= x < q * d + d
    ensures x < 0 ==> q * d - d < x <= q * d <= 0
  {
    if x >= 0 then
      DivBounds(x, d);
      x / d
    else
      DivBounds(-x, d);
      NegTimes((-x) / d, d);
      -((-x) / d)
  }

  lemma {:induction false} DivBounds(m: nat, d: nat)
    requires d > 0
    ensures 0 <= (m / d) * d <= m < (m / d) * d + d
  {
    assert m == d * (m / d) + m % d;
  }

  lemma {:induction false} NegTimes(a: int, d: int)
    ensures (-a) * d == -(a * d)
  {
  }

  /** `max(0, min(100, x))` */
  function Clamp(x: int): (r: int)
    ensures 0 <= r <= 100
    ensures 0 <= x <= 100 ==> r == x
  {
    if x > 100 then 100 else if x < 0 then 0 else x
  }

  /** `_calculate_weighted_score`: 50 for a goal outside the table, otherwise the truncated
      weighted sum on the 0-100 scale, clamped. */
  function WeightedScore(entries: seq<Entry>, goal: string): (r: int)
    ensures 0 <= r <= 100
    ensures Weights(goal).None? ==> r == 50
  {
    match Weights(goal)
    case None => 50
    case Some(weights) => Clamp(TruncDiv(WeightedSum(entries, weights), 100))
  }

  method CalculateWeightedScore(entries: seq<Entry>, goal: string) returns (r: int)
    ensures r == WeightedScore(entries, goal)
  {
    var table := Weights(goal);
    if table.None? {
      return 50;
    }
    var weights := table.value;
    var sum := 0;
    for i := 0 to |weights|
      invariant sum == WeightedSum(entries, weights[..i])
    {
      assert weights[..i + 1][..i] == weights[..i];
      sum := sum + Get(entries, weights[i].0, 0) * weights[i].1;
    }
    assert weights[..|weights|] == weights;
    r := TruncDiv(sum, 100);
    if r > 100 {
      r := 100;
    }
    if r < 0 {
      r := 0;
    }
  }

  /** How a score in tenths prints in an f-string: one decimal for the analyzers' floats, except
      that setup-punchline's lower clamp `max(0, ...)` yields the integer 0. */
  function ScoreText(t: Theory, score: int): string {
    if t == Theory.SetupPunchline && score == 0 then "0"
    else if score < 0 then "-" + TenthsToString(-score)
    else TenthsToString(score)
  }

  function WeakLine(e: Entry): string {
    "Wzmocnić " + TheoryValue(e.0) + ": obecnie " + ScoreText(e.0, e.1) + "/10"
  }

  /** One line per entry scoring below 5.0, in entry order. */
  function WeakLines(entries: seq<Entry>): seq<string>
    decreases |entries|
  {
    if entries == [] then []
    else
      var last := entries[|entries| - 1];
      WeakLines(entries[..|entries| - 1]) + if last.1 < 50 then [WeakLine(last)] else []
  }

  const SetupAdvice := "Dodać wyraźniejszy setup-punchline"
  const IncongruityAdvice := "Zwiększyć niespójność (zderzenie domen)"
  const TimingAdvice := "Poprawić timing (krótszy punchline)"

  /** The recommendations before the cut to five. */
  function AllRecommendations(entries: seq<Entry>): seq<string> {
    WeakLines(entries)
    + Tag(Get(entries, Theory.SetupPunchline, 0) < 60, SetupAdvice)
    + Tag(Get(entries, Theory.Incongruity, 0) < 60, IncongruityAdvice)
    + Tag(Get(entries, Theory.Timing, 0) < 60, TimingAdvice)
  }

  /** `_generate_recommendations`: the first five of them. */
  function Recommendations(entries: seq<Entry>): (recs: seq<string>)
    ensures |recs| <= 5 && |recs| <= |AllRecommendations(entries)|
    ensures recs == AllRecommendations(entries)[..|recs|]
    ensures |recs| < 5 ==> recs == AllRecommendations(entries)
  {
    var all := AllRecommendations(entries);
    if |all| > 5 then all[..5] else all
  }

  method GenerateRecommendations(entries: seq<Entry>) returns (recs: seq<string>)
    ensures recs == Recommendations(entries)
  {
    recs := [];
    for i := 0 to |entries|
      invariant recs == WeakLines(entries[..i])
    {
      WeakLinesStep(entries, i);
      if entries[i].1 < 50 {
        recs := recs + [WeakLine(entries[i])];
      }
    }
    assert entries[..|entries|] == entries;
    var setup := Get(entries, Theory.SetupPunchline, 0) < 60;
    var incongruity := Get(entries, Theory.Incongruity, 0) < 60;
    var timing := Get(entries, Theory.Timing, 0) < 60;
    if setup {
      recs := recs + [SetupAdvice];
    }
    assert recs == WeakLines(entries) + Tag(setup, SetupAdvice);
    if incongruity {
      recs := recs + [IncongruityAdvice];
    }
    assert recs == WeakLines(entries) + Tag(setup, SetupAdvice) + Tag(incongruity, IncongruityAdvice);
    if timing {
      recs := recs + [TimingAdvice];
    }
    assert recs == AllRecommendations(entries);
    if |recs| > 5 {
      recs := recs[..5];
    }
  }

  lemma {:induction false} WeakLinesStep(entries: seq<Entry>, i: nat)
    requires i < |entries|
    ensures WeakLines(entries[..i + 1]) == WeakLines(entries[..i]) + if entries[i].1 < 50 then [WeakLine(entries[i])] else []
  {
    assert entries[..i + 1][..i] == entries[..i];
  }

  const GeneralAudience := "General Audience"
  const TechEnthusiasts := "Tech Enthusiasts"
  const EarlyAdopters := "Early Adopters"
  const CuriousNormies := "Curious Normies"
  const YoungDemographics := "Young Demographics (18-34)"

  predicate TechRule(entries: seq<Entry>) {
    Get(entries, Theory.Incongruity, 0) >= 70 && Get(entries, Theory.Psychoanalysis, 0) >= 60
  }

  predicate EarlyRule(entries: seq<Entry>) {
    Get(entries, Theory.Archetype, 0) >= 70 && Get(entries, Theory.Incongruity, 0) >= 60
  }

  predicate NormiesRule(entries: seq<Entry>) {
    Get(entries, Theory.SetupPunchline, 0) >= 70 && Get(entries, Theory.Archetype, 0) >= 60
  }

  predicate YoungRule(entries: seq<Entry>) {
    Get(entries, Theory.AbsurdEscalation, 0) >= 80
  }

  /** The four segment rules, each appending its label when it holds. */
  function SegmentRules(entries: seq<Entry>): seq<string> {
    Tag(TechRule(entries), TechEnthusiasts) + Tag(EarlyRule(entries), EarlyAdopters)
    + Tag(NormiesRule(entries), CuriousNormies) + Tag(YoungRule(entries), YoungDemographics)
  }

  /** `_determine_segments` */
  function Segments(entries: seq<Entry>): seq<string> {
    var rules := SegmentRules(entries);
    if rules == [] then [GeneralAudience] else rules
  }

  method DetermineSegments(entries: seq<Entry>) returns (segments: seq<string>)
    ensures segments == Segments(entries)
  {
    segments := [];
    if TechRule(entries) {
      segments := segments + [TechEnthusiasts];
    }
    assert segments == Tag(TechRule(entries), TechEnthusiasts);
    if EarlyRule(entries) {
      segments := segments + [EarlyAdopters];
    }
    assert segments == Tag(TechRule(entries), TechEnthusiasts) + Tag(EarlyRule(entries), EarlyAdopters);
    if NormiesRule(entries) {
      segments := segments + [CuriousNormies];
    }
    if YoungRule(entries) {
      segments := segments + [YoungDemographics];
    }
    assert segments == SegmentRules(entries);
    if segments == [] {
      segments := segments + [GeneralAudience];
    }
  }

  /** The five segment labels are distinct: they differ in length or in their first letter. */
  lemma {:induction false} LabelsDistinct()
    ensures GeneralAudience != TechEnthusiasts && GeneralAudience != EarlyAdopters
    ensures GeneralAudience != CuriousNormies && GeneralAudience != YoungDemographics
    ensures TechEnthusiasts != EarlyAdopters && TechEnthusiasts != CuriousNormies
    ensures TechEnthusiasts != YoungDemographics && EarlyAdopters != CuriousNormies
    ensures EarlyAdopters != YoungDemographics && CuriousNormies != YoungDemographics
  {
    assert GeneralAudience[0] == 'G' && TechEnthusiasts[0] == 'T' && EarlyAdopters[0] == 'E';
    assert CuriousNormies[0] == 'C' && YoungDemographics[0] == 'Y';
  }

  /** The response `analyze` builds for `text`. */
  function ResponseOf(text: string): AnalyzeResponse {
    var entries := RawEntries(Analyzer(text), Registry);
    AnalyzeResponse(
      text,
      TheoryScoresOf(Analyzer(text), Registry),
      TheoryValue(Dominant(entries)),
      OverallScore(Scores(entries)),
      WeightedScore(entries, "reach"),
      WeightedScore(entries, "monetization"),
      Recommendations(entries),
      Segments(entries))
  }

  /** The loop over the registry: every analyzer's result goes into `theory_scores` under the
      theory's value and into `raw_scores`. */
  method RunAll(text: string, theories: seq<Theory>) returns (theoryScores: map<string, TheoryScore>, entries: seq<Entry>)
    ensures theoryScores == TheoryScoresOf(Analyzer(text), theories)
    ensures entries == RawEntries(Analyzer(text), theories)
    ensures StoredInRange(theoryScores) && EntriesInRange(entries)
  {
    ghost var analyze := Analyzer(text);
    theoryScores := map[];
    entries := [];
    for i := 0 to |theories|
      invariant theoryScores == TheoryScoresOf(analyze, theories[..i])
      invariant entries == RawEntries(analyze, theories[..i])
      invariant StoredInRange(theoryScores) && EntriesInRange(entries)
    {
      var result := Run(theories[i], text);
      assert result == analyze(theories[i]);
      StoreStep(analyze, theories, i);
      StoreKeepsRange(theoryScores, entries, theories[i], result);
      theoryScores := theoryScores[TheoryValue(theories[i]) := ToTheoryScore(result)];
      entries := entries + [(theories[i], result.score)];
    }
    assert theories[..|theories|] == theories;
  }

  /** Every score stored in `theory_scores` lies between 0 and 10. */
  predicate StoredInRange(theoryScores: map<string, TheoryScore>) {
    forall k :: k in theoryScores ==> 0 <= theoryScores[k].score <= 100
  }

  /** Every score in `raw_scores` lies between 0 and 10. */
  predicate EntriesInRange(entries: seq<Entry>) {
    forall k :: 0 <= k < |entries| ==> 0 <= entries[k].1 <= 100
  }

  /** Storing a valid result keeps every stored score in range. */
  lemma {:induction false} StoreKeepsRange(theoryScores: map<string, TheoryScore>, entries: seq<Entry>, t: Theory, a: Analysis)
    requires StoredInRange(theoryScores) && EntriesInRange(entries) && ValidAnalysis(a)
    ensures StoredInRange(theoryScores[TheoryValue(t) := ToTheoryScore(a)])
    ensures EntriesInRange(entries + [(t, a.score)])
  {
  }

  /** One iteration of the loop adds the theory's result under its value and its score at the
      end of `raw_scores`. */
  lemma {:induction false} StoreStep(analyze: Theory -> Analysis, theories: seq<Theory>, i: nat)
    requires i < |theories|
    ensures TheoryScoresOf(analyze, theories[..i + 1])
      == TheoryScoresOf(analyze, theories[..i])[TheoryValue(theories[i]) := ToTheoryScore(analyze(theories[i]))]
    ensures RawEntries(analyze, theories[..i + 1])
      == RawEntries(analyze, theories[..i]) + [(theories[i], analyze(theories[i]).score)]
  {
    assert theories[..i + 1][..i] == theories[..i];
  }

  /** `JokeAnalyzer.analyze` */
  method Analyze(request: AnalyzeRequest) returns (r: AnalyzeResponse)
    ensures r == ResponseOf(request.jokeText)
    ensures ValidResponse(r)
  {
    var text := request.jokeText;
    var theoryScores, entries := RunAll(text, Registry);
    OverallInRange(Scores(entries));
    var reach := CalculateWeightedScore(entries, "reach");
    var monetization := CalculateWeightedScore(entries, "monetization");
    var recommendations := GenerateRecommendations(entries);
    var segments := DetermineSegments(entries);
    r := AnalyzeResponse(text, theoryScores, TheoryValue(Dominant(entries)), OverallScore(Scores(entries)),
                         reach, monetization, recommendations, segments);
  }

  /** Nine scores between 0 and 10 have a mean between 0 and 10. */
  lemma {:induction false} OverallInRange(scores: seq<int>)
    requires |scores| == 9
    requires forall k :: 0 <= k < 9 ==> 0 <= scores[k] <= 100
    ensures 0 <= OverallScore(scores) <= 100
  {
    TotalBounds(scores, 0, 100);
  }

  lemma {:induction false} TotalBounds(xs: seq<int>, lo: int, hi: int)
    requires forall k :: 0 <= k < |xs| ==> lo <= xs[k] <= hi
    ensures |xs| * lo <= Total(xs) <= |xs| * hi
    decreases |xs|
  {
    if xs != [] {
      var n := |xs| - 1;
      TotalBounds(xs[..n], lo, hi);
      assert |xs| * lo == n * lo + lo;
      assert |xs| * hi == n * hi + hi;
    }
  }

  /** Equal scores have that score as their mean. */
  lemma {:induction false} OverallOfEqualScores(scores: seq<int>, v: int)
    requires |scores| == 9
    requires forall k :: 0 <= k < 9 ==> scores[k] == v
    ensures OverallScore(scores) == v
  {
    TotalBounds(scores, v, v);
  }

  /** The registry maps each of the nine theories to exactly one analyzer, in declaration order. */
  lemma {:induction false} RegistryIsEveryTheoryOnce(t: Theory)
    ensures Registry == AllTheories
    ensures t in Registry
    ensures forall i, j :: 0 <= i < j < |Registry| ==> Registry[i] != Registry[j]
  {
    TheoryEnumClosed(t);
  }

  /** `theory_scores` holds exactly one entry per registered theory, keyed by its value, and that
      entry is the analyzer's own result. */
  lemma {:induction false} TheoryScoresEntries(analyze: Theory -> Analysis, theories: seq<Theory>, t: Theory)
    ensures TheoryValue(t) in TheoryScoresOf(analyze, theories) <==> t in theories
    ensures t in theories ==> TheoryScoresOf(analyze, theories)[TheoryValue(t)] == ToTheoryScore(analyze(t))
    decreases |theories|
  {
    if theories != [] {
      var init := theories[..|theories| - 1];
      var last := theories[|theories| - 1];
      TheoryScoresEntries(analyze, init, t);
      assert theories == init + [last];
      TheoryValueInjective(t, last);
    }
  }

  /** The dominant theory is the first registered theory whose score is the maximum. */
  lemma {:induction false} DominantIsFirstMaximum(entries: seq<Entry>)
    requires |entries| > 0
    ensures exists k :: (0 <= k < |entries| && Dominant(entries) == entries[k].0
      && (forall j :: 0 <= j < |entries| ==> entries[j].1 <= entries[k].1)
      && (forall j :: 0 <= j < k ==> entries[j].1 < entries[k].1))
  {
    var k := FirstMax(Scores(entries));
    assert Dominant(entries) == entries[k].0;
  }

  /** When all scores are equal, the first entry dominates: on a tie setup-punchline, first in
      the registry, wins. */
  lemma {:induction false} TiesGoToFirst(entries: seq<Entry>)
    requires |entries| > 0
    requires forall k :: 0 <= k < |entries| ==> entries[k].1 == entries[0].1
    ensures Dominant(entries) == entries[0].0
  {
    var xs := Scores(entries);
    var k := FirstMax(xs);
    assert xs[0] == xs[k];
  }

  /** The weights of every goal add up to 1.00. */
  lemma {:induction false} WeightsSumToOne(goal: string)
    requires Weights(goal).Some?
    ensures WeightTotal(Weights(goal).value) == 100
  {
    WeightTotalOfFour(Weights(goal).value);
  }

  lemma {:induction false} WeightTotalOfFour(w: seq<(Theory, nat)>)
    requires |w| == 4
    ensures WeightTotal(w) == w[0].1 + w[1].1 + w[2].1 + w[3].1
  {
    assert w[..3][..2] == w[..2] && w[..2][..1] == w[..1];
    assert WeightTotal(w[..1]) == w[0].1 by {
      assert |w[..1][..0]| == 0;
    }
    assert WeightTotal(w[..2]) == WeightTotal(w[..1]) + w[1].1;
    assert WeightTotal(w[..3]) == WeightTotal(w[..2]) + w[2].1;
    assert WeightTotal(w) == WeightTotal(w[..3]) + w[3].1;
  }

  lemma {:induction false} WeightedSumBounds(entries: seq<Entry>, weights: seq<(Theory, nat)>)
    requires forall k :: 0 <= k < |entries| ==> 0 <= entries[k].1 <= 100
    ensures 0 <= WeightedSum(entries, weights) <= 100 * WeightTotal(weights)
    decreases |weights|
  {
    if weights != [] {
      var last := weights[|weights| - 1];
      WeightedSumBounds(entries, weights[..|weights| - 1]);
      GetBounds(entries, last.0);
      ProductBounds(Get(entries, last.0, 0), last.1);
    }
  }

  lemma {:induction false} ProductBounds(score: int, weight: nat)
    requires 0 <= score <= 100
    ensures 0 <= score * weight <= 100 * weight
  {
  }

  lemma {:induction false} GetBounds(entries: seq<Entry>, t: Theory)
    requires forall k :: 0 <= k < |entries| ==> 0 <= entries[k].1 <= 100
    ensures 0 <= Get(entries, t, 0) <= 100
    decreases |entries|
  {
    if entries != [] && entries[0].0 != t {
      GetBounds(entries[1..], t);
    }
  }

  /** For scores between 0 and 10 the clamp never applies: the result is the truncated weighted
      mean itself. */
  lemma {:induction false} WeightedScoreIsWeightedMean(entries: seq<Entry>, goal: string)
    requires Weights(goal).Some?
    requires forall k :: 0 <= k < |entries| ==> 0 <= entries[k].1 <= 100
    ensures WeightedScore(entries, goal) == WeightedSum(entries, Weights(goal).value) / 100
  {
    WeightedSumBounds(entries, Weights(goal).value);
    WeightsSumToOne(goal);
  }

  /** A line naming a weak theory is produced exactly for the entries scoring below 5.0. */
  lemma {:induction false} WeakLinesIff(entries: seq<Entry>, line: string)
    ensures line in WeakLines(entries) <==> exists k :: 0 <= k < |entries| && entries[k].1 < 50 && line == WeakLine(entries[k])
  {
    if line in WeakLines(entries) {
      WeakLineHasEntry(entries, line);
    }
    if exists k :: 0 <= k < |entries| && entries[k].1 < 50 && line == WeakLine(entries[k]) {
      var k :| 0 <= k < |entries| && entries[k].1 < 50 && line == WeakLine(entries[k]);
      WeakEntryHasLine(entries, k);
    }
  }

  lemma {:induction false} WeakLineHasEntry(entries: seq<Entry>, line: string)
    requires line in WeakLines(entries)
    ensures exists k :: 0 <= k < |entries| && entries[k].1 < 50 && line == WeakLine(entries[k])
    decreases |entries|
  {
    var n := |entries| - 1;
    var init := entries[..n];
    if line in WeakLines(init) {
      WeakLineHasEntry(init, line);
      var k :| 0 <= k < |init| && init[k].1 < 50 && line == WeakLine(init[k]);
      assert entries[k] == init[k];
    } else {
      assert entries[n].1 < 50 && line == WeakLine(entries[n]);
    }
  }

  lemma {:induction false} WeakEntryHasLine(entries: seq<Entry>, k: nat)
    requires k < |entries| && entries[k].1 < 50
    ensures WeakLine(entries[k]) in WeakLines(entries)
    decreases |entries|
  {
    var n := |entries| - 1;
    if k < n {
      WeakEntryHasLine(entries[..n], k);
      assert entries[..n][k] == entries[k];
    }
  }

  /** No recommendation at all exactly when every score is at least 5.0 and the setup-punchline,
      incongruity and timing scores are at least 6.0. */
  lemma {:induction false} RecommendationsEmptyIff(entries: seq<Entry>)
    ensures Recommendations(entries) == [] <==>
      (forall k :: 0 <= k < |entries| ==> entries[k].1 >= 50)
      && Get(entries, Theory.SetupPunchline, 0) >= 60
      && Get(entries, Theory.Incongruity, 0) >= 60
      && Get(entries, Theory.Timing, 0) >= 60
  {
    var weak := WeakLines(entries);
    if forall k :: 0 <= k < |entries| ==> entries[k].1 >= 50 {
      if weak != [] {
        WeakLinesIff(entries, weak[0]);
      }
    } else {
      var k :| 0 <= k < |entries| && entries[k].1 < 50;
      WeakLinesIff(entries, WeakLine(entries[k]));
    }
  }

  /** The segment list is never empty; "General Audience" appears in it exactly when no rule
      fires, and then alone; each label appears exactly when its rule holds. */
  lemma {:induction false} SegmentsFacts(entries: seq<Entry>)
    ensures |Segments(entries)| > 0
    ensures GeneralAudience in Segments(entries) <==> SegmentRules(entries) == []
    ensures SegmentRules(entries) == [] ==> Segments(entries) == [GeneralAudience]
    ensures TechEnthusiasts in Segments(entries) <==> TechRule(entries)
    ensures EarlyAdopters in Segments(entries) <==> EarlyRule(entries)
    ensures CuriousNormies in Segments(entries) <==> NormiesRule(entries)
    ensures YoungDemographics in Segments(entries) <==> YoungRule(entries)
  {
    LabelsDistinct();
    var a := Tag(TechRule(entries), TechEnthusiasts);
    var b := Tag(EarlyRule(entries), EarlyAdopters);
    var c := Tag(NormiesRule(entries), CuriousNormies);
    var d := Tag(YoungRule(entries), YoungDemographics);
    assert SegmentRules(entries) == a + b + c + d;
    assert GeneralAudience !in a + b + c + d;
  }
}
