/** The request/response contract of the joke analyser (src/joke_analyser/models.py): the closed
    set of nine theories and the range-checked request and response records. Scores are held in
    tenths of a point. */
module Models {
  import opened Wrappers

  /** `TheoryType`: the nine humour theories, in declaration order. */
  datatype Theory =
    | SetupPunchline
    | Incongruity
    | SemanticShift
    | Timing
    | AbsurdEscalation
    | Psychoanalysis
    | Archetype
    | HumorAtoms
    | ReverseEngineering

  /** The enum's string value. */
  function TheoryValue(t: Theory): string {
    match t
    case SetupPunchline => "setup_punchline"
    case Incongruity => "incongruity"
    case SemanticShift => "semantic_shift"
    case Timing => "timing"
    case AbsurdEscalation => "absurd_escalation"
    case Psychoanalysis => "psychoanalysis"
    case Archetype => "archetype"
    case HumorAtoms => "humor_atoms"
    case ReverseEngineering => "reverse_engineering"
  }

  /** The members of `TheoryType` in declaration order. */
  const AllTheories: seq<Theory> := [
    SetupPunchline, Incongruity, SemanticShift, Timing, AbsurdEscalation,
    Psychoanalysis, Archetype, HumorAtoms, ReverseEngineering
  ]

  /** `TheoryType(s)`: lookup by value, `None` where Python raises `ValueError`. */
  function ParseTheory(s: string): Option<Theory> {
    if s == "setup_punchline" then Some(SetupPunchline)
    else if s == "incongruity" then Some(Incongruity)
    else if s == "semantic_shift" then Some(SemanticShift)
    else if s == "timing" then Some(Timing)
    else if s == "absurd_escalation" then Some(AbsurdEscalation)
    else if s == "psychoanalysis" then Some(Psychoanalysis)
    else if s == "archetype" then Some(Archetype)
    else if s == "humor_atoms" then Some(HumorAtoms)
    else if s == "reverse_engineering" then Some(ReverseEngineering)
    else None
  }

  /** Every theory appears exactly once among the nine members. */
  lemma {:induction false} TheoryEnumClosed(t: Theory)
    ensures |AllTheories| == 9 && t in AllTheories
    ensures forall i, j :: 0 <= i < j < |AllTheories| ==> AllTheories[i] != AllTheories[j]
  {
  }

  /** Value lookup inverts `.value` in both directions, so the nine string values are distinct. */
  lemma {:induction false} ParseTheoryInverse(t: Theory, s: string)
    ensures ParseTheory(TheoryValue(t)) == Some(t)
    ensures ParseTheory(s) == Some(t) ==> TheoryValue(t) == s
  {
  }

  /** Distinct theories have distinct values: the values differ in length or in their first
      letter. */
  lemma {:induction false} TheoryValueInjective(a: Theory, b: Theory)
    ensures TheoryValue(a) == TheoryValue(b) ==> a == b
  {
    if TheoryValue(a) == TheoryValue(b) {
      assert |TheoryValue(a)| == |TheoryValue(b)|;
      assert TheoryValue(a)[0] == TheoryValue(b)[0];
    }
  }

  /** The optional analysis context; every analyzer ignores it. */
  type Context = map<string, string>

  datatype ValidationError = TooShort | TooLong | ScoreOutOfRange | PercentOutOfRange

  /** `AnalyzeRequest`. */
  datatype AnalyzeRequest = AnalyzeRequest(jokeText: string, context: Option<Context>, persona: Option<string>)

  /** Pydantic validation of `AnalyzeRequest(joke_text=..., context=..., persona=...)`, with
      the field defaults of the source. */
  function MakeAnalyzeRequest(jokeText: string, context: Option<Context> := None,
                              persona: Option<string> := Some("waldus")): (r: Result<AnalyzeRequest, ValidationError>)
    ensures r.Success? <==> 5 <= |jokeText| <= 1000
    ensures r.Success? ==> r.value == AnalyzeRequest(jokeText, context, persona)
    ensures |jokeText| < 5 ==> r == Failure(TooShort)
  {
    if |jokeText| < 5 then Failure(TooShort)
    else if |jokeText| > 1000 then Failure(TooLong)
    else Success(AnalyzeRequest(jokeText, context, persona))
  }

  /** A request built from the text alone carries no context and the persona "waldus". */
  lemma {:induction false} RequestDefaults(jokeText: string)
    requires 5 <= |jokeText| <= 1000
    ensures MakeAnalyzeRequest(jokeText).Success?
    ensures MakeAnalyzeRequest(jokeText).value.context == None
    ensures MakeAnalyzeRequest(jokeText).value.persona == Some("waldus")
  {
  }

  /** `TheoryScore`; `score` in tenths. */
  datatype TheoryScore = TheoryScore(score: int, explanation: string, keyElements: seq<string>)

  function MakeTheoryScore(score: int, explanation: string, keyElements: seq<string> := []): (r: Result<TheoryScore, ValidationError>)
    ensures r.Success? <==> 0 <= score <= 100
    ensures r.Success? ==> r.value == TheoryScore(score, explanation, keyElements)
  {
    if 0 <= score <= 100 then Success(TheoryScore(score, explanation, keyElements))
    else Failure(ScoreOutOfRange)
  }

  /** `AnalyzeResponse`; `overallScore` in tenths, `reachEstimate` and `monetizationScore`
      are percentages. `theoryScores` is keyed by theory value. */
  datatype AnalyzeResponse = AnalyzeResponse(
    jokeText: string,
    theoryScores: map<string, TheoryScore>,
    dominantTheory: string,
    overallScore: int,
    reachEstimate: int,
    monetizationScore: int,
    recommendedImprovements: seq<string>,
    targetSegments: seq<string>)

  /** The field constraints pydantic enforces on `AnalyzeResponse`. */
  predicate ValidResponse(r: AnalyzeResponse) {
    && 0 <= r.overallScore <= 100
    && 0 <= r.reachEstimate <= 100
    && 0 <= r.monetizationScore <= 100
    && (forall k :: k in r.theoryScores ==> 0 <= r.theoryScores[k].score <= 100)
  }

  function MakeAnalyzeResponse(
    jokeText: string, theoryScores: map<string, TheoryScore>, dominantTheory: string,
    overallScore: int, reachEstimate: int, monetizationScore: int,
    recommendedImprovements: seq<string> := [], targetSegments: seq<string> := []): (r: Result<AnalyzeResponse, ValidationError>)
    requires forall k :: k in theoryScores ==> 0 <= theoryScores[k].score <= 100
    ensures r.Success? <==> 0 <= overallScore <= 100 && 0 <= reachEstimate <= 100 && 0 <= monetizationScore <= 100
    ensures r.Success? ==> ValidResponse(r.value)
    ensures r.Success? ==> r.value == AnalyzeResponse(jokeText, theoryScores, dominantTheory, overallScore,
                                                      reachEstimate, monetizationScore, recommendedImprovements, targetSegments)
  {
    if !(0 <= overallScore <= 100) then Failure(ScoreOutOfRange)
    else if !(0 <= reachEstimate <= 100 && 0 <= monetizationScore <= 100) then Failure(PercentOutOfRange)
    else Success(AnalyzeResponse(jokeText, theoryScores, dominantTheory, overallScore,
                                 reachEstimate, monetizationScore, recommendedImprovements, targetSegments))
  }
}
