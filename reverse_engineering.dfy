/** The reverse-engineering analyzer (src/joke_analyser/analyzers/reverse_engineering.py): which
    comic mechanisms a joke uses and whether its pattern could serve as a template. Scores are in
    tenths. */
module ReverseEngineering {
  import opened Text
  import opened Base

  /** One entry of `MECHANISMS`: the mechanism's name, its markers and its description. */
  datatype Mechanism = Mechanism(name: string, markers: seq<string>, description: string)

  const Mechanisms: seq<Mechanism> := [
    Mechanism("anthropomorphization", ["czuję", "myślę", "chcę", "boję się", "kocham", "nienawidzę"],
              "Antropomorfizacja (tech → human)"),
    Mechanism("everyday_frustration", ["znowu", "jak zwykle", "zawsze tak", "nigdy nie", "dlaczego"],
              "Frustracja codzienna"),
    Mechanism("absurd_transfer", ["jak", "jakby", "przypomina", "niczym", "jest jak"],
              "Absurdalne przeniesienie"),
    Mechanism("aggressive_tone", ["!", "kurczę", "cholera", "no nie", "serio"], "Agresywny ton"),
    Mechanism("rhetorical_question", ["?", "czy", "co ja", "co ty", "jak to"], "Pytanie retoryczne"),
    Mechanism("meta_commentary", ["czyli", "innymi słowy", "to znaczy", "wiem że"], "Meta-komentarz")
  ]

  const TemplateMarkers: seq<string> := ["{", "[", "<VARIABLE>", "<X>", "<Y>"]

  const ComplexTag := "Złożony wzorzec (3+ mechanizmy)"
  const ReplicableTag := "Replikowalny wzorzec"
  const NoneTag := "Brak wyraźnego mechanizmu"
  const Fallback := "Brak wyraźnego mechanizmu." + " Żart trudny do zreplikowania."

  /** How many distinct markers of `m` occur in `t`. */
  function MarkerCount(m: Mechanism, t: string): nat {
    CountIn(m.markers, t)
  }

  /** The mechanisms with at least one marker in `t`, in table order. */
  function FiredMechanisms(ms: seq<Mechanism>, t: string): (fired: seq<Mechanism>)
    ensures |fired| <= |ms|
    decreases |ms|
  {
    if ms == [] then []
    else
      var last := ms[|ms| - 1];
      FiredMechanisms(ms[..|ms| - 1], t) + if MarkerCount(last, t) > 0 then [last] else []
  }

  function Names(ms: seq<Mechanism>): (names: seq<string>)
    ensures |names| == |ms|
  {
    seq(|ms|, k requires 0 <= k < |ms| => ms[k].name)
  }

  function Descriptions(ms: seq<Mechanism>): (ds: seq<string>)
    ensures |ds| == |ms|
  {
    seq(|ms|, k requires 0 <= k < |ms| => ms[k].description)
  }

  /** 1.5 per marker found, summed over the mechanisms. */
  function MarkerScore(ms: seq<Mechanism>, t: string): nat
    decreases |ms|
  {
    if ms == [] then 0
    else MarkerScore(ms[..|ms| - 1], t) + 15 * MarkerCount(ms[|ms| - 1], t)
  }

  /** `_is_replicable`: at least two mechanisms, and a template marker or one of three mechanism
      pairs. */
  predicate IsReplicable(t: string, mechanisms: seq<string>) {
    |mechanisms| >= 2
    && (AnyIn(TemplateMarkers, t)
        || ("anthropomorphization" in mechanisms && "everyday_frustration" in mechanisms)
        || ("absurd_transfer" in mechanisms && "aggressive_tone" in mechanisms)
        || ("rhetorical_question" in mechanisms && "meta_commentary" in mechanisms))
  }

  /** The score before the cap: markers, the complexity and replicability bonuses, or exactly 2.0
      with no mechanism. */
  function RawScore(text: string): nat {
    var t := Lower(text);
    var fired := FiredMechanisms(Mechanisms, t);
    if |fired| == 0 then 20
    else MarkerScore(Mechanisms, t) + Pts(|fired| >= 3, 20) + Pts(IsReplicable(t, Names(fired)), 15)
  }

  function KeyElements(text: string): seq<string> {
    var t := Lower(text);
    var fired := FiredMechanisms(Mechanisms, t);
    Descriptions(fired) + Tag(|fired| >= 3, ComplexTag) + Tag(IsReplicable(t, Names(fired)), ReplicableTag)
    + Tag(|fired| == 0, NoneTag)
  }

  /** `_generate_explanation` */
  function Explanation(detected: seq<string>): (e: string)
    ensures |e| > 0
  {
    var n := |detected|;
    if n == 0 then Fallback
    else if n == 1 then "Jeden mechanizm: " + detected[0] + "."
    else if n == 2 then "Dwa mechanizmy: " + Join(detected, ", ") + ". Dobry punkt wyjścia."
    else "Złożony wzorzec (" + NatToString(n) + " mechanizmów): " + Join(detected[..3], ", ") + ". Łatwo replikowalny."
  }

  /** The result of `analyze` on `text`: `min(10, score)`. */
  function AnalysisOf(text: string): Analysis {
    var raw := RawScore(text);
    Analysis(if raw > 100 then 100 else raw,
             Explanation(Names(FiredMechanisms(Mechanisms, Lower(text)))),
             KeyElements(text))
  }

  /** The loop over `MECHANISMS`. */
  method DetectMechanisms(ms: seq<Mechanism>, t: string) returns (score: nat, detected: seq<string>, keyElements: seq<string>)
    ensures score == MarkerScore(ms, t)
    ensures detected == Names(FiredMechanisms(ms, t))
    ensures keyElements == Descriptions(FiredMechanisms(ms, t))
  {
    score, detected, keyElements := 0, [], [];
    ghost var fired: seq<Mechanism> := [];
    var i := 0;
    while i < |ms|
      invariant 0 <= i <= |ms|
      invariant score == MarkerScore(ms[..i], t)
      invariant fired == FiredMechanisms(ms[..i], t)
      invariant detected == Names(fired) && keyElements == Descriptions(fired)
    {
      assert ms[..i + 1][..i] == ms[..i];
      var count := CountIn(ms[i].markers, t);
      if count > 0 {
        ExtendFired(fired, ms[i]);
        fired := fired + [ms[i]];
        score := score + count * 15;
        detected := detected + [ms[i].name];
        keyElements := keyElements + [ms[i].description];
      } else {
        assert FiredMechanisms(ms[..i + 1], t) == fired + [];
        assert fired + [] == fired;
      }
      i := i + 1;
    }
    assert ms[..i] == ms;
  }

  /** Appending a fired mechanism appends its name and description. */
  lemma {:induction false} ExtendFired(before: seq<Mechanism>, m: Mechanism)
    ensures Names(before + [m]) == Names(before) + [m.name]
    ensures Descriptions(before + [m]) == Descriptions(before) + [m.description]
  {
  }

  /** `ReverseEngineeringAnalyzer.analyze` */
  method Analyze(text: string) returns (r: Analysis)
    ensures r == AnalysisOf(text)
    ensures ValidAnalysis(r)
  {
    var t := Lower(text);
    var score, detected, keyElements := DetectMechanisms(Mechanisms, t);
    ghost var fired := FiredMechanisms(Mechanisms, t);
    ghost var markerScore := score;
    if |detected| >= 3 {
      score := score + 20;
      keyElements := keyElements + [ComplexTag];
    }
    assert keyElements == Descriptions(fired) + Tag(|fired| >= 3, ComplexTag);
    if IsReplicable(t, detected) {
      score := score + 15;
      keyElements := keyElements + [ReplicableTag];
    }
    assert score == markerScore + Pts(|fired| >= 3, 20) + Pts(IsReplicable(t, Names(fired)), 15);
    assert keyElements == Descriptions(fired) + Tag(|fired| >= 3, ComplexTag) + Tag(IsReplicable(t, Names(fired)), ReplicableTag);
    if |detected| == 0 {
      score := 20;
      keyElements := keyElements + [NoneTag];
    }
    assert score == RawScore(text) && keyElements == KeyElements(text);
    if score > 100 {
      score := 100;
    }
    r := Analysis(score, Explanation(detected), keyElements);
  }

  /** A mechanism is reported exactly when it is a table entry with a marker in the text. */
  lemma {:induction false} FiredMechanismsIff(ms: seq<Mechanism>, t: string, m: Mechanism)
    ensures m in FiredMechanisms(ms, t) <==> m in ms && AnyIn(m.markers, t)
    decreases |ms|
  {
    if ms != [] {
      var init := ms[..|ms| - 1];
      FiredMechanismsIff(init, t, m);
      assert ms == init + [ms[|ms| - 1]];
    }
  }

  /** Every fired mechanism has a marker worth 1.5. */
  lemma {:induction false} MarkerScoreAtLeast(ms: seq<Mechanism>, t: string)
    ensures MarkerScore(ms, t) >= 15 * |FiredMechanisms(ms, t)|
    decreases |ms|
  {
    if ms != [] {
      MarkerScoreAtLeast(ms[..|ms| - 1], t);
    }
  }

  /** The score lies between 1.5 and 10; with no mechanism it is exactly 2.0. */
  lemma {:induction false} ScoreBounds(text: string)
    ensures 15 <= AnalysisOf(text).score <= 100
    ensures |FiredMechanisms(Mechanisms, Lower(text))| == 0 ==> AnalysisOf(text).score == 20
  {
    MarkerScoreAtLeast(Mechanisms, Lower(text));
  }

  /** Lower-casing leaves no ASCII capital letter. */
  lemma {:induction false} LowerHasNoCapitals(s: string)
    ensures forall i :: 0 <= i < |Lower(s)| ==> !('A' <= Lower(s)[i] <= 'Z')
  {
  }

  /** The template markers `<VARIABLE>`, `<X>` and `<Y>` are written in capitals and are searched
      in the lower-cased text, so only `{` and `[` can ever mark a template. */
  lemma {:induction false} TemplateMarkersInLowerText(text: string)
    ensures AnyIn(TemplateMarkers, Lower(text)) <==> '{' in Lower(text) || '[' in Lower(text)
  {
    var t := Lower(text);
    ContainsChar(t, '{');
    ContainsChar(t, '[');
    assert TemplateMarkers[0] == ['{'] && TemplateMarkers[1] == ['['];
    forall k | 2 <= k < |TemplateMarkers|
      ensures !Contains(t, TemplateMarkers[k])
    {
      var p := TemplateMarkers[k];
      ContainsIff(t, p);
      assert forall i :: OccursAt(t, p, i) ==> 'A' <= t[i + 1] <= 'Z' by {
        forall i | OccursAt(t, p, i) ensures t[i + 1] == p[1] {
          assert t[i..i + |p|][1] == p[1];
        }
      }
      LowerHasNoCapitals(text);
    }
  }

  /** "jakby" also contains "jak", so one "jakby" counts two markers of the absurd transfer. */
  lemma {:induction false} JakbyCountsTwice(t: string)
    requires Contains(t, "jakby")
    ensures MarkerCount(Mechanisms[2], t) >= 2
  {
    var markers := Mechanisms[2].markers;
    assert Contains("jakby", "jak") by {
      assert StartsWith("jakby", "jak");
    }
    ContainsTransitive(t, "jakby", "jak");
    assert markers[..2] == ["jak", "jakby"];
    assert CountIn(markers[..2], t) == 2 by {
      assert markers[..2][..1] == ["jak"];
    }
    CountInAppend(markers[..2], markers[2..], t);
    assert markers[..2] + markers[2..] == markers;
  }

  /** The explanation's first letter tells the bucket: none, one, two, or three and more. */
  lemma {:induction false} ExplanationBucket(detected: seq<string>)
    ensures Explanation(detected)[0] == 'B' <==> |detected| == 0
    ensures Explanation(detected)[0] == 'J' <==> |detected| == 1
    ensures Explanation(detected)[0] == 'D' <==> |detected| == 2
    ensures Explanation(detected)[0] == 'Z' <==> |detected| >= 3
  {
    assert Fallback[0] == 'B';
  }

  /** Whenever a mechanism was found, the explanation names the first one. */
  lemma {:induction false} ExplanationNamesFirst(detected: seq<string>)
    requires |detected| > 0
    ensures Contains(Explanation(detected), detected[0])
  {
    var n := |detected|;
    if n == 1 {
      assert Join(detected, ", ") == detected[0];
      NamesFirstPart("Jeden mechanizm: ", detected, ".");
    } else if n == 2 {
      NamesFirstPart("Dwa mechanizmy: ", detected, ". Dobry punkt wyjścia.");
    } else {
      NamesFirstPart("Złożony wzorzec (" + NatToString(n) + " mechanizmów): ", detected[..3], ". Łatwo replikowalny.");
    }
  }

  /** A list joined between a prefix and a suffix contains its first part. */
  lemma {:induction false} NamesFirstPart(prefix: string, parts: seq<string>, suffix: string)
    requires |parts| > 0
    ensures Contains(prefix + Join(parts, ", ") + suffix, parts[0])
  {
    var j := Join(parts, ", ");
    JoinStartsWith(parts, ", ");
    assert prefix + j + suffix == prefix + (j + suffix);
    assert (j + suffix)[..|parts[0]|] == j[..|parts[0]|];
    ContainsAfter(prefix, j + suffix, parts[0]);
  }
}
