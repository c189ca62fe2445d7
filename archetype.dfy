/** The archetype analyzer (src/joke_analyser/analyzers/archetype.py): universal comic
    archetypes, Polish cultural archetypes, the "Waldus" archetype (nihilist plus technology) and
    a consistency adjustment. Its contributions are multiples of 0.25, so the score is kept in
    hundredths and rounded half-to-even to tenths at the end, as `round(score, 1)` does. */
module Archetype {
  import opened Text
  import opened Base

  /** One entry of `ARCHETYPES`; `half` is `score_base * 0.5` in hundredths. */
  datatype Universal = Universal(name: string, markers: seq<string>, half: nat, description: string)

  /** One entry of `POLISH_ARCHETYPES`. */
  datatype PolishGroup = PolishGroup(name: string, markers: seq<string>)

  const Archetypes: seq<Universal> := [
    Universal("trickster", ["oszukać", "nabrać", "podpuścić", "wykiwać", "sprytnie"], 350, "Podstępny żartowniś"),
    Universal("cynic", ["oczywiście", "naturalnie", "jak zwykle", "tradycyjnie", "pewnie"], 400, "Sarkastyczny cynik"),
    Universal("jester", ["hehehe", "haha", "hehe", "ups", "ojej", "ale numer"], 300, "Wesołek/błazen"),
    Universal("philosopher", ["właściwie", "w istocie", "de facto", "ontologicznie", "metafizycznie"], 375, "Filozofujący mędrzec"),
    Universal("victim", ["znowu", "zawsze ja", "dlaczego ja", "moje życie", "pech"], 350, "Ofiara losu"),
    Universal("nihilist", ["bez sensu", "nicość", "pustka", "wszystko jedno", "co za różnica"], 450, "Nihilista (Walduś style)"),
    Universal("rebel", ["nie będę", "odmawiam", "nie chce mi się", "mam to gdzieś"], 375, "Buntownik")
  ]

  const PolishArchetypes: seq<PolishGroup> := [
    PolishGroup("wujek ze Śląska", ["wujek", "śląsk", "ślązak", "hasiok", "piwo"]),
    PolishGroup("teściowa", ["teściowa", "teść", "żona matka"]),
    PolishGroup("janusz", ["janusz", "grażyna", "działka", "majsterkować"]),
    PolishGroup("student", ["sesja", "egzamin", "zaliczenie", "wykład", "indeks"])
  ]

  const NihilistMarkers: seq<string> := ["nicość", "pustka", "bez sensu", "wszystko jedno"]
  const TechMarkers: seq<string> := ["api", "request", "server", "kod", "cyfrowy"]

  const PolishTag := "Polski archetyp"

  /** The universal archetypes with a marker in `t`, in table order. */
  function FiredArchetypes(archs: seq<Universal>, t: string): (fired: seq<Universal>)
    ensures |fired| <= |archs|
    decreases |archs|
  {
    if archs == [] then []
    else
      var last := archs[|archs| - 1];
      FiredArchetypes(archs[..|archs| - 1], t) + if AnyIn(last.markers, t) then [last] else []
  }

  /** The Polish groups with a marker in `t`, in table order. */
  function FiredGroups(groups: seq<PolishGroup>, t: string): (fired: seq<PolishGroup>)
    ensures |fired| <= |groups|
    decreases |groups|
  {
    if groups == [] then []
    else
      var last := groups[|groups| - 1];
      FiredGroups(groups[..|groups| - 1], t) + if AnyIn(last.markers, t) then [last] else []
  }

  /** The summed contributions of some archetypes, in hundredths. */
  function HalfSum(archs: seq<Universal>): nat
    decreases |archs|
  {
    if archs == [] then 0 else HalfSum(archs[..|archs| - 1]) + archs[|archs| - 1].half
  }

  function Names(archs: seq<Universal>): (r: seq<string>)
    ensures |r| == |archs|
  {
    seq(|archs|, k requires 0 <= k < |archs| => archs[k].name)
  }

  /** `f"Archetyp: {description}"` */
  function ArchetypeElement(a: Universal): string {
    "Archetyp: " + a.description
  }

  function ArchetypeElements(archs: seq<Universal>): (r: seq<string>)
    ensures |r| == |archs|
  {
    seq(|archs|, k requires 0 <= k < |archs| => ArchetypeElement(archs[k]))
  }

  /** `f"Polski archetyp: {name}"` */
  function GroupElement(g: PolishGroup): string {
    PolishTag + ": " + g.name
  }

  function GroupElements(groups: seq<PolishGroup>): (r: seq<string>)
    ensures |r| == |groups|
  {
    seq(|groups|, k requires 0 <= k < |groups| => GroupElement(groups[k]))
  }

  /** `_is_waldus_archetype` */
  predicate IsWaldusArchetype(t: string) {
    AnyIn(NihilistMarkers, t) && AnyIn(TechMarkers, t)
  }

  /** Step 4: +1.0 for exactly one universal archetype, −0.5 for more than two. */
  function Consistency(n: nat): int {
    if n == 1 then 100 else if n > 2 then -50 else 0
  }

  function ConsistencyElements(n: nat): seq<string> {
    if n == 1 then ["Spójny archetyp"] else if n > 2 then ["Za dużo archetypów (niespójność)"] else []
  }

  /** `sum(1 for el in key_elements if 'Polski archetyp' in el)` */
  function PolishCount(elements: seq<string>): nat
    decreases |elements|
  {
    if elements == [] then 0
    else PolishCount(elements[..|elements| - 1]) + if Contains(elements[|elements| - 1], PolishTag) then 1 else 0
  }

  /** `_generate_explanation` */
  function Explanation(detected: seq<string>, keyElements: seq<string>): string {
    var polish := PolishCount(keyElements);
    var first :=
      if |detected| == 0 then "Brak wyraźnego archetypu."
      else if |detected| == 1 then "Spójny archetyp: " + detected[0] + "."
      else "Mix archetypów: " + Join(detected, ", ") + ".";
    Join([first] + Tag(polish > 0, "Użyto " + NatToString(polish) + " polskich archetypów (relatable)."), " ")
  }

  /** The score in hundredths before the cap. */
  function RawHundredths(text: string): int {
    var t := Lower(text);
    var fired := FiredArchetypes(Archetypes, t);
    HalfSum(fired) + 250 * |FiredGroups(PolishArchetypes, t)| + Pts(IsWaldusArchetype(t), 200)
    + Consistency(|fired|)
  }

  function KeyElements(text: string): seq<string> {
    var t := Lower(text);
    var fired := FiredArchetypes(Archetypes, t);
    ArchetypeElements(fired) + GroupElements(FiredGroups(PolishArchetypes, t))
    + Tag(IsWaldusArchetype(t), "Archetyp Waldus (nihilist + tech)") + ConsistencyElements(|fired|)
  }

  /** `round(x, 1)` on a non-negative number given in hundredths: to the nearest tenth, ties to
      the even tenth. */
  function RoundHalfEven(h: nat): (tenths: nat)
    ensures -5 <= 10 * tenths - h <= 5
    ensures 10 * tenths - h == 5 ==> tenths % 2 == 0
    ensures 10 * tenths - h == -5 ==> tenths % 2 == 0
  {
    var q := h / 10;
    var r := h % 10;
    if r < 5 then q else if r > 5 then q + 1 else if q % 2 == 0 then q else q + 1
  }

  /** The result of `analyze` on `text`: `round(min(10, score), 1)`. */
  function AnalysisOf(text: string): Analysis {
    var t := Lower(text);
    var raw := RawHundredths(text);
    var capped := if raw > 1000 then 1000 else if raw < 0 then 0 else raw;
    Analysis(RoundHalfEven(capped),
             Explanation(Names(FiredArchetypes(Archetypes, t)), KeyElements(text)),
             KeyElements(text))
  }

  /** Step 1 of `analyze`: the loop over `ARCHETYPES`. */
  method DetectUniversal(archs: seq<Universal>, t: string) returns (score: int, detected: seq<string>, keyElements: seq<string>)
    ensures score == HalfSum(FiredArchetypes(archs, t))
    ensures detected == Names(FiredArchetypes(archs, t))
    ensures keyElements == ArchetypeElements(FiredArchetypes(archs, t))
  {
    score := 0;
    detected := [];
    keyElements := [];
    ghost var fired: seq<Universal> := [];
    var i := 0;
    while i < |archs|
      invariant 0 <= i <= |archs|
      invariant fired == FiredArchetypes(archs[..i], t)
      invariant score == HalfSum(fired) && detected == Names(fired) && keyElements == ArchetypeElements(fired)
    {
      FiredStep(archs, t, i);
      var a := archs[i];
      if AnyIn(a.markers, t) {
        ExtendFired(fired, a);
        fired := fired + [a];
        score := score + a.half;
        detected := detected + [a.name];
        keyElements := keyElements + [ArchetypeElement(a)];
      }
      i := i + 1;
    }
    assert archs[..i] == archs;
  }

  /** One more table entry adds itself to the fired archetypes exactly when a marker is found. */
  lemma {:induction false} FiredStep(archs: seq<Universal>, t: string, i: nat)
    requires i < |archs|
    ensures AnyIn(archs[i].markers, t) ==> FiredArchetypes(archs[..i + 1], t) == FiredArchetypes(archs[..i], t) + [archs[i]]
    ensures !AnyIn(archs[i].markers, t) ==> FiredArchetypes(archs[..i + 1], t) == FiredArchetypes(archs[..i], t)
  {
    assert archs[..i + 1][..i] == archs[..i];
    assert FiredArchetypes(archs[..i], t) + [] == FiredArchetypes(archs[..i], t);
  }

  /** Appending a fired archetype appends its contribution, name and key element. */
  lemma {:induction false} ExtendFired(before: seq<Universal>, a: Universal)
    ensures HalfSum(before + [a]) == HalfSum(before) + a.half
    ensures Names(before + [a]) == Names(before) + [a.name]
    ensures ArchetypeElements(before + [a]) == ArchetypeElements(before) + [ArchetypeElement(a)]
  {
    assert (before + [a])[..|before|] == before;
  }

  /** Step 2 of `analyze`: the loop over `POLISH_ARCHETYPES`. */
  method DetectPolish(groups: seq<PolishGroup>, t: string) returns (score: int, keyElements: seq<string>)
    ensures score == 250 * |FiredGroups(groups, t)|
    ensures keyElements == GroupElements(FiredGroups(groups, t))
  {
    score := 0;
    keyElements := [];
    var i := 0;
    while i < |groups|
      invariant 0 <= i <= |groups|
      invariant score == 250 * |FiredGroups(groups[..i], t)|
      invariant keyElements == GroupElements(FiredGroups(groups[..i], t))
    {
      assert groups[..i + 1][..i] == groups[..i];
      ghost var before := FiredGroups(groups[..i], t);
      if AnyIn(groups[i].markers, t) {
        score := score + 250;
        keyElements := keyElements + [GroupElement(groups[i])];
        assert FiredGroups(groups[..i + 1], t) == before + [groups[i]];
      } else {
        assert FiredGroups(groups[..i + 1], t) == before;
      }
      i := i + 1;
    }
    assert groups[..i] == groups;
  }

  /** `ArchetypeAnalyzer.analyze` */
  method Analyze(text: string) returns (r: Analysis)
    ensures r == AnalysisOf(text)
    ensures ValidAnalysis(r)
  {
    var t := Lower(text);
    var score, detected, keyElements := DetectUniversal(Archetypes, t);
    var polishScore, polishElements := DetectPolish(PolishArchetypes, t);
    var waldusScore, waldusElements := DetectWaldus(t);
    var consistencyScore, consistencyElements := CheckConsistency(|detected|);
    score := score + polishScore + waldusScore + consistencyScore;
    keyElements := keyElements + polishElements + waldusElements + consistencyElements;
    assert |detected| == |FiredArchetypes(Archetypes, t)|;
    NeverNegative(text);
    if score > 1000 {
      score := 1000;
    }
    r := Analysis(RoundHalfEven(score), Explanation(detected, keyElements), keyElements);
  }

  /** Step 3 of `analyze`: the nihilist-plus-tech Waldus bonus. */
  method DetectWaldus(t: string) returns (score: int, keyElements: seq<string>)
    ensures score == Pts(IsWaldusArchetype(t), 200)
    ensures keyElements == Tag(IsWaldusArchetype(t), "Archetyp Waldus (nihilist + tech)")
  {
    score, keyElements := 0, [];
    if IsWaldusArchetype(t) {
      score := 200;
      keyElements := ["Archetyp Waldus (nihilist + tech)"];
    }
  }

  /** Step 4 of `analyze`: one universal archetype is consistent, more than two are not. */
  method CheckConsistency(n: nat) returns (score: int, keyElements: seq<string>)
    ensures score == Consistency(n)
    ensures keyElements == ConsistencyElements(n)
  {
    score, keyElements := 0, [];
    if n == 1 {
      score := 100;
      keyElements := ["Spójny archetyp"];
    } else if n > 2 {
      score := -50;
      keyElements := ["Za dużo archetypów (niespójność)"];
    }
  }

  /** Every universal archetype is worth at least 3.0, so the −0.5 for more than two of them
      never takes the score below zero. */
  lemma {:induction false} NeverNegative(text: string)
    ensures RawHundredths(text) >= 0
  {
    var fired := FiredArchetypes(Archetypes, Lower(text));
    FiredArchetypesIff(Archetypes, Lower(text));
    HalfSumAtLeast(fired);
  }

  /** An archetype is recorded exactly when it is a table entry with a marker in the text. */
  lemma {:induction false} FiredArchetypesIff(archs: seq<Universal>, t: string)
    ensures forall a :: a in FiredArchetypes(archs, t) <==> a in archs && AnyIn(a.markers, t)
    decreases |archs|
  {
    if archs != [] {
      var init := archs[..|archs| - 1];
      FiredArchetypesIff(init, t);
      assert archs == init + [archs[|archs| - 1]];
    }
  }

  /** Archetypes worth at least 3.0 each sum to at least 3.0 times their number. */
  lemma {:induction false} HalfSumAtLeast(archs: seq<Universal>)
    requires forall a :: a in archs ==> a in Archetypes
    ensures HalfSum(archs) >= 300 * |archs|
    decreases |archs|
  {
    if archs != [] {
      HalfSumAtLeast(archs[..|archs| - 1]);
      assert archs[|archs| - 1] in archs;
    }
  }

  /** Python's `round` on the ties this analyzer produces: 4.75 becomes 4.8 and 6.25 becomes 6.2. */
  lemma {:induction false} RoundingTies()
    ensures RoundHalfEven(475) == 48
    ensures RoundHalfEven(625) == 62
  {
  }

  /** The explanation's Polish count is the number of Polish groups found: no other key element
      carries the "Polski archetyp" tag. */
  lemma {:induction false} PolishCountIsGroupCount(text: string)
    ensures PolishCount(KeyElements(text)) == |FiredGroups(PolishArchetypes, Lower(text))|
  {
    var t := Lower(text);
    var fired := FiredArchetypes(Archetypes, t);
    FiredArchetypesIff(Archetypes, t);
    UniversalElementsUntagged(fired);
    WaldusUncounted(IsWaldusArchetype(t));
    ConsistencyUncounted(|fired|);
    PolishCountOfParts(ArchetypeElements(fired), FiredGroups(PolishArchetypes, t),
      Tag(IsWaldusArchetype(t), "Archetyp Waldus (nihilist + tech)"), ConsistencyElements(|fired|));
  }

  /** Key elements made of untagged parts around the group elements count exactly the groups. */
  lemma {:induction false} PolishCountOfParts(before: seq<string>, groups: seq<PolishGroup>, waldus: seq<string>, consistency: seq<string>)
    requires forall x :: x in before ==> !Contains(x, PolishTag)
    requires PolishCount(waldus) == 0 && PolishCount(consistency) == 0
    ensures PolishCount(before + GroupElements(groups) + waldus + consistency) == |groups|
  {
    var g := GroupElements(groups);
    PolishCountNone(before);
    PolishCountAll(groups);
    PolishCountAppend(before, g);
    PolishCountAppend(before + g, waldus);
    PolishCountAppend(before + g + waldus, consistency);
  }

  /** The key element of step 3 holds no upper-case 'P', so it is not counted as Polish. */
  lemma {:induction false} WaldusUncounted(waldus: bool)
    ensures PolishCount(Tag(waldus, "Archetyp Waldus (nihilist + tech)")) == 0
  {
    if waldus {
      SingleUncounted("Archetyp Waldus (nihilist + tech)");
    }
  }

  /** The key elements of step 4 hold no upper-case 'P', so neither is counted as Polish. */
  lemma {:induction false} ConsistencyUncounted(n: nat)
    ensures PolishCount(ConsistencyElements(n)) == 0
  {
    if n == 1 {
      SingleUncounted("Spójny archetyp");
    } else if n > 2 {
      SingleUncounted("Za dużo archetypów (niespójność)");
    }
  }

  lemma {:induction false} SingleUncounted(x: string)
    requires 'P' !in x
    ensures PolishCount([x]) == 0
  {
    TagChars(x);
    assert [x][..0] == [];
  }

  /** No key element of a universal archetype carries the Polish tag. */
  lemma {:induction false} UniversalElementsUntagged(archs: seq<Universal>)
    requires forall u :: u in archs ==> u in Archetypes
    ensures forall x :: x in ArchetypeElements(archs) ==> !Contains(x, PolishTag)
  {
    var a := ArchetypeElements(archs);
    forall x | x in a ensures !Contains(x, PolishTag) {
      var k :| 0 <= k < |a| && a[k] == x;
      assert archs[k] in archs;
      var j :| 0 <= j < |Archetypes| && Archetypes[j] == archs[k];
      DescriptionLacksTagLetter(j);
      ElementUntagged(Archetypes[j].description);
    }
  }

  /** The universal descriptions, as written in the table, each lack an upper-case 'P' or a
      lower-case 'l'. */
  lemma {:induction false} FirstDescriptionLetters()
    ensures 'l' !in "Podstępny żartowniś"
    ensures 'P' !in "Sarkastyczny cynik"
    ensures 'P' !in "Wesołek/błazen"
  {
  }

  lemma {:induction false} OtherDescriptionLetters()
    ensures 'P' !in "Filozofujący mędrzec"
    ensures 'P' !in "Ofiara losu"
    ensures 'P' !in "Nihilista (Walduś style)"
    ensures 'P' !in "Buntownik"
  {
  }

  /** Each universal description lacks an upper-case 'P' or a lower-case 'l'. */
  lemma {:induction false} DescriptionLacksTagLetter(j: nat)
    requires j < |Archetypes|
    ensures 'P' !in Archetypes[j].description || 'l' !in Archetypes[j].description
  {
    FirstDescriptionLetters();
    OtherDescriptionLetters();
    if j == 0 {
      assert Archetypes[j].description == "Podstępny żartowniś";
    } else if j == 1 {
      assert Archetypes[j].description == "Sarkastyczny cynik";
    } else if j == 2 {
      assert Archetypes[j].description == "Wesołek/błazen";
    } else if j == 3 {
      assert Archetypes[j].description == "Filozofujący mędrzec";
    } else if j == 4 {
      assert Archetypes[j].description == "Ofiara losu";
    } else if j == 5 {
      assert Archetypes[j].description == "Nihilista (Walduś style)";
    } else {
      assert Archetypes[j].description == "Buntownik";
    }
  }

  /** A universal key element whose description lacks 'P' or 'l' does not carry the Polish tag. */
  lemma {:induction false} ElementUntagged(d: string)
    requires 'P' !in d || 'l' !in d
    ensures !Contains("Archetyp: " + d, PolishTag)
  {
    TagChars("Archetyp: " + d);
    assert forall c :: c in "Archetyp: " + d ==> c in "Archetyp: " || c in d;
  }

  /** A string holding the Polish tag holds an upper-case 'P' and a lower-case 'l', so one
      lacking either cannot be counted. */
  lemma {:induction false} TagChars(x: string)
    ensures Contains(x, PolishTag) ==> 'P' in x && 'l' in x
  {
    if Contains(x, PolishTag) {
      ContainsIff(x, PolishTag);
      var i :| OccursAt(x, PolishTag, i);
      assert x[i] == PolishTag[0];
      assert x[i + 2] == PolishTag[2];
    }
  }

  lemma {:induction false} PolishCountNone(xs: seq<string>)
    requires forall x :: x in xs ==> !Contains(x, PolishTag)
    ensures PolishCount(xs) == 0
    decreases |xs|
  {
    if xs != [] {
      PolishCountNone(xs[..|xs| - 1]);
      assert xs[|xs| - 1] in xs;
    }
  }

  lemma {:induction false} PolishCountAll(groups: seq<PolishGroup>)
    ensures PolishCount(GroupElements(groups)) == |groups|
    decreases |groups|
  {
    if groups != [] {
      var init := groups[..|groups| - 1];
      PolishCountAll(init);
      var es := GroupElements(groups);
      assert es[..|es| - 1] == GroupElements(init);
      assert StartsWith(es[|es| - 1], PolishTag);
    }
  }

  lemma {:induction false} PolishCountAppend(xs: seq<string>, ys: seq<string>)
    ensures PolishCount(xs + ys) == PolishCount(xs) + PolishCount(ys)
    decreases |ys|
  {
    if ys == [] {
      assert xs + ys == xs;
    } else {
      PolishCountAppend(xs, ys[..|ys| - 1]);
      assert (xs + ys)[..|xs + ys| - 1] == xs + ys[..|ys| - 1];
    }
  }
}
