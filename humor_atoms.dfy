/** The humor-atoms analyzer (src/joke_analyser/analyzers/humor_atoms.py): seven micro-components
    of a joke, each found through its own markers and weighted. Scores are in tenths. */
module HumorAtoms {
  import opened Text
  import opened Base

  /** One entry of `HUMOR_ATOMS`: the atom's name, its markers and its weight in tenths. */
  datatype Atom = Atom(name: string, markers: seq<string>, weight: nat)

  const HumorAtoms: seq<Atom> := [
    Atom("hyperbole", ["nigdy", "zawsze", "wszystko", "nic", "wieczność", "milion", "nieskończenie"], 10),
    Atom("contrast", ["ale", "jednak", "z drugiej strony", "natomiast", "przeciwnie"], 15),
    Atom("anticlimax", ["okazuje się", "w rzeczywistości", "niestety", "niespodziewanie"], 15),
    Atom("self_deprecation", ["głupi", "idiota", "debil", "nieudacznik", "fail", "porażka"], 12),
    Atom("sarcasm", ["oczywiście", "naturalnie", "jak zwykle", "pewnie", "tradycyjnie"], 18),
    Atom("absurd_syntax", ["???", "!?", "...?!", "!!!"], 10),
    Atom("register_shift", ["kurczę", "cholera", "ziomek", "stary", "koles"], 15)
  ]

  const MixTag := "Mix wielu atomów"
  const NoneTag := "Brak wykrytych atomów"
  const Fallback := "Brak wykrytych atomów" + " humorystycznych."

  /** How many distinct markers of `a` occur in `t`. */
  function AtomCount(a: Atom, t: string): nat {
    CountIn(a.markers, t)
  }

  /** The atoms with at least one marker in `t`, in table order. */
  function FiredAtoms(atoms: seq<Atom>, t: string): (fired: seq<Atom>)
    ensures |fired| <= |atoms|
    decreases |atoms|
  {
    if atoms == [] then []
    else
      var last := atoms[|atoms| - 1];
      FiredAtoms(atoms[..|atoms| - 1], t) + if AtomCount(last, t) > 0 then [last] else []
  }

  function Names(atoms: seq<Atom>): (names: seq<string>)
    ensures |names| == |atoms|
  {
    seq(|atoms|, k requires 0 <= k < |atoms| => atoms[k].name)
  }

  /** `f"{atom_name}: {count}x"` */
  function AtomElement(a: Atom, t: string): string {
    a.name + ": " + NatToString(AtomCount(a, t)) + "x"
  }

  /** The count-times-weight sum over the atoms: an atom with no marker adds nothing. */
  function AtomScore(atoms: seq<Atom>, t: string): nat
    decreases |atoms|
  {
    if atoms == [] then 0
    else
      var last := atoms[|atoms| - 1];
      AtomScore(atoms[..|atoms| - 1], t) + AtomCount(last, t) * last.weight
  }

  /** One key element per fired atom, in table order. */
  function AtomElements(atoms: seq<Atom>, t: string): seq<string>
    decreases |atoms|
  {
    if atoms == [] then []
    else
      var last := atoms[|atoms| - 1];
      AtomElements(atoms[..|atoms| - 1], t) + Tag(AtomCount(last, t) > 0, AtomElement(last, t))
  }

  /** The score before the cap: the atoms' sum plus the mix bonus, or exactly 1.0 with no atom. */
  function RawScore(text: string): nat {
    var t := Lower(text);
    var n := |FiredAtoms(HumorAtoms, t)|;
    if n == 0 then 10 else AtomScore(HumorAtoms, t) + Pts(n >= 3, 15)
  }

  function KeyElements(text: string): seq<string> {
    var t := Lower(text);
    var n := |FiredAtoms(HumorAtoms, t)|;
    AtomElements(HumorAtoms, t) + Tag(n >= 3, MixTag) + Tag(n == 0, NoneTag)
  }

  /** `_generate_explanation` */
  function Explanation(detected: seq<string>): (e: string)
    ensures |e| > 0
  {
    var n := |detected|;
    if n == 0 then Fallback
    else if n == 1 then "Jeden atom: " + detected[0] + "."
    else if n == 2 then "Dwa atomy: " + Join(detected, ", ") + "."
    else "Mix " + NatToString(n) + " atomów: " + Join(detected[..3], ", ") + "..."
  }

  /** The result of `analyze` on `text`: `min(10, score)`. */
  function AnalysisOf(text: string): Analysis {
    var raw := RawScore(text);
    Analysis(if raw > 100 then 100 else raw,
             Explanation(Names(FiredAtoms(HumorAtoms, Lower(text)))),
             KeyElements(text))
  }

  /** The loop over `HUMOR_ATOMS`. */
  method DetectAtoms(atoms: seq<Atom>, t: string) returns (score: nat, detected: seq<string>, keyElements: seq<string>)
    ensures score == AtomScore(atoms, t)
    ensures detected == Names(FiredAtoms(atoms, t))
    ensures keyElements == AtomElements(atoms, t)
  {
    score, detected, keyElements := 0, [], [];
    var i := 0;
    while i < |atoms|
      invariant 0 <= i <= |atoms|
      invariant score == AtomScore(atoms[..i], t)
      invariant detected == Names(FiredAtoms(atoms[..i], t))
      invariant keyElements == AtomElements(atoms[..i], t)
    {
      assert atoms[..i + 1][..i] == atoms[..i];
      var count := CountIn(atoms[i].markers, t);
      if count > 0 {
        score := score + count * atoms[i].weight;
        detected := detected + [atoms[i].name];
        keyElements := keyElements + [atoms[i].name + ": " + NatToString(count) + "x"];
      } else {
        assert FiredAtoms(atoms[..i + 1], t) == FiredAtoms(atoms[..i], t);
      }
      i := i + 1;
    }
    assert atoms[..i] == atoms;
  }

  /** `HumorAtomsAnalyzer.analyze` */
  method Analyze(text: string) returns (r: Analysis)
    ensures r == AnalysisOf(text)
    ensures ValidAnalysis(r)
  {
    var t := Lower(text);
    var score, detected, keyElements := DetectAtoms(HumorAtoms, t);
    if |detected| >= 3 {
      score := score + 15;
      keyElements := keyElements + [MixTag];
    }
    if |detected| == 0 {
      score := 10;
      keyElements := keyElements + [NoneTag];
    }
    if score > 100 {
      score := 100;
    }
    r := Analysis(score, Explanation(detected), keyElements);
  }

  /** An atom is reported exactly when it is a table entry with a marker in the text. */
  lemma {:induction false} FiredAtomsIff(atoms: seq<Atom>, t: string, a: Atom)
    ensures a in FiredAtoms(atoms, t) <==> a in atoms && AnyIn(a.markers, t)
    decreases |atoms|
  {
    if atoms != [] {
      var init := atoms[..|atoms| - 1];
      FiredAtomsIff(init, t, a);
      assert atoms == init + [atoms[|atoms| - 1]];
    }
  }

  /** Every fired atom contributes at least its weight, so with weights of at least 1.0 the sum
      is at least 1.0 per fired atom. */
  lemma {:induction false} AtomScoreAtLeast(atoms: seq<Atom>, t: string)
    requires forall a :: a in atoms ==> a.weight >= 10
    ensures AtomScore(atoms, t) >= 10 * |FiredAtoms(atoms, t)|
    decreases |atoms|
  {
    if atoms != [] {
      var init := atoms[..|atoms| - 1];
      assert forall a :: a in init ==> a in atoms;
      AtomScoreAtLeast(init, t);
    }
  }

  /** The score always lies between 1.0 and 10. */
  lemma {:induction false} ScoreBounds(text: string)
    ensures 10 <= AnalysisOf(text).score <= 100
  {
    AtomScoreAtLeast(HumorAtoms, Lower(text));
  }

  /** The explanation's first letter tells the bucket: none, one, two, or a mix of three or more. */
  lemma {:induction false} ExplanationBucket(detected: seq<string>)
    ensures Explanation(detected)[0] == 'B' <==> |detected| == 0
    ensures Explanation(detected)[0] == 'J' <==> |detected| == 1
    ensures Explanation(detected)[0] == 'D' <==> |detected| == 2
    ensures Explanation(detected)[0] == 'M' <==> |detected| >= 3
  {
    assert Fallback[0] == 'B';
  }

  /** Whenever an atom was found, the explanation names the first one. */
  lemma {:induction false} ExplanationNamesFirst(detected: seq<string>)
    requires |detected| > 0
    ensures Contains(Explanation(detected), detected[0])
  {
    var n := |detected|;
    if n == 1 {
      assert Explanation(detected) == "Jeden atom: " + (detected[0] + ".");
      ContainsAfter("Jeden atom: ", detected[0] + ".", detected[0]);
    } else if n == 2 {
      JoinStartsWith(detected, ", ");
      var j := Join(detected, ", ");
      assert Explanation(detected) == "Dwa atomy: " + (j + ".");
      assert (j + ".")[..|detected[0]|] == j[..|detected[0]|];
      ContainsAfter("Dwa atomy: ", j + ".", detected[0]);
    } else {
      JoinStartsWith(detected[..3], ", ");
      var j := Join(detected[..3], ", ");
      var prefix := "Mix " + NatToString(n) + " atomów: ";
      assert Explanation(detected) == prefix + (j + "...");
      assert (j + "...")[..|detected[0]|] == j[..|detected[0]|];
      ContainsAfter(prefix, j + "...", detected[0]);
    }
  }
}
