/** String primitives the analyzers rely on, stated as Python's `str` methods behave:
    `in` (substring search), `str.count` (non-overlapping), `str.strip()`, `str.split()`,
    `str.split(sep)`, `str.replace`, `str.lower()` and `f"{n}"` for integers. */
module Text {

  /** Python's `str.isspace()` character set. */
  predicate IsSpace(c: char) {
    c == ' ' || ('\t' <= c <= '\r') || ('\U{1C}' <= c <= '\U{1F}') || c == '\U{85}' || c == '\U{A0}'
    || c == '\U{1680}' || ('\U{2000}' <= c <= '\U{200A}') || c == '\U{2028}' || c == '\U{2029}'
    || c == '\U{202F}' || c == '\U{205F}' || c == '\U{3000}'
  }

  /** `str.lower()` on ASCII letters and the Polish capital letters; other characters are unchanged. */
  function LowerChar(c: char): char {
    if 'A' <= c <= 'Z' then (c as int + 32) as char
    else match c
      case 'Ą' => 'ą'
      case 'Ć' => 'ć'
      case 'Ę' => 'ę'
      case 'Ł' => 'ł'
      case 'Ń' => 'ń'
      case 'Ó' => 'ó'
      case 'Ś' => 'ś'
      case 'Ź' => 'ź'
      case 'Ż' => 'ż'
      case _ => c
  }

  predicate IsUpperChar(c: char) {
    ('A' <= c <= 'Z') || c in "ĄĆĘŁŃÓŚŹŻ"
  }

  predicate IsLowerChar(c: char) {
    ('a' <= c <= 'z') || c in "ąćęłńóśźż"
  }

  function Lower(s: string): (r: string)
    ensures |r| == |s|
  {
    seq(|s|, i requires 0 <= i < |s| => LowerChar(s[i]))
  }

  lemma {:induction false} LowerIdempotent(s: string)
    ensures Lower(Lower(s)) == Lower(s)
  {
    forall i | 0 <= i < |s| ensures Lower(Lower(s))[i] == Lower(s)[i] {
      var c := s[i];
      if 'A' <= c <= 'Z' {
        assert LowerChar(c) == (c as int + 32) as char;
      }
    }
  }

  /** `s.startswith(p)` */
  predicate StartsWith(s: string, p: string) {
    |p| <= |s| && s[..|p|] == p
  }

  /** `p` occurs in `s` at index `i`. */
  ghost predicate OccursAt(s: string, p: string, i: int) {
    0 <= i && i + |p| <= |s| && s[i..i + |p|] == p
  }

  /** Python's `p in s` for strings: a left-to-right scan for `p`. */
  predicate Contains(s: string, p: string)
    decreases |s|
  {
    StartsWith(s, p) || (|s| > 0 && Contains(s[1..], p))
  }

  /** The scan finds `p` exactly when `p` occurs at some index of `s`. */
  lemma {:induction false} ContainsIff(s: string, p: string)
    ensures Contains(s, p) <==> exists i :: OccursAt(s, p, i)
    decreases |s|
  {
    if StartsWith(s, p) {
      assert OccursAt(s, p, 0);
    } else if |s| > 0 {
      ContainsIff(s[1..], p);
      if Contains(s[1..], p) {
        var i :| OccursAt(s[1..], p, i);
        assert s[1..][i..i + |p|] == s[i + 1..i + 1 + |p|];
        assert OccursAt(s, p, i + 1);
      }
      if i :| OccursAt(s, p, i) {
        assert i != 0;
        assert s[1..][i - 1..i - 1 + |p|] == s[i..i + |p|];
        assert OccursAt(s[1..], p, i - 1);
      }
    }
  }

  /** A substring of a substring is a substring. */
  lemma {:induction false} ContainsTransitive(s: string, p: string, q: string)
    requires Contains(s, p) && Contains(p, q)
    ensures Contains(s, q)
  {
    ContainsIff(s, p);
    ContainsIff(p, q);
    ContainsIff(s, q);
    var i :| OccursAt(s, p, i);
    var j :| OccursAt(p, q, j);
    forall k | 0 <= k < |q|
      ensures s[i + j..i + j + |q|][k] == q[k]
    {
      assert s[i + j + k] == s[i..i + |p|][j + k] == p[j + k] == p[j..j + |q|][k];
    }
    assert s[i + j..i + j + |q|] == q;
    assert OccursAt(s, q, i + j);
  }

  /** A pattern that opens `b` is found in any `a + b`. */
  lemma {:induction false} ContainsAfter(a: string, b: string, p: string)
    requires StartsWith(b, p)
    ensures Contains(a + b, p)
  {
    assert (a + b)[|a|..|a| + |p|] == b[..|p|];
    assert OccursAt(a + b, p, |a|);
    ContainsIff(a + b, p);
  }

  /** For a one-character pattern, substring search is membership. */
  lemma {:induction false} ContainsChar(s: string, c: char)
    ensures Contains(s, [c]) <==> c in s
    decreases |s|
  {
    if |s| > 0 {
      ContainsChar(s[1..], c);
      assert s == [s[0]] + s[1..];
    }
  }

  /** Python's `s.count(p)` for a non-empty `p`: occurrences found scanning left to right,
      each match skipping past itself, so occurrences never overlap. */
  function Count(s: string, p: string): nat
    requires |p| > 0
    decreases |s|
  {
    if |s| < |p| then 0
    else if StartsWith(s, p) then 1 + Count(s[|p|..], p)
    else Count(s[1..], p)
  }

  /** Counting one character counts its occurrences. */
  lemma {:induction false} CountChar(s: string, c: char)
    ensures Count(s, [c]) == multiset(s)[c]
    decreases |s|
  {
    if |s| > 0 {
      CountChar(s[1..], c);
      assert s == [s[0]] + s[1..];
      assert multiset(s) == multiset{s[0]} + multiset(s[1..]);
    }
  }

  /** `s.count(p) > 0` exactly when `p in s`. */
  lemma {:induction false} CountPositiveIff(s: string, p: string)
    requires |p| > 0
    ensures Count(s, p) > 0 <==> Contains(s, p)
    decreases |s|
  {
    if |s| < |p| {
      NoLongerContained(s, p);
    } else if !StartsWith(s, p) {
      CountPositiveIff(s[1..], p);
    }
  }

  lemma {:induction false} NoLongerContained(s: string, p: string)
    requires |s| < |p|
    ensures !Contains(s, p)
    decreases |s|
  {
    if |s| > 0 {
      NoLongerContained(s[1..], p);
    }
  }

  /** The number of whitespace characters `str.lstrip()` removes. */
  function LeadingSpace(s: string): (k: nat)
    ensures k <= |s|
    ensures forall i :: 0 <= i < k ==> IsSpace(s[i])
    ensures k < |s| ==> !IsSpace(s[k])
    decreases |s|
  {
    if |s| > 0 && IsSpace(s[0]) then 1 + LeadingSpace(s[1..]) else 0
  }

  /** The length `str.rstrip()` keeps. */
  function TrailingStart(s: string): (k: nat)
    ensures k <= |s|
    ensures forall i :: k <= i < |s| ==> IsSpace(s[i])
    ensures k > 0 ==> !IsSpace(s[k - 1])
    decreases |s|
  {
    if |s| > 0 && IsSpace(s[|s| - 1]) then TrailingStart(s[..|s| - 1]) else |s|
  }

  /** Python's `s.lstrip()`. */
  function StripLeft(s: string): (r: string) {
    s[LeadingSpace(s)..]
  }

  /** Python's `s.rstrip()`. */
  function StripRight(s: string): (r: string) {
    s[..TrailingStart(s)]
  }

  /** Python's `s.strip()`. */
  function Strip(s: string): (r: string)
    ensures |r| <= |s|
  {
    StripRight(StripLeft(s))
  }

  ghost predicate AllSpace(s: string) {
    forall i :: 0 <= i < |s| ==> IsSpace(s[i])
  }

  /** `s.lstrip()` is empty exactly for whitespace-only text, and otherwise opens with a
      non-whitespace character. */
  lemma {:induction false} StripLeftFacts(s: string)
    ensures StripLeft(s) == "" <==> AllSpace(s)
    ensures StripLeft(s) != "" ==> !IsSpace(StripLeft(s)[0])
  {
    var k := LeadingSpace(s);
    if k < |s| {
      assert !IsSpace(s[k]);
      assert StripLeft(s)[0] == s[k];
    }
  }

  /** `s.strip()` is empty exactly for whitespace-only text; otherwise it is a slice of `s`
      that begins and ends with a non-whitespace character. */
  lemma {:induction false} StripFacts(s: string)
    ensures Strip(s) == "" <==> AllSpace(s)
    ensures Strip(s) != "" ==> !IsSpace(Strip(s)[0]) && !IsSpace(Strip(s)[|Strip(s)| - 1])
    ensures exists i, j :: 0 <= i <= j <= |s| && Strip(s) == s[i..j]
  {
    var k := LeadingSpace(s);
    var l := s[k..];
    var m := TrailingStart(l);
    assert Strip(s) == s[k..k + m];
    if m > 0 {
      assert Strip(s)[0] == s[k];
      assert Strip(s)[m - 1] == l[m - 1];
    }
  }

  lemma {:induction false} AllSpaceSplit(s: string, k: nat)
    requires k <= |s| && AllSpace(s[..k])
    ensures AllSpace(s) <==> AllSpace(s[k..])
  {
    if AllSpace(s[k..]) {
      forall i | 0 <= i < |s| ensures IsSpace(s[i]) {
        if i < k { assert s[i] == s[..k][i]; } else { assert s[i] == s[k..][i - k]; }
      }
    }
  }

  /** Index of the first character satisfying `IsSpace`, or `|s|`. */
  function FirstSpace(s: string): (k: nat)
    ensures k <= |s|
    ensures forall i :: 0 <= i < k ==> !IsSpace(s[i])
    ensures k < |s| ==> IsSpace(s[k])
    decreases |s|
  {
    if |s| == 0 || IsSpace(s[0]) then 0 else 1 + FirstSpace(s[1..])
  }

  /** Python's `s.split()`: the maximal runs of non-whitespace characters. */
  function Words(s: string): (ws: seq<string>)
    decreases |s|
  {
    var t := StripLeft(s);
    if t == "" then []
    else
      var k := FirstSpace(t);
      [t[..k]] + Words(t[k..])
  }

  /** Every word of `str.split()` is non-empty and holds no whitespace; there are none
      exactly when the text is whitespace only. */
  lemma {:induction false} WordsFacts(s: string)
    ensures Words(s) == [] <==> AllSpace(s)
    ensures forall w :: w in Words(s) ==> w != "" && forall i :: 0 <= i < |w| ==> !IsSpace(w[i])
    decreases |s|
  {
    var t := StripLeft(s);
    StripLeftFacts(s);
    if t != "" {
      var k := FirstSpace(t);
      WordsFacts(t[k..]);
      assert Words(s) == [t[..k]] + Words(t[k..]);
      forall w | w in Words(s)
        ensures w != "" && forall i :: 0 <= i < |w| ==> !IsSpace(w[i])
      {
        if w != t[..k] {
          assert w in Words(t[k..]);
        }
      }
    }
  }

  /** Index of the first occurrence of `c`, or `|s|`. */
  function IndexOf(s: string, c: char): (k: nat)
    ensures k <= |s|
    ensures c !in s[..k]
    ensures k < |s| ==> s[k] == c
    decreases |s|
  {
    if |s| == 0 then 0
    else if s[0] == c then 0
    else
      var k := 1 + IndexOf(s[1..], c);
      assert s[..k] == [s[0]] + s[1..][..k - 1];
      k
  }

  /** Python's `s.split(c)` for a one-character separator: every occurrence cuts, empty
      pieces are kept. */
  function SplitOn(s: string, c: char): (parts: seq<string>)
    ensures |parts| >= 1
    ensures c in s ==> |parts| >= 2
    decreases |s|
  {
    var k := IndexOf(s, c);
    if k == |s| then
      assert s[..k] == s;
      [s]
    else [s[..k]] + SplitOn(s[k + 1..], c)
  }

  /** Python's `sep.join(parts)`. */
  function Join(parts: seq<string>, sep: string): string
  {
    if |parts| == 0 then ""
    else if |parts| == 1 then parts[0]
    else parts[0] + sep + Join(parts[1..], sep)
  }

  /** Appending a part to a join adds the separator and the part. */
  lemma {:induction false} JoinAppend(parts: seq<string>, last: string, sep: string)
    ensures Join(parts + [last], sep) == if parts == [] then last else Join(parts, sep) + sep + last
    decreases |parts|
  {
    if |parts| > 1 {
      JoinAppend(parts[1..], last, sep);
      assert (parts + [last])[1..] == parts[1..] + [last];
    } else if |parts| == 1 {
      assert (parts + [last])[1..] == [last];
    }
  }

  /** Three parts joined. */
  lemma {:induction false} JoinThree(a: string, b: string, c: string, sep: string)
    ensures Join([a, b, c], sep) == a + sep + b + sep + c
  {
    assert [a, b, c][1..] == [b, c];
    assert [b, c][1..] == [c];
    assert Join([b, c], sep) == b + sep + c;
    assert a + sep + (b + sep + c) == a + sep + b + sep + c;
  }

  /** A join opens with its first part. */
  lemma {:induction false} JoinStartsWith(parts: seq<string>, sep: string)
    requires |parts| > 0
    ensures StartsWith(Join(parts, sep), parts[0])
  {
    if |parts| > 1 {
      assert Join(parts, sep) == parts[0] + (sep + Join(parts[1..], sep));
    }
  }

  /** `str.split(c)` is undone by `c.join`, and no piece holds the separator. */
  lemma {:induction false} SplitOnJoin(s: string, c: char)
    ensures Join(SplitOn(s, c), [c]) == s
    ensures forall p :: p in SplitOn(s, c) ==> c !in p
    decreases |s|
  {
    var k := IndexOf(s, c);
    if k == |s| {
      assert s[..k] == s;
    } else {
      SplitOnJoin(s[k + 1..], c);
      assert s == s[..k] + [c] + s[k + 1..];
    }
  }

  /** Python's `s.replace(pat, rep)` for a non-empty `pat`: left-to-right, non-overlapping. */
  function Replace(s: string, pat: string, rep: string): string
    requires |pat| > 0
    decreases |s|
  {
    if |s| < |pat| then s
    else if StartsWith(s, pat) then rep + Replace(s[|pat|..], pat, rep)
    else [s[0]] + Replace(s[1..], pat, rep)
  }

  function DigitChar(d: nat): (c: char)
    requires d < 10
    ensures '0' <= c <= '9'
  {
    ('0' as int + d) as char
  }

  /** `f"{n}"` for a non-negative Python int. */
  function NatToString(n: nat): (r: string)
    ensures |r| > 0 && forall i :: 0 <= i < |r| ==> '0' <= r[i] <= '9'
    decreases n
  {
    if n < 10 then [DigitChar(n)] else NatToString(n / 10) + [DigitChar(n % 10)]
  }

  /** `f"{x}"` for a non-negative Python float whose value is `t` tenths, as `round(x, 1)`
      leaves it: its shortest repr has exactly one decimal digit. */
  function TenthsToString(t: nat): string
  {
    NatToString(t / 10) + "." + [DigitChar(t % 10)]
  }

  /** `f" {s} "`: the padding the analyzers put around text and markers so that a marker only
      matches as a whole space-delimited phrase. */
  function Padded(s: string): string
  {
    " " + s + " "
  }

  /** `any(m in s for m in markers)` */
  predicate AnyIn(markers: seq<string>, s: string) {
    exists i :: 0 <= i < |markers| && Contains(s, markers[i])
  }

  /** `sum(1 for m in markers if m in s)`: repeated markers count once per listing. */
  function CountIn(markers: seq<string>, s: string): (n: nat)
    ensures n <= |markers|
    ensures n > 0 <==> AnyIn(markers, s)
    decreases |markers|
  {
    if markers == [] then 0
    else
      var init := markers[..|markers| - 1];
      var rest := CountIn(init, s);
      assert forall i :: 0 <= i < |init| ==> init[i] == markers[i];
      rest + if Contains(s, markers[|markers| - 1]) then 1 else 0
  }

  /** Counting over two marker lists laid end to end adds their counts. */
  lemma {:induction false} CountInAppend(a: seq<string>, b: seq<string>, s: string)
    ensures CountIn(a + b, s) == CountIn(a, s) + CountIn(b, s)
    decreases |b|
  {
    if b != [] {
      var b' := b[..|b| - 1];
      CountInAppend(a, b', s);
      assert (a + b)[..|a + b| - 1] == a + b';
    } else {
      assert a + b == a;
    }
  }

  /** `any(f' {m} ' in f' {s} ' for m in markers)` */
  predicate AnyPhrase(markers: seq<string>, s: string) {
    exists i :: 0 <= i < |markers| && Contains(Padded(s), Padded(markers[i]))
  }

  /** `sum(1 for m in markers if f' {m} ' in f' {s} ')` */
  function CountPhrases(markers: seq<string>, s: string): (n: nat)
    ensures n <= |markers|
    ensures n > 0 <==> AnyPhrase(markers, s)
    decreases |markers|
  {
    if markers == [] then 0
    else
      var init := markers[..|markers| - 1];
      var rest := CountPhrases(init, s);
      assert forall i :: 0 <= i < |init| ==> init[i] == markers[i];
      rest + if Contains(Padded(s), Padded(markers[|markers| - 1])) then 1 else 0
  }
}
