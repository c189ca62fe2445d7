/** The chunking step of `translate_text` (src/translation/translate.py): a text longer than
    5000 characters is cut into sentences, which are packed greedily into chunks of at most 5000
    characters before each chunk is translated. */
module Translate {
  import opened Text

  const MaxChars := 5000

  /** `text.replace('. ', '.\n').replace('! ', '!\n').replace('? ', '?\n').split('\n')` */
  function Pieces(text: string): seq<string> {
    SplitOn(Replace(Replace(Replace(text, ". ", ".\n"), "! ", "!\n"), "? ", "?\n"), '\n')
  }

  /** `sentence[:MAX_CHARS]` */
  function Truncate(s: string): (r: string)
    ensures |r| <= MaxChars
    ensures |s| <= MaxChars ==> r == s
  {
    if |s| > MaxChars then s[..MaxChars] else s
  }

  /** The sentences the loop packs: each piece stripped, empty ones skipped, long ones cut. */
  function Processed(pieces: seq<string>): (sentences: seq<string>)
    ensures forall k :: 0 <= k < |sentences| ==> 0 < |sentences[k]| <= MaxChars
    decreases |pieces|
  {
    if pieces == [] then []
    else
      var s := Strip(pieces[|pieces| - 1]);
      Processed(pieces[..|pieces| - 1]) + if s == "" then [] else [Truncate(s)]
  }

  /** The loop's state: the finished chunks and `current_chunk`. */
  datatype Packing = Packing(chunks: seq<string>, current: string)

  /** One iteration for a non-empty sentence `s`. */
  function Step(p: Packing, s: string): Packing {
    if |p.current| + |s| + 1 <= MaxChars then
      Packing(p.chunks, if p.current != "" then p.current + " " + s else s)
    else
      Packing(if p.current != "" then p.chunks + [p.current] else p.chunks, s)
  }

  /** The state after the loop has packed `sentences`. */
  function Pack(sentences: seq<string>): Packing
    decreases |sentences|
  {
    if sentences == [] then Packing([], "")
    else Step(Pack(sentences[..|sentences| - 1]), sentences[|sentences| - 1])
  }

  /** The chunks with the last `current_chunk` appended when it is not empty. */
  function Flush(p: Packing): seq<string> {
    if p.current != "" then p.chunks + [p.current] else p.chunks
  }

  function Chunks(sentences: seq<string>): seq<string> {
    Flush(Pack(sentences))
  }

  /** What gets translated: the chunks of a long text, the text itself otherwise. */
  function TranslationUnits(text: string): seq<string> {
    if |text| > MaxChars then Chunks(Processed(Pieces(text))) else [text]
  }

  /** The chunking loop of `translate_text`. */
  method SplitIntoChunks(text: string) returns (chunks: seq<string>)
    ensures chunks == Chunks(Processed(Pieces(text)))
  {
    chunks := PackPieces(Pieces(text));
  }

  /** The loop over the pieces: strip, skip the empty ones, cut, and pack greedily. */
  method PackPieces(pieces: seq<string>) returns (chunks: seq<string>)
    ensures chunks == Chunks(Processed(pieces))
  {
    chunks := [];
    var current := "";
    for i := 0 to |pieces|
      invariant Packing(chunks, current) == Pack(Processed(pieces[..i]))
    {
      ProcessedNext(pieces, i);
      var sentence := Strip(pieces[i]);
      if sentence != "" {
        if |sentence| > MaxChars {
          sentence := sentence[..MaxChars];
        }
        assert sentence == Truncate(Strip(pieces[i]));
        assert Processed(pieces[..i + 1]) == Processed(pieces[..i]) + [sentence];
        PackNext(Processed(pieces[..i]), sentence);
        ghost var next := Step(Packing(chunks, current), sentence);
        if |current| + |sentence| + 1 <= MaxChars {
          if current != "" {
            current := current + " " + sentence;
          } else {
            current := sentence;
          }
        } else {
          if current != "" {
            chunks := chunks + [current];
          }
          current := sentence;
        }
        assert Packing(chunks, current) == next;
      } else {
        assert Processed(pieces[..i + 1]) == Processed(pieces[..i]) + [];
        assert Processed(pieces[..i]) + [] == Processed(pieces[..i]);
      }
    }
    assert pieces[..|pieces|] == pieces;
    if current != "" {
      chunks := chunks + [current];
    }
  }

  lemma {:induction false} ProcessedNext(pieces: seq<string>, i: nat)
    requires i < |pieces|
    ensures Processed(pieces[..i + 1]) ==
      Processed(pieces[..i]) + if Strip(pieces[i]) == "" then [] else [Truncate(Strip(pieces[i]))]
  {
    assert pieces[..i + 1][..i] == pieces[..i];
  }

  lemma {:induction false} PackNext(sentences: seq<string>, s: string)
    ensures Pack(sentences + [s]) == Step(Pack(sentences), s)
  {
    assert (sentences + [s])[..|sentences|] == sentences;
  }

  /** What the packing keeps true: `current_chunk` is empty only before the first sentence,
      every chunk and `current_chunk` fit, no chunk could have taken the start of the next one,
      and the chunks joined with spaces are the sentences joined with spaces. */
  ghost predicate Packed(p: Packing, sentences: seq<string>) {
    && (p.current == "" <==> sentences == [])
    && (p.current == "" ==> p.chunks == [])
    && |p.current| <= MaxChars
    && (forall k :: 0 <= k < |p.chunks| ==> 0 < |p.chunks[k]| <= MaxChars)
    && (forall k :: 0 <= k < |Flush(p)| - 1 ==> |Flush(p)[k]| + 1 + |Flush(p)[k + 1]| > MaxChars)
    && Join(Flush(p), " ") == Join(sentences, " ")
  }

  lemma {:induction false} PackIsPacked(sentences: seq<string>)
    requires forall k :: 0 <= k < |sentences| ==> 0 < |sentences[k]| <= MaxChars
    ensures Packed(Pack(sentences), sentences)
    decreases |sentences|
  {
    if sentences != [] {
      var init := sentences[..|sentences| - 1];
      var s := sentences[|sentences| - 1];
      assert init + [s] == sentences;
      PackNext(init, s);
      PackIsPacked(init);
      StepKeepsPacked(Pack(init), init, s);
    }
  }

  lemma {:induction false} StepKeepsPacked(p: Packing, sentences: seq<string>, s: string)
    requires Packed(p, sentences)
    requires 0 < |s| <= MaxChars
    ensures Packed(Step(p, s), sentences + [s])
  {
    if p.current == "" {
      FirstSentencePacked(p, sentences, s);
    } else if |p.current| + |s| + 1 <= MaxChars {
      MergeKeepsPacked(p, sentences, s);
    } else {
      StartKeepsPacked(p, sentences, s);
    }
  }

  /** The first sentence becomes `current_chunk`. */
  lemma {:induction false} FirstSentencePacked(p: Packing, sentences: seq<string>, s: string)
    requires Packed(p, sentences) && p.current == ""
    requires 0 < |s| <= MaxChars
    ensures Packed(Step(p, s), sentences + [s])
  {
    assert sentences + [s] == [s];
    assert Step(p, s) == Packing([], s);
    assert Flush(Step(p, s)) == [s];
  }

  /** A sentence that fits is appended to `current_chunk` after a space. */
  lemma {:induction false} MergeKeepsPacked(p: Packing, sentences: seq<string>, s: string)
    requires Packed(p, sentences) && p.current != ""
    requires 0 < |s| <= MaxChars && |p.current| + |s| + 1 <= MaxChars
    ensures Packed(Step(p, s), sentences + [s])
  {
    var q := Step(p, s);
    var merged := p.current + " " + s;
    assert q == Packing(p.chunks, merged);
    assert Flush(p) == p.chunks + [p.current];
    assert Flush(q) == p.chunks + [merged];
    MergeJoin(p.chunks, p.current, s, sentences);
    forall k | 0 <= k < |Flush(q)| - 1
      ensures |Flush(q)[k]| + 1 + |Flush(q)[k + 1]| > MaxChars
    {
      assert Flush(q)[k] == Flush(p)[k];
      if k + 1 < |Flush(q)| - 1 {
        assert Flush(q)[k + 1] == Flush(p)[k + 1];
      } else {
        assert |Flush(q)[k + 1]| > |Flush(p)[k + 1]|;
      }
    }
  }

  /** Merging the next sentence into `current_chunk` keeps the joined text. */
  lemma {:induction false} MergeJoin(chunks: seq<string>, current: string, s: string, sentences: seq<string>)
    requires sentences != []
    requires Join(chunks + [current], " ") == Join(sentences, " ")
    ensures Join(chunks + [current + " " + s], " ") == Join(sentences + [s], " ")
  {
    JoinAppend(sentences, s, " ");
    JoinAppend(chunks, current, " ");
    JoinAppend(chunks, current + " " + s, " ");
    if chunks != [] {
      assert Join(chunks, " ") + " " + (current + " " + s) == (Join(chunks, " ") + " " + current) + " " + s;
    }
  }

  /** A sentence that does not fit closes `current_chunk` and starts a new one. */
  lemma {:induction false} StartKeepsPacked(p: Packing, sentences: seq<string>, s: string)
    requires Packed(p, sentences) && p.current != ""
    requires 0 < |s| <= MaxChars && |p.current| + |s| + 1 > MaxChars
    ensures Packed(Step(p, s), sentences + [s])
  {
    var q := Step(p, s);
    assert q == Packing(p.chunks + [p.current], s);
    assert Flush(p) == p.chunks + [p.current];
    assert Flush(q) == Flush(p) + [s];
    JoinAppend(sentences, s, " ");
    JoinAppend(Flush(p), s, " ");
    forall k | 0 <= k < |Flush(q)| - 1
      ensures |Flush(q)[k]| + 1 + |Flush(q)[k + 1]| > MaxChars
    {
      assert Flush(q)[k] == Flush(p)[k];
      if k + 1 < |Flush(q)| - 1 {
        assert Flush(q)[k + 1] == Flush(p)[k + 1];
      }
    }
  }

  /** Every chunk of a long text is non-empty and at most 5000 characters long; the chunks joined
      with spaces are the processed sentences joined with spaces, so nothing is lost or
      reordered; and a new chunk is started only when the next sentence would not fit, so no two
      neighbouring chunks would fit together. */
  lemma {:induction false} ChunksFacts(text: string)
    ensures forall k :: 0 <= k < |Chunks(Processed(Pieces(text)))| ==> 0 < |Chunks(Processed(Pieces(text)))[k]| <= MaxChars
    ensures Join(Chunks(Processed(Pieces(text))), " ") == Join(Processed(Pieces(text)), " ")
    ensures forall k :: 0 <= k < |Chunks(Processed(Pieces(text)))| - 1 ==>
      |Chunks(Processed(Pieces(text)))[k]| + 1 + |Chunks(Processed(Pieces(text)))[k + 1]| > MaxChars
  {
    ChunksOfSentences(Processed(Pieces(text)));
  }

  lemma {:induction false} ChunksOfSentences(sentences: seq<string>)
    requires forall k :: 0 <= k < |sentences| ==> 0 < |sentences[k]| <= MaxChars
    ensures forall k :: 0 <= k < |Chunks(sentences)| ==> 0 < |Chunks(sentences)[k]| <= MaxChars
    ensures Join(Chunks(sentences), " ") == Join(sentences, " ")
    ensures forall k :: 0 <= k < |Chunks(sentences)| - 1 ==>
      |Chunks(sentences)[k]| + 1 + |Chunks(sentences)[k + 1]| > MaxChars
  {
    PackIsPacked(sentences);
  }

  /** A text of at most 5000 characters is translated whole. */
  lemma {:induction false} ShortTextIsOneUnit(text: string)
    requires |text| <= MaxChars
    ensures TranslationUnits(text) == [text]
  {
  }
}
