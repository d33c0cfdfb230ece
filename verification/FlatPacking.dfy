/** The flat splitter's grouping: line ends, paragraphs, and that no two neighbouring chunks would have fitted into
    one. */
module FlatPacking {
  import opened Common
  import opened Text
  import opened HierarchicalChunking
  import opened Chunking
  import opened ChunkingOffsets

  // ---- Line ends ----

  predicate HasPair(s: string) { exists i :: 0 <= i < |s| - 1 && s[i] == '\r' && s[i + 1] == '\n' }

  /** A text without the pair stays as it is. */
  lemma {:induction false} UnifyKeeps(s: string)
    requires !HasPair(s)
    ensures Unify(s) == s
  {
    if s != "" {
      assert |s| >= 2 ==> !(s[0] == '\r' && s[1] == '\n');
      forall i | 0 <= i < |s[1..]| - 1 ensures !(s[1..][i] == '\r' && s[1..][i + 1] == '\n') {
        assert !(s[i + 1] == '\r' && s[i + 2] == '\n');
      }
      UnifyKeeps(s[1..]);
    }
  }

  lemma UnifyPair(s: string, rest: string)
    requires s == ['\r', '\n'] + rest
    ensures Unify(s) == ['\n'] + Unify(rest)
  {
    assert s[2..] == rest;
  }

  lemma UnifyOne(s: string, rest: string)
    requires s != "" && rest == s[1..] && !(|s| >= 2 && s[0] == '\r' && s[1] == '\n')
    ensures Unify(s) == [s[0]] + Unify(rest)
  {
  }

  lemma FirstMoves(first: string, a: string, b: string, c: string)
    ensures first + (a + b + c) == first + a + b + c
  {
  }

  /** Every pair, wherever it is, becomes one line feed. With `UnifyKeeps` this determines the result. */
  lemma {:induction false} UnifyReplaces(s: string, t: string, whole: string)
    requires whole == s + ['\r', '\n'] + t
    ensures Unify(whole) == Unify(s) + ['\n'] + Unify(t)
    decreases |s|
  {
    if s == "" {
      UnifyPair(whole, t);
    } else if |s| >= 2 && s[0] == '\r' && s[1] == '\n' {
      var rest := s[2..] + ['\r', '\n'] + t;
      assert whole == ['\r', '\n'] + rest && s == ['\r', '\n'] + s[2..];
      UnifyReplaces(s[2..], t, rest);
      UnifyPair(whole, rest);
      UnifyPair(s, s[2..]);
      FirstMoves(['\n'], Unify(s[2..]), ['\n'], Unify(t));
    } else {
      var rest := s[1..] + ['\r', '\n'] + t;
      assert whole[1..] == rest;
      UnifyReplaces(s[1..], t, rest);
      UnifyOne(whole, rest);
      UnifyOne(s, s[1..]);
      FirstMoves([s[0]], Unify(s[1..]), ['\n'], Unify(t));
    }
  }

  // ---- Paragraphs ----

  predicate BlankAt(s: string, i: int) { 0 <= i < |s| - 1 && s[i] == '\n' && s[i + 1] == '\n' }

  lemma {:induction false} BlankIsFirst(s: string, i: nat, k: nat)
    requires i <= |s| && i <= k < FindBlank(s, i)
    ensures !BlankAt(s, k)
    decreases |s| - i
  {
    if i < k {
      BlankIsFirst(s, i + 1, k);
    }
  }

  lemma StripIsPart(s: string, from: nat, to: nat) returns (i: nat, j: nat)
    requires from <= to <= |s| && Strip(s[from..to]) != ""
    ensures from <= i <= j <= to && Strip(s[from..to]) == s[i..j]
  {
    var raw := s[from..to];
    var a, b := SkipSpace(raw, 0), BackSpace(raw, |raw|);
    i, j := from + a, from + b;
    SliceOfSlice(s, from, to, a, b);
  }

  lemma FirstIsSolid(s: string, blank: nat, i: int)
    requires blank == FindBlank(s, 0) && Strip(s[0..blank]) != ""
    ensures !BlankAt(Strip(s[0..blank]), i)
  {
    var a, b := StripIsPart(s, 0, blank);
    if BlankAt(s[a..b], i) {
      assert s[a + i] == s[a..b][i] && s[a + i + 1] == s[a..b][i + 1];
      BlankIsFirst(s, 0, a + i);
      assert BlankAt(s, a + i);
    }
  }

  lemma SplitUnrolls(s: string, blank: nat, first: string, rest: seq<string>)
    requires blank == FindBlank(s, 0) && first == Strip(s[0..blank])
    requires rest == if blank == |s| then [] else SplitParagraphs(s[blank + 2..])
    ensures SplitParagraphs(s) == (if first == "" then [] else [first]) + rest
  {
    assert s[..blank] == s[0..blank];
  }

  /** No paragraph has a blank line inside. */
  lemma {:induction false} ParagraphsAreSolid(s: string, p: string, i: int)
    requires p in SplitParagraphs(s)
    ensures !BlankAt(p, i)
    decreases |s|
  {
    var blank := FindBlank(s, 0);
    var first := Strip(s[0..blank]);
    var rest := if blank == |s| then [] else SplitParagraphs(s[blank + 2..]);
    SplitUnrolls(s, blank, first, rest);
    if p == first && first != "" {
      FirstIsSolid(s, blank, i);
    } else {
      assert p in rest;
      ParagraphsAreSolid(s[blank + 2..], p, i);
    }
  }

  // ---- Greedy packing ----

  /** The chunk is a piece of a paragraph that is longer than the size. */
  predicate PieceOf(p: string, chunk: string, size: nat, i: nat, j: nat) {
    |p| > size && i <= j <= |p| && chunk == p[i..j]
  }

  ghost predicate OfLarge(paragraphs: seq<string>, chunk: string, size: nat) {
    exists k: nat, i: nat, j: nat :: k < |paragraphs| && PieceOf(paragraphs[k], chunk, size, i, j)
  }

  ghost predicate ApartAt(paragraphs: seq<string>, size: nat, chunks: seq<string>, k: nat)
    requires k + 1 < |chunks|
  {
    || |chunks[k]| + 2 + |chunks[k + 1]| > size
    || OfLarge(paragraphs, chunks[k], size) || OfLarge(paragraphs, chunks[k + 1], size)
  }

  ghost predicate Greedy(paragraphs: seq<string>, size: nat, chunks: seq<string>) {
    forall k: nat {:trigger ApartAt(paragraphs, size, chunks, k)} :: k + 1 < |chunks| ==>
      ApartAt(paragraphs, size, chunks, k)
  }

  /** The current text would not have fitted into the last chunk. */
  ghost predicate Waits(paragraphs: seq<string>, size: nat, f: Flat) {
    && Greedy(paragraphs, size, f.chunks)
    && (f.chunks != [] ==>
          var last := f.chunks[|f.chunks| - 1];
          OfLarge(paragraphs, last, size) || (f.current != "" && |last| + 2 + |f.current| > size))
  }

  lemma GreedyMore(paragraphs: seq<string>, size: nat, chunks: seq<string>, c: string)
    requires Greedy(paragraphs, size, chunks)
    requires chunks != [] ==> OfLarge(paragraphs, c, size) || OfLarge(paragraphs, chunks[|chunks| - 1], size)
                              || |chunks[|chunks| - 1]| + 2 + |c| > size
    ensures Greedy(paragraphs, size, chunks + [c])
  {
    var more := chunks + [c];
    forall k: nat {:trigger ApartAt(paragraphs, size, more, k)} | k + 1 < |more|
      ensures ApartAt(paragraphs, size, more, k) {
      assert k + 1 < |chunks| ==> ApartAt(paragraphs, size, chunks, k);
    }
  }

  lemma FlushGreedy(paragraphs: seq<string>, size: nat, f: Flat)
    requires Waits(paragraphs, size, f)
    ensures Greedy(paragraphs, size, FlushFlat(f).chunks)
  {
    if f.current != "" {
      GreedyMore(paragraphs, size, f.chunks, f.current);
    }
  }

  lemma {:induction false} PiecesAreParts(s: string, size: nat, cuts: seq<Span>, m: nat)
    returns (i: nat, j: nat)
    requires |s| > size && AllWithin(cuts, s) && m < |PiecesOf(s, cuts)|
    ensures PieceOf(s, PiecesOf(s, cuts)[m], size, i, j)
  {
    var init, last := cuts[..|cuts| - 1], cuts[|cuts| - 1];
    if m < |PiecesOf(s, init)| {
      i, j := PiecesAreParts(s, size, init, m);
    } else {
      i, j := StripIsPart(s, last.from, last.to);
    }
  }

  ghost predicate AllOfLarge(paragraphs: seq<string>, size: nat, pieces: seq<string>) {
    forall m :: 0 <= m < |pieces| ==> OfLarge(paragraphs, pieces[m], size)
  }

  lemma {:induction false} AppendGreedy(paragraphs: seq<string>, size: nat, chunks: seq<string>, pieces: seq<string>)
    requires Greedy(paragraphs, size, chunks) && AllOfLarge(paragraphs, size, pieces)
    ensures Greedy(paragraphs, size, chunks + pieces)
  {
    if pieces == [] {
      assert chunks + pieces == chunks;
    } else {
      var init, last := pieces[..|pieces| - 1], pieces[|pieces| - 1];
      AppendGreedy(paragraphs, size, chunks, init);
      GreedyMore(paragraphs, size, chunks + init, last);
      assert chunks + pieces == chunks + init + [last];
    }
  }

  lemma LargeGreedy(paragraphs: seq<string>, size: nat, overlap: nat, chunks: seq<string>, k: nat)
    requires 0 < size && Greedy(paragraphs, size, chunks) && k < |paragraphs| && |paragraphs[k]| > size
    requires LargeBlock(paragraphs[k], size, overlap) != []
    ensures Waits(paragraphs, size, Flat(chunks + LargeBlock(paragraphs[k], size, overlap), ""))
  {
    var s := paragraphs[k];
    var pieces := LargeBlock(s, size, overlap);
    forall m | 0 <= m < |pieces| ensures OfLarge(paragraphs, pieces[m], size) {
      var i, j := PiecesAreParts(s, size, PlainCuts(s, size, overlap, 0), m);
    }
    AppendGreedy(paragraphs, size, chunks, pieces);
    assert (chunks + pieces)[|chunks + pieces| - 1] == pieces[|pieces| - 1];
  }

  lemma LargeIsNotLost(s: string, size: nat, overlap: nat)
    requires 0 < size && Tight(s)
    ensures LargeBlock(s, size, overlap) != []
  {
    LargeBlockCovers(s, size, overlap);
    InkOfCharacter(s, 0);
  }

  lemma FeedGreedy(paragraphs: seq<string>, size: nat, overlap: nat, f: Flat, k: nat)
    requires 0 < size && Waits(paragraphs, size, f) && k < |paragraphs| && Tight(paragraphs[k])
    ensures Waits(paragraphs, size, FeedFlat(f, paragraphs[k], size, overlap))
  {
    var p := paragraphs[k];
    FlushGreedy(paragraphs, size, f);
    if |Candidate(f.current, p)| <= size {
    } else if |p| > size {
      LargeIsNotLost(p, size, overlap);
      LargeGreedy(paragraphs, size, overlap, FlushFlat(f).chunks, k);
    }
  }

  lemma {:induction false} AllFedGreedy(paragraphs: seq<string>, size: nat, overlap: nat, k: nat)
    requires 0 < size && k <= |paragraphs| && AllTightTexts(paragraphs)
    ensures Waits(paragraphs, size, FeedAllFlat(paragraphs[..k], size, overlap))
  {
    if k > 0 {
      AllFedGreedy(paragraphs, size, overlap, k - 1);
      assert paragraphs[..k][..k - 1] == paragraphs[..k - 1];
      FeedGreedy(paragraphs, size, overlap, FeedAllFlat(paragraphs[..k - 1], size, overlap), k - 1);
    }
  }

  // ---- What a chunk is made of ----

  /** The chunk is these neighbouring paragraphs, with a blank line between each two. */
  ghost predicate JoinedFrom(paragraphs: seq<string>, chunk: string, i: nat, j: nat) {
    i < j <= |paragraphs| && chunk == Join(paragraphs[i..j])
  }

  ghost predicate MadeOf(paragraphs: seq<string>, chunk: string, size: nat) {
    OfLarge(paragraphs, chunk, size) || exists i: nat, j: nat :: JoinedFrom(paragraphs, chunk, i, j)
  }

  /** After k paragraphs: the chunks are made of them, and the current text is the last few, joined. */
  ghost predicate Made(paragraphs: seq<string>, size: nat, f: Flat, k: nat) {
    && k <= |paragraphs|
    && (forall m :: 0 <= m < |f.chunks| ==> MadeOf(paragraphs, f.chunks[m], size))
    && (f.current != "" ==> exists i: nat :: JoinedFrom(paragraphs, f.current, i, k))
  }

  lemma JoinOne(paragraphs: seq<string>, k: nat)
    requires k < |paragraphs|
    ensures JoinedFrom(paragraphs, paragraphs[k], k, k + 1)
  {
    assert paragraphs[k..k + 1] == [] + [paragraphs[k]];
    JoinMore([], paragraphs[k]);
  }

  lemma JoinNext(paragraphs: seq<string>, current: string, i: nat, k: nat)
    requires k < |paragraphs| && JoinedFrom(paragraphs, current, i, k)
    ensures JoinedFrom(paragraphs, current + "\n\n" + paragraphs[k], i, k + 1)
  {
    JoinMore(paragraphs[i..k], paragraphs[k]);
    assert paragraphs[i..k + 1] == paragraphs[i..k] + [paragraphs[k]];
  }

  lemma FlushMade(paragraphs: seq<string>, size: nat, f: Flat, k: nat)
    requires Made(paragraphs, size, f, k)
    ensures Made(paragraphs, size, FlushFlat(f), k)
  {
    forall m | 0 <= m < |FlushFlat(f).chunks| ensures MadeOf(paragraphs, FlushFlat(f).chunks[m], size) {
    }
  }

  lemma FeedMade(paragraphs: seq<string>, size: nat, overlap: nat, f: Flat, k: nat)
    requires 0 < size && k < |paragraphs| && Made(paragraphs, size, f, k) && Tight(paragraphs[k])
    ensures Made(paragraphs, size, FeedFlat(f, paragraphs[k], size, overlap), k + 1)
  {
    var p := paragraphs[k];
    JoinOne(paragraphs, k);
    FlushMade(paragraphs, size, f, k);
    if |Candidate(f.current, p)| <= size {
      if f.current != "" {
        var i: nat :| JoinedFrom(paragraphs, f.current, i, k);
        JoinNext(paragraphs, f.current, i, k);
      }
    } else if |p| > size {
      var pieces := LargeBlock(p, size, overlap);
      forall m | 0 <= m < |pieces| ensures OfLarge(paragraphs, pieces[m], size) {
        var i, j := PiecesAreParts(p, size, PlainCuts(p, size, overlap, 0), m);
      }
      MadeMore(paragraphs, size, FlushFlat(f).chunks, pieces);
    }
  }

  lemma MadeMore(paragraphs: seq<string>, size: nat, chunks: seq<string>, pieces: seq<string>)
    requires forall m :: 0 <= m < |chunks| ==> MadeOf(paragraphs, chunks[m], size)
    requires AllOfLarge(paragraphs, size, pieces)
    ensures forall m :: 0 <= m < |chunks + pieces| ==> MadeOf(paragraphs, (chunks + pieces)[m], size)
  {
    forall m | 0 <= m < |chunks + pieces| ensures MadeOf(paragraphs, (chunks + pieces)[m], size) {
      assert m >= |chunks| ==> OfLarge(paragraphs, pieces[m - |chunks|], size);
    }
  }

  lemma {:induction false} AllFedMade(paragraphs: seq<string>, size: nat, overlap: nat, k: nat)
    requires 0 < size && k <= |paragraphs| && AllTightTexts(paragraphs)
    ensures Made(paragraphs, size, FeedAllFlat(paragraphs[..k], size, overlap), k)
  {
    if k > 0 {
      AllFedMade(paragraphs, size, overlap, k - 1);
      assert paragraphs[..k][..k - 1] == paragraphs[..k - 1];
      FeedMade(paragraphs, size, overlap, FeedAllFlat(paragraphs[..k - 1], size, overlap), k - 1);
    }
  }

  /** Every chunk is neighbouring paragraphs of the text with a blank line between each two, or a piece of one paragraph
      that is longer than the size. */
  lemma ChunksAreJoined(content: string, size: nat, overlap: nat, k: nat)
    requires 0 < size && k < |Chunks(content, size, overlap)|
    ensures MadeOf(SplitParagraphs(Strip(Unify(content))), Chunks(content, size, overlap)[k], size)
  {
    var paragraphs := SplitParagraphs(Strip(Unify(content)));
    ParagraphsKeepInk(Strip(Unify(content)));
    AllFedMade(paragraphs, size, overlap, |paragraphs|);
    assert paragraphs[..|paragraphs|] == paragraphs;
    FlushMade(paragraphs, size, FeedAllFlat(paragraphs, size, overlap), |paragraphs|);
  }

  /** The chunks of any text: two neighbours, with a blank line between them, would be longer than the size, unless one
      of them is a piece of a paragraph that is. */
  lemma ChunksAreGreedy(content: string, size: nat, overlap: nat, k: nat)
    requires 0 < size && k + 1 < |Chunks(content, size, overlap)|
    ensures ApartAt(SplitParagraphs(Strip(Unify(content))), size, Chunks(content, size, overlap), k)
  {
    var paragraphs := SplitParagraphs(Strip(Unify(content)));
    ParagraphsKeepInk(Strip(Unify(content)));
    AllFedGreedy(paragraphs, size, overlap, |paragraphs|);
    assert paragraphs[..|paragraphs|] == paragraphs;
    FlushGreedy(paragraphs, size, FeedAllFlat(paragraphs, size, overlap));
  }
}
