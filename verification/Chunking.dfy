/** app/rag/chunking.py: the flat splitter. Sizes are at least 1 and overlaps not negative. */
module Chunking {
  import opened Common
  import opened Text
  import opened HierarchicalChunking
  import opened ChunkingCoverage

  // ---- Paragraphs ----

  /** `replace("\r\n", "\n")` */
  function Unify(s: string): (r: string)
    ensures |r| <= |s|
  {
    if s == "" then ""
    else if |s| >= 2 && s[0] == '\r' && s[1] == '\n' then ['\n'] + Unify(s[2..])
    else [s[0]] + Unify(s[1..])
  }

  /** The first "\n\n" from i on, or the end. */
  function FindBlank(s: string, i: nat): (j: nat)
    requires i <= |s|
    ensures i <= j <= |s| && (j < |s| ==> j + 2 <= |s| && s[j] == '\n' && s[j + 1] == '\n')
    decreases |s| - i
  {
    if i + 2 > |s| then |s| else if s[i] == '\n' && s[i + 1] == '\n' then i else FindBlank(s, i + 1)
  }

  /** `[p.strip() for p in s.split("\n\n") if p.strip()]` */
  function SplitParagraphs(s: string): seq<string>
    decreases |s|
  {
    var j := FindBlank(s, 0);
    var first := Strip(s[..j]);
    (if first == "" then [] else [first]) + if j == |s| then [] else SplitParagraphs(s[j + 2..])
  }

  // ---- Large paragraphs ----

  function PlainCuts(s: string, size: nat, overlap: nat, start: nat): (r: seq<Span>)
    requires 0 < size
    ensures AllWithin(r, s)
    decreases |s| - start
  {
    if start >= |s| then []
    else
      var stop := Min(|s|, start + size);
      [Span(start, stop)] + if stop == |s| then [] else PlainCuts(s, size, overlap, Max(stop - overlap, start + 1))
  }

  /** One cut, trimmed, unless it is blank. */
  function AddPiece(s: string, c: Span, pieces: seq<string>): seq<string>
    requires c.Within(s)
  {
    var piece := Strip(s[c.from..c.to]);
    if piece == "" then pieces else pieces + [piece]
  }

  function PiecesOf(s: string, cuts: seq<Span>): seq<string>
    requires AllWithin(cuts, s)
  {
    if cuts == [] then [] else AddPiece(s, cuts[|cuts| - 1], PiecesOf(s, cuts[..|cuts| - 1]))
  }

  lemma PiecesMore(s: string, cuts: seq<Span>, c: Span)
    requires c.Within(s) && AllWithin(cuts, s)
    ensures PiecesOf(s, cuts + [c]) == AddPiece(s, c, PiecesOf(s, cuts))
  {
    assert (cuts + [c])[..|cuts|] == cuts;
  }

  function LargeBlock(s: string, size: nat, overlap: nat): seq<string>
    requires 0 < size
  {
    PiecesOf(s, PlainCuts(s, size, overlap, 0))
  }

  // ---- Packing ----

  datatype Flat = Flat(chunks: seq<string>, current: string)

  function FlushFlat(f: Flat): Flat { Flat(if f.current == "" then f.chunks else f.chunks + [f.current], "") }

  function Candidate(current: string, paragraph: string): string {
    if current == "" then paragraph else current + "\n\n" + paragraph
  }

  function FeedFlat(f: Flat, paragraph: string, size: nat, overlap: nat): Flat
    requires 0 < size
  {
    if |Candidate(f.current, paragraph)| <= size then f.(current := Candidate(f.current, paragraph))
    else
      var g := FlushFlat(f);
      if |paragraph| <= size then g.(current := paragraph)
      else g.(chunks := g.chunks + LargeBlock(paragraph, size, overlap))
  }

  function FeedAllFlat(paragraphs: seq<string>, size: nat, overlap: nat): Flat
    requires 0 < size
  {
    if paragraphs == [] then Flat([], "")
    else FeedFlat(FeedAllFlat(paragraphs[..|paragraphs| - 1], size, overlap), paragraphs[|paragraphs| - 1], size,
                  overlap)
  }

  function Chunks(content: string, size: nat, overlap: nat): seq<string>
    requires 0 < size
  {
    FlushFlat(FeedAllFlat(SplitParagraphs(Strip(Unify(content))), size, overlap)).chunks
  }

  // ---- The loops of the program ----

  method SplitLargeBlock(text: string, size: nat, overlap: nat) returns (chunks: seq<string>)
    requires 0 < size
    ensures chunks == LargeBlock(text, size, overlap)
  {
    chunks := [];
    var start := 0;
    ghost var all, made := PlainCuts(text, size, overlap, start), 0;
    while start < |text|
      invariant made <= |all| && AllWithin(all, text) && PlainCutsLeft(text, size, overlap, start, all, made)
      invariant chunks == PiecesOf(text, all[..made])
      decreases |text| - start
    {
      var stop := Min(|text|, start + size);
      PlainCutsAdvance(text, size, overlap, start, stop, all, made);
      PiecesMore(text, all[..made], Span(start, stop));
      chunks := AppendPiece(text, Span(start, stop), chunks);
      made := made + 1;
      if stop >= |text| {
        break;
      }
      start := Max(stop - overlap, start + 1);
    }
    assert all[..made] == all;
  }

  method AppendPiece(text: string, c: Span, chunks: seq<string>) returns (more: seq<string>)
    requires c.Within(text)
    ensures more == AddPiece(text, c, chunks)
  {
    more := chunks;
    var chunk := Strip(text[c.from..c.to]);
    if chunk != "" {
      more := more + [chunk];
    }
  }

  ghost predicate PlainCutsLeft(s: string, size: nat, overlap: nat, start: nat, all: seq<Span>, k: nat)
    requires 0 < size
  {
    k <= |all| && all[k..] == PlainCuts(s, size, overlap, start)
  }

  lemma PlainCutsAdvance(s: string, size: nat, overlap: nat, start: nat, stop: nat, all: seq<Span>, k: nat)
    requires 0 < size && start < |s| && PlainCutsLeft(s, size, overlap, start, all, k) && stop == Min(|s|, start + size)
    ensures k < |all| && all[..k + 1] == all[..k] + [Span(start, stop)]
    ensures if stop == |s| then all[..k + 1] == all
            else PlainCutsLeft(s, size, overlap, Max(stop - overlap, start + 1), all, k + 1)
  {
    Taken(all, k, Span(start, stop), if stop == |s| then []
          else PlainCuts(s, size, overlap, Max(stop - overlap, start + 1)));
  }

  /** One turn of the loop over the paragraphs. */
  method FeedParagraph(chunks: seq<string>, current: string, paragraph: string, size: nat, overlap: nat)
    returns (newChunks: seq<string>, newCurrent: string)
    requires 0 < size
    ensures Flat(newChunks, newCurrent) == FeedFlat(Flat(chunks, current), paragraph, size, overlap)
  {
    newChunks, newCurrent := chunks, current;
    var candidate := if current == "" then paragraph else current + "\n\n" + paragraph;
    if |candidate| <= size {
      newCurrent := candidate;
      return;
    }
    if newCurrent != "" {
      newChunks := newChunks + [newCurrent];
      newCurrent := "";
    }
    if |paragraph| <= size {
      newCurrent := paragraph;
      return;
    }
    var pieces := SplitLargeBlock(paragraph, size, overlap);
    newChunks := newChunks + pieces;
  }

  method FeedParagraphs(paragraphs: seq<string>, size: nat, overlap: nat) returns (chunks: seq<string>, current: string)
    requires 0 < size
    ensures Flat(chunks, current) == FeedAllFlat(paragraphs, size, overlap)
  {
    chunks, current := [], "";
    for k := 0 to |paragraphs|
      invariant Flat(chunks, current) == FeedAllFlat(paragraphs[..k], size, overlap)
    {
      assert paragraphs[..k + 1][..k] == paragraphs[..k];
      chunks, current := FeedParagraph(chunks, current, paragraphs[k], size, overlap);
    }
    assert paragraphs[..|paragraphs|] == paragraphs;
  }

  method ChunkText(content: string, size: nat, overlap: nat) returns (chunks: seq<string>)
    requires 0 < size
    ensures chunks == Chunks(content, size, overlap)
  {
    var normalized := Strip(Unify(content));
    var paragraphs := SplitParagraphs(normalized);
    if normalized == "" {
      assert paragraphs == [];
      return [];
    }
    var current;
    chunks, current := FeedParagraphs(paragraphs, size, overlap);
    if current != "" {
      chunks := chunks + [current];
    }
  }

  // ---- What the chunks keep ----

  function InksOf(pieces: seq<string>): (r: seq<string>)
    ensures |r| == |pieces| && forall k :: 0 <= k < |r| ==> r[k] == Ink(pieces[k])
  {
    seq(|pieces|, k requires 0 <= k < |pieces| => Ink(pieces[k]))
  }

  ghost predicate AllFit(pieces: seq<string>, size: nat) {
    forall k :: 0 <= k < |pieces| ==> Fits(pieces[k], size)
  }

  lemma {:induction false} PlainCutsGapless(s: string, size: nat, overlap: nat, start: nat, done: seq<Span>)
    requires 0 < size && Gapless(done, overlap == 0) && start < |s|
    requires start <= Last(done) <= Min(|s|, start + size) && (overlap == 0 ==> start == Last(done))
    ensures Gapless(done + PlainCuts(s, size, overlap, start), overlap == 0)
    ensures Last(done + PlainCuts(s, size, overlap, start)) == |s|
    decreases |s| - start
  {
    var stop := Min(|s|, start + size);
    var more := done + [Span(start, stop)];
    GaplessMore(done, Span(start, stop), overlap == 0);
    var rest := if stop == |s| then [] else PlainCuts(s, size, overlap, Max(stop - overlap, start + 1));
    Regroup(done, Span(start, stop), rest, PlainCuts(s, size, overlap, start));
    if stop == |s| {
      assert more + [] == more;
    } else {
      PlainCutsGapless(s, size, overlap, Max(stop - overlap, start + 1), more);
    }
  }

  lemma {:induction false} PlainCutsShort(s: string, size: nat, overlap: nat, start: nat)
    requires 0 < size
    ensures AllShort(PlainCuts(s, size, overlap, start), size)
    decreases |s| - start
  {
    if start < |s| {
      PlainCutsShort(s, size, overlap, Max(Min(|s|, start + size) - overlap, start + 1));
    }
  }

  /** The pieces are the contents of the segments of the other splitter. */
  lemma {:induction false} PiecesAreSegments(s: string, cuts: seq<Span>)
    requires AllWithin(cuts, s)
    ensures PiecesOf(s, cuts) == Contents(SegmentsOf(s, 0, cuts))
  {
    if cuts != [] {
      PiecesAreSegments(s, cuts[..|cuts| - 1]);
    }
  }

  lemma ContentInks(blocks: seq<TextBlock>)
    ensures InksOf(Contents(blocks)) == Inks(blocks)
  {
  }

  lemma LargeBlockCovers(s: string, size: nat, overlap: nat)
    requires 0 < size
    ensures Covers(InksOf(LargeBlock(s, size, overlap)), Ink(s), overlap == 0)
            && AllFit(LargeBlock(s, size, overlap), size)
  {
    var cuts := PlainCuts(s, size, overlap, 0);
    PlainCutsShort(s, size, overlap, 0);
    SegmentsSized(s, 0, size, cuts);
    PiecesAreSegments(s, cuts);
    ContentInks(SegmentsOf(s, 0, cuts));
    if s != "" {
      PlainCutsGapless(s, size, overlap, 0, cuts[..0]);
      assert cuts[..0] + cuts == cuts;
      SegmentsCover(s, 0, cuts, overlap == 0);
      assert s[..|s|] == s;
    }
  }

  // ---- Packing ----

  function ListInk(pieces: seq<string>): string {
    if pieces == [] then "" else ListInk(pieces[..|pieces| - 1]) + Ink(pieces[|pieces| - 1])
  }

  /** The chunks cover t, and the current text is the rest of the whole. */
  ghost predicate SplitsFlat(f: Flat, t: string, whole: string, exact: bool) {
    Covers(InksOf(f.chunks), t, exact) && whole == t + Ink(f.current)
  }

  ghost predicate CoveredFlat(f: Flat, whole: string, exact: bool) {
    exists t :: SplitsFlat(f, t, whole, exact)
  }

  ghost predicate FittingFlat(f: Flat, size: nat) {
    AllFit(f.chunks, size) && (f.current == "" || Fits(f.current, size))
  }

  lemma FlushFlatCovers(f: Flat, whole: string, exact: bool)
    requires CoveredFlat(f, whole, exact)
    ensures Covers(InksOf(FlushFlat(f).chunks), whole, exact)
  {
    var t :| SplitsFlat(f, t, whole, exact);
    if f.current == "" {
      assert t + "" == t;
    } else {
      CoversAppend(InksOf(f.chunks), t, Ink(f.current), exact);
      assert InksOf(f.chunks + [f.current]) == InksOf(f.chunks) + [Ink(f.current)];
    }
  }

  lemma CandidateInk(current: string, paragraph: string)
    ensures Ink(Candidate(current, paragraph)) == Ink(current) + Ink(paragraph)
  {
    InkJoins(current, paragraph);
    assert "" + Ink(paragraph) == Ink(paragraph);
  }

  lemma CurrentGrows(f: Flat, g: Flat, paragraph: string, whole: string, exact: bool)
    requires CoveredFlat(f, whole, exact)
    requires g.chunks == f.chunks && Ink(g.current) == Ink(f.current) + Ink(paragraph)
    ensures CoveredFlat(g, whole + Ink(paragraph), exact)
  {
    var t :| SplitsFlat(f, t, whole, exact);
    assert whole + Ink(paragraph) == t + (Ink(f.current) + Ink(paragraph));
    assert SplitsFlat(g, t, whole + Ink(paragraph), exact);
  }

  lemma NothingIsCurrent(f: Flat, whole: string, exact: bool)
    requires f.current == "" && Covers(InksOf(f.chunks), whole, exact)
    ensures CoveredFlat(f, whole, exact)
  {
    assert whole + "" == whole;
    assert SplitsFlat(f, whole, whole, exact);
  }

  lemma LargeFeeds(f: Flat, paragraph: string, size: nat, overlap: nat, whole: string)
    requires 0 < size && f.current == "" && Covers(InksOf(f.chunks), whole, overlap == 0)
    ensures var g := f.(chunks := f.chunks + LargeBlock(paragraph, size, overlap));
            CoveredFlat(g, whole + Ink(paragraph), overlap == 0)
  {
    var more := LargeBlock(paragraph, size, overlap);
    LargeBlockCovers(paragraph, size, overlap);
    CoversJoin(InksOf(f.chunks), whole, InksOf(more), Ink(paragraph), overlap == 0);
    assert InksOf(f.chunks + more) == InksOf(f.chunks) + InksOf(more);
    NothingIsCurrent(f.(chunks := f.chunks + more), whole + Ink(paragraph), overlap == 0);
  }

  lemma FeedFlatCovers(f: Flat, paragraph: string, size: nat, overlap: nat, whole: string)
    requires 0 < size && CoveredFlat(f, whole, overlap == 0)
    ensures CoveredFlat(FeedFlat(f, paragraph, size, overlap), whole + Ink(paragraph), overlap == 0)
  {
    var g := FlushFlat(f);
    FlushFlatCovers(f, whole, overlap == 0);
    if |Candidate(f.current, paragraph)| <= size {
      CandidateInk(f.current, paragraph);
      CurrentGrows(f, FeedFlat(f, paragraph, size, overlap), paragraph, whole, overlap == 0);
    } else if |paragraph| <= size {
      NothingIsCurrent(g, whole, overlap == 0);
      CandidateInk(g.current, paragraph);
      CurrentGrows(g, FeedFlat(f, paragraph, size, overlap), paragraph, whole, overlap == 0);
    } else {
      LargeFeeds(g, paragraph, size, overlap, whole);
    }
  }

  lemma FeedFlatFits(f: Flat, paragraph: string, size: nat, overlap: nat)
    requires 0 < size && FittingFlat(f, size) && Tight(paragraph)
    ensures FittingFlat(FeedFlat(f, paragraph, size, overlap), size)
  {
    LargeBlockCovers(paragraph, size, overlap);
  }

  predicate AllTightTexts(texts: seq<string>) { forall k :: 0 <= k < |texts| ==> Tight(texts[k]) }

  lemma {:induction false} FeedAllFlatCovers(paragraphs: seq<string>, size: nat, overlap: nat)
    requires 0 < size && AllTightTexts(paragraphs)
    ensures CoveredFlat(FeedAllFlat(paragraphs, size, overlap), ListInk(paragraphs), overlap == 0)
    ensures FittingFlat(FeedAllFlat(paragraphs, size, overlap), size)
  {
    if paragraphs == [] {
      NothingIsCurrent(FeedAllFlat(paragraphs, size, overlap), "", overlap == 0);
    } else {
      var init, last := paragraphs[..|paragraphs| - 1], paragraphs[|paragraphs| - 1];
      FeedAllFlatCovers(init, size, overlap);
      FeedFlatCovers(FeedAllFlat(init, size, overlap), last, size, overlap, ListInk(init));
      FeedFlatFits(FeedAllFlat(init, size, overlap), last, size, overlap);
    }
  }

  // ---- Paragraphs ----

  lemma {:induction false} UnifyKeepsInk(s: string)
    ensures Ink(Unify(s)) == Ink(s)
  {
    if s != "" {
      var n := if |s| >= 2 && s[0] == '\r' && s[1] == '\n' then 2 else 1;
      var first := if n == 2 then ['\n'] else [s[0]];
      UnifyKeepsInk(s[n..]);
      InkCut(s, n);
      InkSplits(first, Unify(s[n..]));
      if n == 2 {
        InkOfSpace(s[..2]);
        InkOfSpace(first);
      } else {
        assert first == s[..1];
      }
    }
  }

  lemma ListInkFirst(first: seq<string>, rest: seq<string>)
    requires |first| <= 1
    ensures ListInk(first + rest) == (if first == [] then "" else Ink(first[0])) + ListInk(rest)
  {
    if first == [] {
      assert first + rest == rest;
      assert "" + ListInk(rest) == ListInk(rest);
    } else {
      ListInkCons(first[0], rest);
      assert first + rest == [first[0]] + rest;
    }
  }

  lemma ListInkMore(init: seq<string>, x: string, whole: seq<string>)
    requires whole == init + [x]
    ensures ListInk(whole) == ListInk(init) + Ink(x)
  {
    assert whole[..|whole| - 1] == init;
  }

  lemma {:induction false} ListInkCons(x: string, rest: seq<string>)
    ensures ListInk([x] + rest) == Ink(x) + ListInk(rest)
  {
    ListInkMore([], x, [x]);
    if rest == [] {
      assert [x] + rest == [x];
    } else {
      var init, last := rest[..|rest| - 1], rest[|rest| - 1];
      ListInkCons(x, init);
      ListInkMore([x] + init, last, [x] + rest);
      ListInkMore(init, last, rest);
    }
  }

  lemma InkJoinsWhole(s: string, left: string, right: string)
    requires s == left + "\n\n" + right
    ensures Ink(s) == Ink(left) + Ink(right)
  {
    InkJoins(left, right);
  }

  lemma BlankInk(s: string, j: nat)
    requires j + 2 <= |s| && s[j] == '\n' && s[j + 1] == '\n'
    ensures Ink(s) == Ink(s[..j]) + Ink(s[j + 2..])
  {
    var left, right := s[..j], s[j + 2..];
    assert s == left + "\n\n" + right;
    InkJoinsWhole(s, left, right);
  }

  /** Cutting at blank lines keeps every visible character, and every paragraph is trimmed and not empty. */
  lemma {:induction false} ParagraphsKeepInk(s: string)
    ensures ListInk(SplitParagraphs(s)) == Ink(s) && AllTightTexts(SplitParagraphs(s))
    decreases |s|
  {
    var j := FindBlank(s, 0);
    var first := Strip(s[..j]);
    var rest := if j == |s| then [] else SplitParagraphs(s[j + 2..]);
    InkOfStrip(s[..j]);
    ListInkFirst(if first == "" then [] else [first], rest);
    if j < |s| {
      ParagraphsKeepInk(s[j + 2..]);
      BlankInk(s, j);
    } else {
      assert s[..j] == s;
      assert Ink(s) + "" == Ink(s);
    }
  }

  // ---- The whole splitter ----

  lemma PackedKeep(paragraphs: seq<string>, size: nat, overlap: nat)
    requires 0 < size && AllTightTexts(paragraphs)
    ensures var chunks := FlushFlat(FeedAllFlat(paragraphs, size, overlap)).chunks;
            Covers(InksOf(chunks), ListInk(paragraphs), overlap == 0) && AllFit(chunks, size)
  {
    FeedAllFlatCovers(paragraphs, size, overlap);
    FlushFlatCovers(FeedAllFlat(paragraphs, size, overlap), ListInk(paragraphs), overlap == 0);
  }

  /** For any text, size of at least 1 and overlap: the chunks cover the text without a gap, and are trimmed, not empty
      and no longer than the size. */
  lemma ChunksKeepTheText(content: string, size: nat, overlap: nat)
    requires 0 < size
    ensures Covers(InksOf(Chunks(content, size, overlap)), Ink(content), overlap == 0)
    ensures AllFit(Chunks(content, size, overlap), size)
  {
    var normalized := Strip(Unify(content));
    UnifyKeepsInk(content);
    InkOfStrip(Unify(content));
    ParagraphsKeepInk(normalized);
    PackedKeep(SplitParagraphs(normalized), size, overlap);
  }

  /** Around every visible character some chunk shows the visible text, with that character in it. */
  lemma ChunksLoseNothing(content: string, size: nat, overlap: nat, i: nat) returns (k: nat, c: nat)
    requires 0 < size && i < |content| && !IsSpace(content[i])
    ensures var chunks := Chunks(content, size, overlap);
            k < |chunks| && ShowsAround(chunks[k], content, i, c)
  {
    var chunks := Chunks(content, size, overlap);
    ChunksKeepTheText(content, size, overlap);
    InkOfCharacter(content, i);
    k, c := CoveredCharacter(InksOf(chunks), Ink(content), |Ink(content[..i])|, overlap == 0);
  }

  /** Without overlap the chunks are the text, white space aside. */
  lemma ChunksWithoutOverlap(content: string, size: nat)
    requires 0 < size
    ensures Flatten(InksOf(Chunks(content, size, 0))) == Ink(content)
  {
    ChunksKeepTheText(content, size, 0);
    ExactCoverConcatenates(InksOf(Chunks(content, size, 0)), Ink(content));
  }
}
