/** Where both splitters cut an oversized text, said without the functions that compute it. */
module ChunkingCuts {
  import opened Common
  import opened Text
  import opened HierarchicalChunking
  import opened Chunking
  import opened ChunkingCoverage

  /** The next cut starts the overlap before the end of this one, but always further right than this one. */
  predicate FollowsOn(c: Span, d: Span, overlap: nat) {
    d.from == if c.to >= c.from + 1 + overlap then c.to - overlap else c.from + 1
  }

  /** Cut k is followed by another one, that follows on. */
  predicate LinkedAt(s: string, overlap: nat, cuts: seq<Span>, k: nat)
    requires k + 1 < |cuts|
  {
    cuts[k].to < |s| && FollowsOn(cuts[k], cuts[k + 1], overlap)
  }

  /** The cuts go from the cursor to the end of the text, each following on from the one before; only the last one
      reaches the end. */
  ghost predicate Chain(s: string, overlap: nat, cursor: nat, cuts: seq<Span>) {
    && (cuts == [] <==> cursor >= |s|)
    && (cuts != [] ==> cuts[0].from == cursor && cuts[|cuts| - 1].to == |s|)
    && forall k: nat {:trigger LinkedAt(s, overlap, cuts, k)} :: k + 1 < |cuts| ==> LinkedAt(s, overlap, cuts, k)
  }

  lemma ChainOn(s: string, overlap: nat, c: Span, rest: seq<Span>, cuts: seq<Span>)
    requires cuts == [c] + rest && c.from < c.to <= |s|
    requires c.to == |s| ==> rest == []
    requires c.to < |s| ==> rest != [] && Chain(s, overlap, rest[0].from, rest) && FollowsOn(c, rest[0], overlap)
    ensures Chain(s, overlap, c.from, cuts)
  {
    forall k: nat {:trigger LinkedAt(s, overlap, cuts, k)} | k + 1 < |cuts| ensures LinkedAt(s, overlap, cuts, k) {
      LinkMoves(s, overlap, c, rest, cuts, k);
    }
  }

  lemma LinkMoves(s: string, overlap: nat, c: Span, rest: seq<Span>, cuts: seq<Span>, k: nat)
    requires cuts == [c] + rest && k + 1 < |cuts| && Chain(s, overlap, rest[0].from, rest)
    requires c.to < |s| && FollowsOn(c, rest[0], overlap)
    ensures LinkedAt(s, overlap, cuts, k)
  {
    if k > 0 {
      assert LinkedAt(s, overlap, rest, k - 1);
      assert cuts[k] == rest[k - 1] && cuts[k + 1] == rest[k];
    }
  }

  // ---- The parent/child splitter ----

  /** A position in the second half of the window that starts at `from`, and not its start. */
  predicate InSecondHalf(from: nat, size: nat, k: int) { from < k && from + size / 2 <= k < from + size }

  predicate SpaceAt(s: string, from: nat, size: nat, k: int) {
    0 <= k < |s| && InSecondHalf(from, size, k) && s[k] == ' '
  }

  /** A cut whose window reaches the end of the text takes all of it; any other goes back to the last space in the
      second half of its window, and takes the whole window if there is none. */
  ghost predicate EndsWell(s: string, size: nat, c: Span) {
    if c.from + size >= |s| then c.to == |s|
    else if exists k :: SpaceAt(s, c.from, size, k) then
      SpaceAt(s, c.from, size, c.to) && forall k :: SpaceAt(s, c.from, size, k) ==> k <= c.to
    else c.to == c.from + size
  }

  /** A chain of cuts that all end well. */
  ghost predicate AtSpaces(s: string, size: nat, overlap: nat, cursor: nat, cuts: seq<Span>) {
    Chain(s, overlap, cursor, cuts) && forall k :: 0 <= k < |cuts| ==> EndsWell(s, size, cuts[k])
  }

  lemma CutEndsWell(s: string, size: nat, cursor: nat)
    requires 0 < size && cursor < |s|
    ensures EndsWell(s, size, Span(cursor, CutEnd(s, size, cursor)))
  {
    var end := CutEnd(s, size, cursor);
    if cursor + size < |s| {
      var at := RFindSpace(s, cursor + Max(size / 2, 1), cursor + size);
      forall k | SpaceAt(s, cursor, size, k) ensures k <= at {
      }
      if at >= 0 {
        assert SpaceAt(s, cursor, size, at);
      }
    }
  }

  /** The cuts of an oversized unit, from any cursor on: one chain to the end of the unit, every cut ending well. */
  lemma {:induction false} CutsAreAtSpaces(s: string, size: nat, overlap: nat, cursor: nat)
    requires 0 < size
    ensures AtSpaces(s, size, overlap, cursor, Cuts(s, size, overlap, cursor))
    decreases |s| - cursor
  {
    if cursor < |s| {
      var end := CutEnd(s, size, cursor);
      CutEndsWell(s, size, cursor);
      var next := Max(end - overlap, cursor + 1);
      var rest := if end == |s| then [] else Cuts(s, size, overlap, next);
      if end < |s| {
        CutsAreAtSpaces(s, size, overlap, next);
      }
      FirstCut(s, size, overlap, cursor, end, rest);
      OneMoreAtSpace(s, size, overlap, Span(cursor, end), rest, Cuts(s, size, overlap, cursor));
    }
  }

  lemma FirstCut(s: string, size: nat, overlap: nat, cursor: nat, end: nat, rest: seq<Span>)
    requires 0 < size && cursor < |s| && end == CutEnd(s, size, cursor)
    requires rest == if end == |s| then [] else Cuts(s, size, overlap, Max(end - overlap, cursor + 1))
    ensures Cuts(s, size, overlap, cursor) == [Span(cursor, end)] + rest
  {
    var none := rest[..0];
    CutsUnroll(s, size, overlap, cursor, end, none);
    assert none + Cuts(s, size, overlap, cursor) == Cuts(s, size, overlap, cursor);
    assert none + [Span(cursor, end)] == [Span(cursor, end)];
  }

  lemma OneMoreAtSpace(s: string, size: nat, overlap: nat, c: Span, rest: seq<Span>, cuts: seq<Span>)
    requires cuts == [c] + rest && c.from < c.to <= |s| && EndsWell(s, size, c)
    requires c.to == |s| ==> rest == []
    requires c.to < |s| ==> rest != [] && AtSpaces(s, size, overlap, rest[0].from, rest)
    requires c.to < |s| ==> FollowsOn(c, rest[0], overlap)
    ensures AtSpaces(s, size, overlap, c.from, cuts)
  {
    ChainOn(s, overlap, c, rest, cuts);
    forall k | 0 <= k < |cuts| ensures EndsWell(s, size, cuts[k]) {
      if k > 0 {
        assert EndsWell(s, size, rest[k - 1]);
      }
    }
  }

  // ---- The segments of an oversized unit among the blocks ----

  predicate BlockShows(blocks: seq<TextBlock>, at: nat, piece: TextBlock, base: nat) {
    && at < |blocks| && blocks[at].content == piece.content
    && blocks[at].start == base + piece.start && blocks[at].end == base + piece.end
  }

  /** From `at` on the blocks show the pieces, one after the other, `base` further right. */
  ghost predicate ShowsFrom(blocks: seq<TextBlock>, at: nat, pieces: seq<TextBlock>, base: nat) {
    forall i: nat {:trigger pieces[i]} :: i < |pieces| ==> BlockShows(blocks, at + i, pieces[i], base)
  }

  lemma {:induction false} ExtendShows(blocks: seq<TextBlock>, more: seq<TextBlock>, base: nat)
    ensures |Extend(blocks, more, base)| == |blocks| + |more| && blocks <= Extend(blocks, more, base)
    ensures ShowsFrom(Extend(blocks, more, base), |blocks|, more, base)
  {
    if more != [] {
      var last := |more| - 1;
      var init := Extend(blocks, more[..last], base);
      ExtendShows(blocks, more[..last], base);
      forall i: nat {:trigger more[i]} | i < |more|
        ensures BlockShows(Extend(blocks, more, base), |blocks| + i, more[i], base)
      {
        if i < last {
          assert BlockShows(init, |blocks| + i, more[..last][i], base);
        }
      }
    }
  }

  lemma LongerShows(blocks: seq<TextBlock>, longer: seq<TextBlock>, at: nat, pieces: seq<TextBlock>, base: nat)
    requires ShowsFrom(blocks, at, pieces, base) && blocks <= longer
    ensures ShowsFrom(longer, at, pieces, base) && ShowsFrom(Numbered(longer), at, pieces, base)
  {
    forall i: nat {:trigger pieces[i]} | i < |pieces|
      ensures BlockShows(longer, at + i, pieces[i], base) && BlockShows(Numbered(longer), at + i, pieces[i], base)
    {
      assert BlockShows(blocks, at + i, pieces[i], base);
    }
  }

  lemma FeedGrows(p: Packing, u: TextBlock, size: nat, overlap: nat, base: nat)
    requires 0 < size
    ensures p.blocks <= Feed(p, u, size, overlap, base).blocks
  {
    var content := Strip(u.content);
    if |content| > size {
      ExtendShows(Flush(p, base).blocks, Oversized(content, u.start, size, overlap), base);
    }
  }

  /** After the units up to the k-th, the segments of that unit stand at the end. */
  lemma FeedShows(p: Packing, u: TextBlock, content: string, size: nat, overlap: nat, base: nat)
    requires 0 < size && content == Strip(u.content) && |content| > size
    ensures ShowsFrom(Feed(p, u, size, overlap, base).blocks, |Flush(p, base).blocks|,
                      Oversized(content, u.start, size, overlap), base)
  {
    ExtendShows(Flush(p, base).blocks, Oversized(content, u.start, size, overlap), base);
  }

  lemma {:induction false} FedUnitShows(units: seq<TextBlock>, k: nat, content: string, size: nat, overlap: nat,
                                        base: nat) returns (at: nat)
    requires 0 < size && k < |units| && content == Strip(units[k].content) && |content| > size
    ensures ShowsFrom(FeedAll(units, size, overlap, base).blocks, at,
                      Oversized(content, units[k].start, size, overlap), base)
  {
    var last := |units| - 1;
    var p := FeedAll(units[..last], size, overlap, base);
    if k == last {
      FeedShows(p, units[k], content, size, overlap, base);
      at := |Flush(p, base).blocks|;
    } else {
      var pieces := Oversized(content, units[k].start, size, overlap);
      at := FedUnitShows(units[..last], k, content, size, overlap, base);
      StillShows(p, units[last], at, pieces, size, overlap, base);
    }
  }

  lemma StillShows(p: Packing, u: TextBlock, at: nat, pieces: seq<TextBlock>, size: nat, overlap: nat, base: nat)
    requires 0 < size && ShowsFrom(p.blocks, at, pieces, base)
    ensures ShowsFrom(Feed(p, u, size, overlap, base).blocks, at, pieces, base)
  {
    FeedGrows(p, u, size, overlap, base);
    LongerShows(p.blocks, Feed(p, u, size, overlap, base).blocks, at, pieces, base);
  }

  /** The target size, but at least 1. */
  predicate IsSize(size: nat, target: int) { size == if target < 1 then 1 else target }

  /** The overlap asked for, but not negative and smaller than the size. */
  predicate IsOverlap(effective: nat, size: nat, overlap: int) {
    effective == if overlap < 0 then 0 else if overlap >= size then size - 1 else overlap
  }

  /** A unit longer than the size stands among the blocks as the segments of a chain of cuts at spaces, without any
      other block between them, `base` further right. */
  lemma OversizedUnitsAreCut(s: string, target: int, overlap: int, base: nat, k: nat, content: string, size: nat,
                             effective: nat) returns (cuts: seq<Span>, at: nat)
    requires IsSize(size, target) && 0 < size && IsOverlap(effective, size, overlap)
    requires k < |Units(s)| && content == Strip(Units(s)[k].content) && |content| > size
    ensures AtSpaces(content, size, effective, 0, cuts) && AllWithin(cuts, content)
    ensures ShowsFrom(Blocks(s, target, overlap, base), at, SegmentsOf(content, Units(s)[k].start, cuts), base)
  {
    assert size == Size(target) && effective == Overlap(target, overlap);
    var start := 0;
    cuts := Cuts(content, size, effective, start);
    CutsAreAtSpaces(content, size, effective, start);
    at := FedUnitShows(Units(s), k, content, size, effective, base);
    var p := FeedAll(Units(s), size, effective, base);
    LongerShows(p.blocks, Flush(p, base).blocks, at, SegmentsOf(content, Units(s)[k].start, cuts), base);
  }

  // ---- The flat splitter ----

  /** A cut takes its whole window, or what is left of the text. */
  predicate EndsFull(s: string, size: nat, c: Span) {
    c.to == if c.from + size < |s| then c.from + size else |s|
  }

  ghost predicate AllFull(s: string, size: nat, overlap: nat, start: nat, cuts: seq<Span>) {
    Chain(s, overlap, start, cuts) && forall k :: 0 <= k < |cuts| ==> EndsFull(s, size, cuts[k])
  }

  /** The cuts of a large paragraph, from any start on: one chain to the end, every cut as long as the text allows. */
  lemma {:induction false} PlainCutsAreFull(s: string, size: nat, overlap: nat, start: nat)
    requires 0 < size
    ensures AllFull(s, size, overlap, start, PlainCuts(s, size, overlap, start))
    decreases |s| - start
  {
    if start < |s| {
      var stop := Min(|s|, start + size);
      if stop < |s| {
        PlainCutsAreFull(s, size, overlap, Max(stop - overlap, start + 1));
      }
      FirstCutFull(s, size, overlap, start, stop, Max(stop - overlap, start + 1));
    }
  }

  lemma FirstCutFull(s: string, size: nat, overlap: nat, start: nat, stop: nat, next: nat)
    requires 0 < size && start < |s| && stop == Min(|s|, start + size) && next == Max(stop - overlap, start + 1)
    requires stop < |s| ==> AllFull(s, size, overlap, next, PlainCuts(s, size, overlap, next))
    ensures AllFull(s, size, overlap, start, PlainCuts(s, size, overlap, start))
  {
    var rest := if stop == |s| then [] else PlainCuts(s, size, overlap, next);
    ChainOn(s, overlap, Span(start, stop), rest, [Span(start, stop)] + rest);
  }

  /** What is said of the cuts determines them: two chains at spaces from the same cursor are the same. */
  lemma {:induction false} OneChainOnly(s: string, size: nat, overlap: nat, cursor: nat, a: seq<Span>, b: seq<Span>,
                                        k: nat)
    requires 0 < size && AtSpaces(s, size, overlap, cursor, a) && AtSpaces(s, size, overlap, cursor, b) && k < |a|
    ensures k < |b| && a[k] == b[k]
  {
    if k > 0 {
      OneChainOnly(s, size, overlap, cursor, a, b, k - 1);
      assert LinkedAt(s, overlap, a, k - 1);
      if k < |b| {
        assert LinkedAt(s, overlap, b, k - 1);
      }
    }
    SameEnd(s, size, a[k], b[k]);
  }

  lemma SameEnd(s: string, size: nat, c: Span, d: Span)
    requires EndsWell(s, size, c) && EndsWell(s, size, d) && c.from == d.from
    ensures c == d
  {
    if c.from + size < |s| && SpaceAt(s, c.from, size, c.to) {
      assert SpaceAt(s, d.from, size, d.to);
    }
  }
}
