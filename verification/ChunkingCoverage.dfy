/** What splitting keeps for any text: block sizes and numbering, and every character that is not white space. */
module ChunkingCoverage {
  import opened Common
  import opened Text
  import opened HierarchicalChunking

  /** The white-space-free text of each block. */
  function Inks(blocks: seq<TextBlock>): (r: seq<string>)
    ensures |r| == |blocks| && forall k :: 0 <= k < |r| ==> r[k] == Ink(blocks[k].content)
  {
    seq(|blocks|, k requires 0 <= k < |blocks| => Ink(blocks[k].content))
  }

  /** Blocks are trimmed, not empty, and no longer than the size. */
  ghost predicate Sized(blocks: seq<TextBlock>, size: nat) {
    forall k :: 0 <= k < |blocks| ==> Fits(blocks[k].content, size)
  }

  predicate Fits(s: string, size: nat) { Tight(s) && |s| <= size }

  // ---- Oversized units ----

  /** Where the last of the spans ends. */
  function Last(spans: seq<Span>): nat { if spans == [] then 0 else spans[|spans| - 1].to }

  /** Each cut starts no later than the one before it ends, exactly there if `exact`, and ends no earlier. */
  predicate Gapless(cuts: seq<Span>, exact: bool) {
    cuts == [] ||
    var init, last := cuts[..|cuts| - 1], cuts[|cuts| - 1];
    Gapless(init, exact) && last.from <= Last(init) <= last.to && (exact ==> last.from == Last(init))
  }

  lemma GaplessMore(cuts: seq<Span>, c: Span, exact: bool)
    requires Gapless(cuts, exact) && c.from <= Last(cuts) <= c.to && (exact ==> c.from == Last(cuts))
    ensures Gapless(cuts + [c], exact) && Last(cuts + [c]) == c.to
  {
    assert (cuts + [c])[..|cuts|] == cuts;
  }

  /** A cut that starts later, but within the one before it, ends no earlier: what made the earlier cut end is a space
      that the later one can still choose, or lies before its window, or there was no space to choose. */
  lemma CutEndRises(s: string, size: nat, c: nat, d: nat)
    requires 0 < size && c < d < |s| && d <= CutEnd(s, size, c) < |s|
    ensures CutEnd(s, size, c) <= CutEnd(s, size, d)
  {
    var end := CutEnd(s, size, c);
    var half := Max(size / 2, 1);
    assert end < c + size ==> s[end] == ' ' && c + half <= end;
    assert end == c + size ==> RFindSpace(s, c + half, c + size) == -1;
  }

  lemma CutsUnroll(s: string, size: nat, overlap: nat, cursor: nat, end: nat, done: seq<Span>)
    requires 0 < size && cursor < |s| && end == CutEnd(s, size, cursor)
    ensures done + Cuts(s, size, overlap, cursor)
         == done + [Span(cursor, end)]
            + if end == |s| then [] else Cuts(s, size, overlap, Max(end - overlap, cursor + 1))
  {
    var rest := if end == |s| then [] else Cuts(s, size, overlap, Max(end - overlap, cursor + 1));
    Regroup(done, Span(cursor, end), rest, Cuts(s, size, overlap, cursor));
  }

  lemma Regroup<T>(done: seq<T>, x: T, rest: seq<T>, all: seq<T>)
    requires all == [x] + rest
    ensures done + all == done + [x] + rest
  {
  }

  /** From any cursor the loop cuts the rest of the unit without a gap and without ever ending further left, whatever
      the overlap. */
  lemma {:induction false} CutsGapless(s: string, size: nat, overlap: nat, cursor: nat, done: seq<Span>)
    requires 0 < size && Gapless(done, overlap == 0) && cursor < |s|
    requires cursor <= Last(done) <= CutEnd(s, size, cursor) && (overlap == 0 ==> cursor == Last(done))
    ensures Gapless(done + Cuts(s, size, overlap, cursor), overlap == 0)
    ensures Last(done + Cuts(s, size, overlap, cursor)) == |s|
    decreases |s| - cursor
  {
    var end := CutEnd(s, size, cursor);
    var more := done + [Span(cursor, end)];
    GaplessMore(done, Span(cursor, end), overlap == 0);
    CutsUnroll(s, size, overlap, cursor, end, done);
    if end == |s| {
      assert more + [] == more;
    } else {
      CutEndRises(s, size, cursor, Max(end - overlap, cursor + 1));
      CutsGapless(s, size, overlap, Max(end - overlap, cursor + 1), more);
    }
  }

  lemma {:induction false} CutsShort(s: string, size: nat, overlap: nat, cursor: nat)
    requires 0 < size
    ensures AllShort(Cuts(s, size, overlap, cursor), size)
    decreases |s| - cursor
  {
    if cursor < |s| {
      CutsShort(s, size, overlap, Max(CutEnd(s, size, cursor) - overlap, cursor + 1));
    }
  }

  lemma {:induction false} SegmentsSized(s: string, start: nat, size: nat, cuts: seq<Span>)
    requires AllWithin(cuts, s) && AllShort(cuts, size)
    ensures Sized(SegmentsOf(s, start, cuts), size)
  {
    if cuts != [] {
      SegmentsSized(s, start, size, cuts[..|cuts| - 1]);
    }
  }

  /** A window of s that ends the text so far, seen in the ink. */
  ghost predicate Window(t: string, u: string, a: nat, piece: string) {
    a <= |t| <= |u| && t <= u && u[a..] == piece
  }

  lemma InkWindow(s: string, from: nat, to: nat, reach: nat)
    requires from <= reach <= to <= |s|
    ensures Window(Ink(s[..reach]), Ink(s[..to]), |Ink(s[..from])|, Ink(s[from..to]))
  {
    InkSlice(s, from, to);
    InkSlice(s, from, reach);
    InkSlice(s, reach, to);
  }

  /** One more segment extends what is covered to the end of its cut. */
  lemma SegmentCovers(s: string, start: nat, c: Span, blocks: seq<TextBlock>, reach: nat, exact: bool)
    requires c.Within(s) && c.from <= reach <= c.to && (exact ==> c.from == reach)
    requires Covers(Inks(blocks), Ink(s[..reach]), exact)
    ensures Covers(Inks(AddSegment(s, start, c, blocks)), Ink(s[..c.to]), exact)
  {
    var more := AddSegment(s, start, c, blocks);
    InkWindow(s, c.from, c.to, reach);
    InkOfStrip(s[c.from..c.to]);
    SegmentExtends(Inks(blocks), Inks(more), Ink(s[..reach]), Ink(s[..c.to]), |Ink(s[..c.from])|, exact,
                   Ink(s[c.from..c.to]));
  }

  lemma SegmentExtends(
    before: seq<string>, after: seq<string>, t: string, u: string, a: nat, exact: bool, piece: string)
    requires Covers(before, t, exact) && Window(t, u, a, piece) && (exact ==> a == |t|)
    requires after == before + [piece] || (after == before && piece == "")
    ensures Covers(after, u, exact)
  {
    if after == before + [piece] {
      CoversMore(before, t, u, a, piece, exact);
    } else {
      assert t == u;
    }
  }

  lemma {:induction false} SegmentsCover(s: string, start: nat, cuts: seq<Span>, exact: bool)
    requires AllWithin(cuts, s) && Gapless(cuts, exact)
    ensures Covers(Inks(SegmentsOf(s, start, cuts)), Ink(s[..Last(cuts)]), exact)
  {
    if cuts != [] {
      var init, last := cuts[..|cuts| - 1], cuts[|cuts| - 1];
      SegmentsCover(s, start, init, exact);
      SegmentCovers(s, start, last, SegmentsOf(s, start, init), Last(init), exact);
    }
  }

  lemma CutsReachTheEnd(s: string, size: nat, overlap: nat, cursor: nat, cuts: seq<Span>, none: seq<Span>)
    requires 0 < size && s != "" && cursor == 0 && none == [] && cuts == Cuts(s, size, overlap, cursor)
    ensures Gapless(cuts, overlap == 0) && Last(cuts) == |s|
  {
    assert none + cuts == cuts;
    CutsGapless(s, size, overlap, cursor, none);
  }

  lemma CutsCoverAll(s: string, start: nat, size: nat, overlap: nat)
    requires 0 < size && s != ""
    ensures Covers(Inks(Oversized(s, start, size, overlap)), Ink(s), overlap == 0)
  {
    var cuts := Cuts(s, size, overlap, 0);
    CutsReachTheEnd(s, size, overlap, 0, cuts, []);
    SegmentsCover(s, start, cuts, overlap == 0);
    assert s[..|s|] == s;
  }

  /** Cutting a unit keeps all of it, in pieces of the right size. */
  lemma OversizedCovers(s: string, start: nat, size: nat, overlap: nat)
    requires 0 < size
    ensures Covers(Inks(Oversized(s, start, size, overlap)), Ink(s), overlap == 0)
    ensures Sized(Oversized(s, start, size, overlap), size)
  {
    CutsShort(s, size, overlap, 0);
    SegmentsSized(s, start, size, Cuts(s, size, overlap, 0));
    if s != "" {
      CutsCoverAll(s, start, size, overlap);
    }
  }

  // ---- Packing ----

  function UnitInk(units: seq<TextBlock>): string {
    if units == [] then "" else UnitInk(units[..|units| - 1]) + Ink(units[|units| - 1].content)
  }

  /** The blocks cover t, and the paragraphs that still wait are the rest of the whole. */
  ghost predicate Splits(p: Packing, t: string, whole: string, exact: bool) {
    Covers(Inks(p.blocks), t, exact) && whole == t + Ink(Join(p.parts))
  }

  ghost predicate Covered(p: Packing, whole: string, exact: bool) {
    exists t :: Splits(p, t, whole, exact)
  }

  /** The waiting paragraphs are trimmed and still fit into one block. */
  ghost predicate Fitting(p: Packing, size: nat) {
    && Sized(p.blocks, size) && (forall k :: 0 <= k < |p.parts| ==> Tight(p.parts[k]))
    && |Join(p.parts)| <= size
  }

  lemma CoversAppend(pieces: seq<string>, t: string, w: string, exact: bool)
    requires Covers(pieces, t, exact)
    ensures Covers(pieces + [w], t + w, exact)
  {
    assert (t + w)[|t|..] == w;
    CoversMore(pieces, t, t + w, |t|, w, exact);
  }

  lemma FlushCovers(p: Packing, base: nat, whole: string, exact: bool)
    requires Covered(p, whole, exact)
    ensures Covers(Inks(Flush(p, base).blocks), whole, exact)
  {
    var joined := Join(p.parts);
    var t :| Splits(p, t, whole, exact);
    InkOfStrip(joined);
    if p.parts == [] || Strip(joined) == "" {
      assert t + "" == t;
    } else {
      CoversAppend(Inks(p.blocks), t, Ink(joined), exact);
      InksMore(p.blocks, TextBlock(Strip(joined), |p.blocks|, base + p.start, base + p.end));
    }
  }

  lemma InksMore(blocks: seq<TextBlock>, b: TextBlock)
    ensures Inks(blocks + [b]) == Inks(blocks) + [Ink(b.content)]
  {
  }

  lemma FlushFits(p: Packing, base: nat, size: nat)
    requires Fitting(p, size)
    ensures Fitting(Flush(p, base), size)
  {
    assert Fits(Strip(Join(p.parts)), size) || Strip(Join(p.parts)) == "";
  }

  lemma {:induction false} ExtendInks(blocks: seq<TextBlock>, more: seq<TextBlock>, base: nat)
    ensures Inks(Extend(blocks, more, base)) == Inks(blocks) + Inks(more)
  {
    if more != [] {
      ExtendInks(blocks, more[..|more| - 1], base);
    }
  }

  lemma {:induction false} ExtendFits(blocks: seq<TextBlock>, more: seq<TextBlock>, base: nat, size: nat)
    requires Sized(blocks, size) && Sized(more, size)
    ensures Sized(Extend(blocks, more, base), size)
  {
    if more != [] {
      ExtendFits(blocks, more[..|more| - 1], base, size);
    }
  }

  lemma JoinedInk(parts: seq<string>, content: string)
    ensures Ink(Join(parts + [content])) == Ink(Join(parts)) + Ink(content)
  {
    JoinMore(parts, content);
    if parts == [] {
      assert "" + Ink(content) == Ink(content);
    } else {
      InkJoins(Join(parts), content);
    }
  }

  lemma WaitMore(p: Packing, q: Packing, content: string, whole: string, exact: bool)
    requires Covered(p, whole, exact)
    requires q.blocks == p.blocks && q.parts == p.parts + [content]
    ensures Covered(q, whole + Ink(content), exact)
  {
    var t :| Splits(p, t, whole, exact);
    JoinedInk(p.parts, content);
    assert whole + Ink(content) == t + (Ink(Join(p.parts)) + Ink(content));
    assert Splits(q, t, whole + Ink(content), exact);
  }

  lemma NothingWaits(p: Packing, whole: string, exact: bool)
    requires p.parts == [] && Covers(Inks(p.blocks), whole, exact)
    ensures Covered(p, whole, exact)
  {
    assert whole + "" == whole;
    assert Splits(p, whole, whole, exact);
  }

  lemma OversizedFeeds(p: Packing, u: TextBlock, content: string, size: nat, overlap: nat, base: nat, whole: string)
    requires 0 < size && p.parts == [] && Covers(Inks(p.blocks), whole, overlap == 0)
    ensures var pieces := Oversized(content, u.start, size, overlap);
            Covered(p.(blocks := Extend(p.blocks, pieces, base)), whole + Ink(content), overlap == 0)
  {
    var pieces := Oversized(content, u.start, size, overlap);
    OversizedCovers(content, u.start, size, overlap);
    ExtendInks(p.blocks, pieces, base);
    CoversJoin(Inks(p.blocks), whole, Inks(pieces), Ink(content), overlap == 0);
    NothingWaits(p.(blocks := Extend(p.blocks, pieces, base)), whole + Ink(content), overlap == 0);
  }

  /** Feeding one unit adds exactly its text to what is covered. */
  lemma FeedCovers(p: Packing, u: TextBlock, size: nat, overlap: nat, base: nat, whole: string)
    requires 0 < size && Covered(p, whole, overlap == 0)
    ensures Covered(Feed(p, u, size, overlap, base), whole + Ink(u.content), overlap == 0)
  {
    var content := Strip(u.content);
    InkOfStrip(u.content);
    FlushCovers(p, base, whole, overlap == 0);
    if content == "" {
      assert whole + "" == whole;
    } else if |content| > size {
      OversizedFeeds(Flush(p, base), u, content, size, overlap, base, whole);
    } else if p.parts != [] && JoinedLength(p.parts, content) > size {
      NothingWaits(Flush(p, base), whole, overlap == 0);
      WaitMore(Flush(p, base), Feed(p, u, size, overlap, base), content, whole, overlap == 0);
    } else {
      WaitMore(p, Feed(p, u, size, overlap, base), content, whole, overlap == 0);
    }
  }

  lemma FeedFits(p: Packing, u: TextBlock, size: nat, overlap: nat, base: nat)
    requires 0 < size && Fitting(p, size)
    ensures Fitting(Feed(p, u, size, overlap, base), size)
  {
    var content := Strip(u.content);
    FlushFits(p, base, size);
    if content != "" && |content| > size {
      OversizedCovers(content, u.start, size, overlap);
      ExtendFits(Flush(p, base).blocks, Oversized(content, u.start, size, overlap), base, size);
    } else if content != "" {
      JoinedLengthIsExact(p.parts, content);
      JoinMore([], content);
    }
  }

  lemma {:induction false} FeedAllCovers(units: seq<TextBlock>, size: nat, overlap: nat, base: nat)
    requires 0 < size
    ensures Covered(FeedAll(units, size, overlap, base), UnitInk(units), overlap == 0)
    ensures Fitting(FeedAll(units, size, overlap, base), size)
  {
    if units != [] {
      var init, last := units[..|units| - 1], units[|units| - 1];
      FeedAllCovers(init, size, overlap, base);
      FeedCovers(FeedAll(init, size, overlap, base), last, size, overlap, base, UnitInk(init));
      FeedFits(FeedAll(init, size, overlap, base), last, size, overlap, base);
    } else {
      NothingWaits(FeedAll(units, size, overlap, base), "", overlap == 0);
    }
  }

  // ---- Paragraphs ----

  /** Only white space lies before, and between, the matches. */
  ghost predicate SpaceBetween(s: string, matches: seq<Span>)
    requires AllWithin(matches, s)
  {
    matches == [] ||
    var init, last := matches[..|matches| - 1], matches[|matches| - 1];
    SpaceBetween(s, init) && Last(init) <= last.from && AllSpace(s[Last(init)..last.from])
  }

  lemma SpaceBetweenMore(s: string, matches: seq<Span>, m: Span)
    requires AllWithin(matches, s) && m.Within(s) && SpaceBetween(s, matches)
    requires Last(matches) <= m.from && AllSpace(s[Last(matches)..m.from])
    ensures AllWithin(matches + [m], s) && SpaceBetween(s, matches + [m]) && Last(matches + [m]) == m.to
  {
    assert (matches + [m])[..|matches|] == matches;
  }

  lemma {:induction false} MatchesSkipSpace(s: string, from: nat, done: seq<Span>)
    requires from <= |s| && AllWithin(done, s) && SpaceBetween(s, done) && Last(done) == from
    ensures AllWithin(done + Matches(s, from), s) && SpaceBetween(s, done + Matches(s, from))
    ensures AllSpace(s[Last(done + Matches(s, from))..])
    decreases |s| - from
  {
    var i := SkipSpace(s, from);
    if i == |s| {
      assert done + Matches(s, from) == done;
    } else {
      var m := Span(i, ParagraphEnd(s, i + 1));
      var more := done + [m];
      SpaceBetweenMore(s, done, m);
      MatchesSkipSpace(s, m.to, more);
      MatchesAdvance(s, from, done);
      assert done + Matches(s, from) == more + Matches(s, m.to);
    }
  }

  lemma {:induction false} ParagraphsInk(s: string, matches: seq<Span>)
    requires AllWithin(matches, s) && SpaceBetween(s, matches)
    ensures UnitInk(ParagraphsOf(s, matches)) == Ink(s[..Last(matches)])
  {
    if matches != [] {
      var init, m := matches[..|matches| - 1], matches[|matches| - 1];
      ParagraphsInk(s, init);
      MatchInk(s, Last(init), m);
      AddedInk(s, m, ParagraphsOf(s, init));
    }
  }

  lemma MatchInk(s: string, from: nat, m: Span)
    requires m.Within(s) && from <= m.from && AllSpace(s[from..m.from])
    ensures Ink(s[..m.to]) == Ink(s[..from]) + Ink(s[m.from..m.to])
  {
    InkSlice(s, from, m.from);
    InkOfSpace(s[from..m.from]);
    InkSlice(s, m.from, m.to);
  }

  lemma AddedInk(s: string, m: Span, found: seq<TextBlock>)
    requires m.Within(s)
    ensures UnitInk(AddParagraph(s, m, found)) == UnitInk(found) + Ink(s[m.from..m.to])
  {
    InkOfStrip(s[m.from..m.to]);
    var more := AddParagraph(s, m, found);
    if more != found {
      assert more[..|found|] == found;
    }
  }

  lemma UnitInkMore(units: seq<TextBlock>, u: TextBlock)
    ensures UnitInk(units + [u]) == UnitInk(units) + Ink(u.content)
  {
    assert (units + [u])[..|units|] == units;
  }

  lemma {:induction false} UnitInkSplits(a: seq<TextBlock>, b: seq<TextBlock>)
    ensures UnitInk(a + b) == UnitInk(a) + UnitInk(b)
  {
    if b == [] {
      assert a + b == a;
    } else {
      var init, last := b[..|b| - 1], b[|b| - 1];
      UnitInkSplits(a, init);
      UnitInkJoined(a, init, last, a + b);
    }
  }

  lemma UnitInkJoined(a: seq<TextBlock>, init: seq<TextBlock>, last: TextBlock, whole: seq<TextBlock>)
    requires whole == a + init + [last] && UnitInk(a + init) == UnitInk(a) + UnitInk(init)
    ensures UnitInk(whole) == UnitInk(a) + (UnitInk(init) + Ink(last.content))
  {
    UnitInkMore(a + init, last);
  }

  lemma UnitInkFirst(units: seq<TextBlock>, i: nat)
    requires i < |units|
    ensures UnitInk(units[i..]) == Ink(units[i].content) + UnitInk(units[i + 1..])
  {
    UnitInkMore([], units[i]);
    UnitInkSplits([units[i]], units[i + 1..]);
    assert units[i..] == [units[i]] + units[i + 1..];
  }

  lemma {:induction false} MergingKeepsInk(paragraphs: seq<TextBlock>, heading: Heading, i: nat, merged: seq<TextBlock>)
    requires i <= |paragraphs|
    ensures UnitInk(MergeHeadings(paragraphs, heading, i, merged)) == UnitInk(merged) + UnitInk(paragraphs[i..])
    decreases |paragraphs| - i
  {
    if i == |paragraphs| {
      assert UnitInk(merged) + "" == UnitInk(merged);
    } else if heading(paragraphs[i].content) && i + 1 < |paragraphs| {
      var p, f := paragraphs[i], paragraphs[i + 1];
      var both := Joined(p, f, |merged|);
      MergingKeepsInk(paragraphs, heading, i + 2, merged + [both]);
      UnitInkMore(merged, both);
      InkJoins(p.content, f.content);
      UnitInkFirst(paragraphs, i);
      UnitInkFirst(paragraphs, i + 1);
      Reassociate(UnitInk(merged), Ink(p.content), Ink(f.content), UnitInk(paragraphs[i + 2..]));
    } else {
      var alone := paragraphs[i].(index := |merged|);
      MergingKeepsInk(paragraphs, heading, i + 1, merged + [alone]);
      UnitInkMore(merged, alone);
      UnitInkFirst(paragraphs, i);
      Reassociate(UnitInk(merged), Ink(alone.content), "", UnitInk(paragraphs[i + 1..]));
    }
  }

  lemma Reassociate(a: string, b: string, c: string, d: string)
    ensures a + (b + c) + d == a + (b + (c + d)) && a + b + d == a + (b + d)
  {
  }

  lemma MatchesOfText(s: string)
    ensures SpaceBetween(s, Matches(s, 0)) && Last(Matches(s, 0)) <= |s| && AllSpace(s[Last(Matches(s, 0))..])
  {
    MatchesSkipSpace(s, 0, []);
    assert [] + Matches(s, 0) == Matches(s, 0);
  }

  lemma ParagraphsKeepInk(s: string)
    ensures UnitInk(Paragraphs(s)) == Ink(s)
  {
    var last := Last(Matches(s, 0));
    MatchesOfText(s);
    ParagraphsInk(s, Matches(s, 0));
    InkCut(s, last);
    InkOfSpace(s[last..]);
  }

  lemma UnitsInk(s: string)
    ensures UnitInk(Units(s)) == Ink(s)
  {
    ParagraphsKeepInk(s);
    MergingKeepsInk(Paragraphs(s), IsHeading, 0, []);
    assert Paragraphs(s)[0..] == Paragraphs(s);
  }

  // ---- The whole splitter ----

  lemma NumberedInks(blocks: seq<TextBlock>)
    ensures Inks(Numbered(blocks)) == Inks(blocks)
  {
  }

  /** For any text, size and overlap, negative ones included: the blocks cover the text without a gap, are trimmed,
      not empty and not longer than the size (at least 1), and are numbered from 0. */
  lemma BlocksKeepTheText(s: string, target: int, overlap: int, base: nat)
    ensures var blocks := Blocks(s, target, overlap, base);
            && Covers(Inks(blocks), Ink(s), Overlap(target, overlap) == 0)
            && Sized(blocks, if target < 1 then 1 else target)
            && forall k :: 0 <= k < |blocks| ==> blocks[k].index == k
  {
    var size, effective := Size(target), Overlap(target, overlap);
    var p := FeedAll(Units(s), size, effective, base);
    FeedAllCovers(Units(s), size, effective, base);
    UnitsInk(s);
    FlushCovers(p, base, Ink(s), effective == 0);
    FlushFits(p, base, size);
    NumberedInks(Flush(p, base).blocks);
  }

  /** Around position i, block k shows the visible text of s, from its c-th character on. */
  predicate ShownIn(blocks: seq<TextBlock>, s: string, i: nat, k: nat, c: nat)
    requires i <= |s|
  {
    k < |blocks| && ShowsAround(blocks[k].content, s, i, c)
  }

  ghost predicate Shown(blocks: seq<TextBlock>, s: string, i: nat)
    requires i <= |s|
  {
    exists k: nat, c: nat :: ShownIn(blocks, s, i, k, c)
  }

  /** Around every visible character some block shows the visible text, with that character in it. */
  lemma NoCharacterIsLost(s: string, target: int, overlap: int, base: nat, i: nat)
    requires i < |s| && !IsSpace(s[i])
    ensures Shown(Blocks(s, target, overlap, base), s, i)
  {
    var blocks := Blocks(s, target, overlap, base);
    BlocksKeepTheText(s, target, overlap, base);
    InkOfCharacter(s, i);
    var k, c := CoveredCharacter(Inks(blocks), Ink(s), |Ink(s[..i])|, Overlap(target, overlap) == 0);
    assert ShownIn(blocks, s, i, k, c);
  }

  /** With no overlap nothing is repeated either: the blocks are the text, white space aside. */
  lemma WithoutOverlapTheBlocksAreTheText(s: string, target: int, overlap: int, base: nat)
    requires overlap <= 0 || target <= 1
    ensures Flatten(Inks(Blocks(s, target, overlap, base))) == Ink(s)
  {
    BlocksKeepTheText(s, target, overlap, base);
    ExactCoverConcatenates(Inks(Blocks(s, target, overlap, base)), Ink(s));
  }

  /** The same position, in a block that shows the text around it. */
  lemma PositionWithin(outer: string, s: string, i: nat, from: nat) returns (at: nat)
    requires i <= |s| && ShowsAround(outer, s, i, from)
    ensures at < |outer| && !IsSpace(outer[at]) && |Ink(outer[..at])| == |Ink(s[..i])| - from
  {
    at := InkPosition(outer, |Ink(s[..i])| - from);
  }

  lemma ShownThrough(children: seq<TextBlock>, outer: string, s: string, i: nat, from: nat, at: nat)
    requires i <= |s| && ShowsAround(outer, s, i, from)
    requires at <= |outer| && |Ink(outer[..at])| == |Ink(s[..i])| - from && Shown(children, outer, at)
    ensures Shown(children, s, i)
  {
    var k: nat, d: nat :| ShownIn(children, outer, at, k, d);
    ShowsThrough(children[k].content, outer, s, i, from, at, d);
    assert ShownIn(children, s, i, k, from + d);
  }

  lemma ChildAround(parent: TextBlock, document: string, size: int, overlap: int, i: nat, from: nat)
    requires i <= |document| && ShowsAround(parent.content, document, i, from)
    ensures Shown(Children(parent, size, overlap), document, i)
  {
    var at := PositionWithin(parent.content, document, i, from);
    NoCharacterIsLost(parent.content, size, overlap, parent.start, at);
    ShownThrough(Children(parent, size, overlap), parent.content, document, i, from, at);
  }

  /** Both levels together: around every visible character of the document some child of some parent shows the
      document's visible text. */
  lemma ChildrenKeepTheDocument(
    document: string, size: int, overlap: int, childSize: int, childOverlap: int, i: nat) returns (j: nat)
    requires i < |document| && !IsSpace(document[i])
    ensures var parents := Parents(document, size, overlap);
            j < |parents| && Shown(Children(parents[j], childSize, childOverlap), document, i)
  {
    NoCharacterIsLost(document, size, overlap, 0, i);
    var parents := Parents(document, size, overlap);
    var p: nat, from: nat :| ShownIn(parents, document, i, p, from);
    j := p;
    ChildAround(parents[j], document, childSize, childOverlap, i, from);
  }
}
