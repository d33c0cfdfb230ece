/** Spans: in a normalised text every visible position lies between the offsets of some block, through both levels. */
module ChunkingSpans {
  import opened Common
  import opened Text
  import opened HierarchicalChunking
  import opened ChunkingCoverage
  import opened ChunkingOffsets

  predicate Holds(b: TextBlock, at: nat) { b.start <= at < b.end }

  predicate Held(blocks: seq<TextBlock>, at: nat) {
    exists k :: 0 <= k < |blocks| && Holds(blocks[k], at)
  }

  lemma HeldMore(blocks: seq<TextBlock>, b: TextBlock, more: seq<TextBlock>, at: nat)
    requires more == blocks + [b] && (Held(blocks, at) || Holds(b, at))
    ensures Held(more, at)
  {
    if Held(blocks, at) {
      var k :| 0 <= k < |blocks| && Holds(blocks[k], at);
      assert Holds(more[k], at);
    } else {
      assert Holds(more[|blocks|], at);
    }
  }

  // ---- Paragraphs and units ----

  /** Whatever the text, a visible position before the end of the matches is in the paragraph of its match. */
  lemma {:induction false} ParagraphsHold(s: string, matches: seq<Span>, at: nat)
    requires AllWithin(matches, s) && MatchChain(s, matches)
    requires at < Last(matches) && at < |s| && !IsSpace(s[at])
    ensures Held(ParagraphsOf(s, matches), at)
  {
    if matches != [] {
      var init, m := matches[..|matches| - 1], matches[|matches| - 1];
      var found := ParagraphsOf(s, init);
      var more := AddParagraph(s, m, found);
      if at < Last(init) {
        ParagraphsHold(s, init, at);
      } else {
        MatchHolds(s, m, found, Last(init), at);
      }
      ParagraphOfMatch(s, m, found);
      HeldMore(found, more[|found|], more, at);
    }
  }

  lemma SpaceWithin(s: string, from: nat, to: nat, at: nat)
    requires from <= at < to <= |s| && AllSpace(s[from..to])
    ensures IsSpace(s[at])
  {
    assert s[from..to][at - from] == s[at];
  }

  lemma OutsideSpace(s: string, from: nat, to: nat, at: nat)
    requires from <= to <= |s| && AllSpace(s[from..to]) && at < |s| && !IsSpace(s[at])
    ensures at < from || to <= at
  {
    if from <= at < to {
      SpaceWithin(s, from, to, at);
    }
  }

  lemma BeforeTail(s: string, from: nat, at: nat)
    requires from <= |s| && AllSpace(s[from..]) && at < |s| && !IsSpace(s[at])
    ensures at < from
  {
    assert s[from..|s|] == s[from..];
    OutsideSpace(s, from, |s|, at);
  }

  lemma MatchHolds(s: string, m: Span, found: seq<TextBlock>, last: nat, at: nat)
    requires m.Within(s) && m.from < m.to && !IsSpace(s[m.from]) && last <= m.from && AllSpace(s[last..m.from])
    requires last <= at < m.to && !IsSpace(s[at])
    ensures |AddParagraph(s, m, found)| == |found| + 1 && Holds(AddParagraph(s, m, found)[|found|], at)
  {
    ParagraphOfMatch(s, m, found);
    var u := AddParagraph(s, m, found)[|found|];
    OutsideSpace(s, last, m.from, at);
    OutsideSpace(s, u.end, m.to, at);
  }

  lemma ParagraphsOfTextHold(s: string, at: nat)
    requires at < |s| && !IsSpace(s[at])
    ensures Held(Paragraphs(s), at)
  {
    var matches := Matches(s, 0);
    MatchesChain(s, 0, []);
    assert [] + matches == matches;
    MatchesOfText(s);
    BeforeTail(s, Last(matches), at);
    ParagraphsHold(s, matches, at);
  }

  /** Merging keeps a position held: by what is merged, or by a paragraph still to come. */
  lemma {:induction false} MergingHolds(
    s: string, paragraphs: seq<TextBlock>, heading: Heading, i: nat, merged: seq<TextBlock>, k: nat, at: nat)
    requires Snug(s, paragraphs) && i <= |paragraphs|
    requires Held(merged, at) || (i <= k < |paragraphs| && Holds(paragraphs[k], at))
    ensures Held(MergeHeadings(paragraphs, heading, i, merged), at)
    decreases |paragraphs| - i
  {
    if i < |paragraphs| {
      var p := paragraphs[i];
      if heading(p.content) && i + 1 < |paragraphs| {
        var both := Joined(p, paragraphs[i + 1], |merged|);
        assert LinkedAt(s, paragraphs, i) && LinkedAt(s, paragraphs, i + 1);
        assert k == i || k == i + 1 ==> Holds(paragraphs[k], at) ==> Holds(both, at);
        if Held(merged, at) || Holds(both, at) {
          HeldMore(merged, both, merged + [both], at);
        }
        MergingHolds(s, paragraphs, heading, i + 2, merged + [both], k, at);
      } else {
        var alone := p.(index := |merged|);
        if Held(merged, at) || Holds(alone, at) {
          HeldMore(merged, alone, merged + [alone], at);
        }
        MergingHolds(s, paragraphs, heading, i + 1, merged + [alone], k, at);
      }
    }
  }

  lemma UnitsHold(s: string, at: nat)
    requires Normalised(s) && at < |s| && !IsSpace(s[at])
    ensures Held(Units(s), at)
  {
    ParagraphsOfTextHold(s, at);
    ParagraphsOfTextApart(s);
    ApartIsSnug(s, Paragraphs(s));
    var k: nat :| k < |Paragraphs(s)| && Holds(Paragraphs(s)[k], at);
    MergingHolds(s, Paragraphs(s), IsHeading, 0, [], k, at);
  }

  // ---- Oversized units ----

  /** A visible position of a cut lies in its trimmed segment. */
  lemma SegmentHolds(s: string, start: nat, c: Span, blocks: seq<TextBlock>, at: nat)
    requires c.Within(s) && at < |s| && !IsSpace(s[at])
    requires Held(blocks, start + at) || c.from <= at < c.to
    ensures Held(AddSegment(s, start, c, blocks), start + at)
  {
    var more := AddSegment(s, start, c, blocks);
    var raw := s[c.from..c.to];
    assert c.from <= at < c.to ==> raw[at - c.from] == s[at];
    if more != blocks {
      HeldMore(blocks, more[|blocks|], more, start + at);
    }
  }

  lemma {:induction false} SegmentsHold(s: string, start: nat, cuts: seq<Span>, exact: bool, at: nat)
    requires AllWithin(cuts, s) && Gapless(cuts, exact) && at < Last(cuts) && at < |s| && !IsSpace(s[at])
    ensures Held(SegmentsOf(s, start, cuts), start + at)
  {
    if cuts != [] {
      var init, last := cuts[..|cuts| - 1], cuts[|cuts| - 1];
      if at < Last(init) {
        SegmentsHold(s, start, init, exact, at);
      }
      SegmentHolds(s, start, last, SegmentsOf(s, start, init), at);
    }
  }

  lemma OversizedHolds(s: string, start: nat, size: nat, overlap: nat, at: nat)
    requires 0 < size && at < |s| && !IsSpace(s[at])
    ensures Held(Oversized(s, start, size, overlap), start + at)
  {
    var cuts := Cuts(s, size, overlap, 0);
    CutsReachTheEnd(s, size, overlap, 0, cuts, []);
    SegmentsHold(s, start, cuts, overlap == 0, at);
  }

  // ---- Packing ----

  lemma {:induction false} ExtendHolds(blocks: seq<TextBlock>, more: seq<TextBlock>, base: nat, at: nat)
    requires Held(blocks, base + at) || Held(more, at)
    ensures Held(Extend(blocks, more, base), base + at)
  {
    if more != [] {
      var last, init := more[|more| - 1], more[..|more| - 1];
      if Held(more, at) {
        var k :| 0 <= k < |more| && Holds(more[k], at);
        assert k < |init| ==> Holds(init[k], at);
      }
      if Held(blocks, base + at) || Held(init, at) {
        ExtendHolds(blocks, init, base, at);
      }
      var done, all := Extend(blocks, init, base), Extend(blocks, more, base);
      HeldMore(done, all[|done|], all, base + at);
    }
  }

  /** A position is in a block, or in the paragraphs that wait. */
  predicate Packed(p: Packing, base: nat, at: nat) {
    Held(p.blocks, base + at) || (p.parts != [] && p.start <= at < p.end)
  }

  lemma FlushHolds(p: Packing, s: string, base: nat, end: nat, at: nat)
    requires Waiting(p, s, base, end) && Packed(p, base, at)
    ensures Held(Flush(p, base).blocks, base + at)
  {
    if p.parts != [] {
      JoinTight(p.parts);
      StripTight(Join(p.parts));
      var q := Flush(p, base);
      HeldMore(p.blocks, q.blocks[|p.blocks|], q.blocks, base + at);
    }
  }

  lemma CutUnitHolds(blocks: seq<TextBlock>, u: TextBlock, size: nat, overlap: nat, base: nat, s: string, at: nat)
    requires 0 < size && Exact(u, s) && at < |s| && !IsSpace(s[at]) && (Held(blocks, base + at) || Holds(u, at))
    ensures Held(Extend(blocks, Oversized(u.content, u.start, size, overlap), base), base + at)
  {
    if Holds(u, at) {
      assert u.content[at - u.start] == s[at];
      OversizedHolds(u.content, u.start, size, overlap, at - u.start);
    }
    ExtendHolds(blocks, Oversized(u.content, u.start, size, overlap), base, at);
  }

  lemma FeedHolds(p: Packing, u: TextBlock, size: nat, overlap: nat, base: nat, s: string, end: nat, at: nat)
    requires 0 < size && Waiting(p, s, base, end) && Exact(u, s) && (p.parts != [] ==> end <= u.start)
    requires at < |s| && !IsSpace(s[at]) && (Packed(p, base, at) || Holds(u, at))
    ensures Packed(Feed(p, u, size, overlap, base), base, at)
  {
    StripTight(u.content);
    var q := Flush(p, base);
    if Packed(p, base, at) {
      FlushHolds(p, s, base, end, at);
    }
    if |u.content| > size {
      CutUnitHolds(q.blocks, u, size, overlap, base, s, at);
    } else if p.parts != [] && JoinedLength(p.parts, u.content) > size {
      assert Feed(p, u, size, overlap, base) == Packing(q.blocks, [u.content], u.start, u.end);
    } else {
      assert Feed(p, u, size, overlap, base)
          == Packing(p.blocks, p.parts + [u.content], if p.parts == [] then u.start else p.start, u.end);
    }
  }

  lemma {:induction false} FeedAllHolds(
    units: seq<TextBlock>, size: nat, overlap: nat, base: nat, s: string, at: nat)
    requires 0 < size && Snug(s, units) && at < |s| && !IsSpace(s[at]) && Held(units, at)
    ensures Packed(FeedAll(units, size, overlap, base), base, at)
  {
    var init, last := units[..|units| - 1], units[|units| - 1];
    var k :| 0 <= k < |units| && Holds(units[k], at);
    SnugPart(s, units);
    FeedAllFaithful(init, size, overlap, base, s);
    if k < |init| {
      assert Holds(init[k], at);
      FeedAllHolds(init, size, overlap, base, s, at);
    }
    FeedHolds(FeedAll(init, size, overlap, base), last, size, overlap, base, s, End(init), at);
  }

  // ---- Both levels ----

  lemma NumberedHolds(blocks: seq<TextBlock>, at: nat)
    requires Held(blocks, at)
    ensures Held(Numbered(blocks), at)
  {
    var k :| 0 <= k < |blocks| && Holds(blocks[k], at);
    assert Holds(Numbered(blocks)[k], at);
  }

  lemma PackedHolds(units: seq<TextBlock>, size: nat, overlap: nat, base: nat, s: string, at: nat)
    requires 0 < size && Snug(s, units) && at < |s| && !IsSpace(s[at]) && Held(units, at)
    ensures Held(Flush(FeedAll(units, size, overlap, base), base).blocks, base + at)
  {
    FeedAllHolds(units, size, overlap, base, s, at);
    FeedAllFaithful(units, size, overlap, base, s);
    FlushHolds(FeedAll(units, size, overlap, base), s, base, End(units), at);
  }

  /** In a normalised text every visible position lies in some block's span. */
  lemma BlocksHold(s: string, target: int, overlap: int, base: nat, at: nat)
    requires Normalised(s) && at < |s| && !IsSpace(s[at])
    ensures Held(Blocks(s, target, overlap, base), base + at)
  {
    var size, effective := Size(target), Overlap(target, overlap);
    UnitsSnug(s);
    UnitsHold(s, at);
    PackedHolds(Units(s), size, effective, base, s, at);
    NumberedHolds(Flush(FeedAll(Units(s), size, effective, base), base).blocks, base + at);
  }

  lemma ChildrenHold(parent: TextBlock, document: string, size: int, overlap: int, at: nat)
    requires Normalised(document) && Faithful(parent, document, 0) && Holds(parent, at) && !IsSpace(document[at])
    ensures Held(Children(parent, size, overlap), at)
  {
    NormalisedSlice(document, parent.start, parent.end);
    assert parent.content[at - parent.start] == document[at];
    BlocksHold(parent.content, size, overlap, parent.start, at - parent.start);
  }

  /** In a normalised document, for every size and overlap of both levels, every visible position lies between the
      recorded offsets of some child of a parent that holds it too. */
  lemma EveryPositionIsInAChild(
    document: string, size: int, overlap: int, childSize: int, childOverlap: int, at: nat) returns (j: nat)
    requires Normalised(document) && at < |document| && !IsSpace(document[at])
    ensures var parents := Parents(document, size, overlap);
            j < |parents| && Holds(parents[j], at) && Held(Children(parents[j], childSize, childOverlap), at)
  {
    var parents := Parents(document, size, overlap);
    BlocksHold(document, size, overlap, 0, at);
    BlocksAreFaithful(document, size, overlap, 0);
    var k: nat :| k < |parents| && Holds(parents[k], at);
    ChildrenHold(parents[k], document, childSize, childOverlap, at);
    j := k;
  }
}
