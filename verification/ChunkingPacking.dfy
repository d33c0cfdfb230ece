/** How the splitters group a text before they cut it: which paragraphs form a unit, and that no two neighbouring blocks
    would have fitted into one. */
module ChunkingPacking {
  import opened Common
  import opened Text
  import opened HierarchicalChunking
  import opened ChunkingCoverage
  import opened ChunkingOffsets

  // ---- Headings ----

  /** The unit is this paragraph alone; one that starts with # stands alone only at the end. */
  predicate AloneAt(paragraphs: seq<TextBlock>, u: TextBlock, i: nat) {
    && i < |paragraphs| && u.content == paragraphs[i].content
    && u.start == paragraphs[i].start && u.end == paragraphs[i].end
    && (u.content != "" && u.content[0] == '#' ==> i + 1 == |paragraphs|)
  }

  /** The unit is a paragraph that starts with # and the one after it. */
  predicate PairAt(paragraphs: seq<TextBlock>, u: TextBlock, i: nat) {
    && i + 1 < |paragraphs| && paragraphs[i].content != "" && paragraphs[i].content[0] == '#'
    && u.content == paragraphs[i].content + "\n\n" + paragraphs[i + 1].content
    && u.start == paragraphs[i].start && u.end == paragraphs[i + 1].end
  }

  ghost predicate Grouped(paragraphs: seq<TextBlock>, units: seq<TextBlock>) {
    forall k :: 0 <= k < |units| ==> GroupedAs(paragraphs, units[k])
  }

  ghost predicate GroupedAs(paragraphs: seq<TextBlock>, u: TextBlock) {
    exists i: nat :: AloneAt(paragraphs, u, i) || PairAt(paragraphs, u, i)
  }

  /** The paragraphs' own heading test: their first character. */
  predicate Leads(paragraphs: seq<TextBlock>, heading: Heading) {
    forall i :: 0 <= i < |paragraphs| ==>
      paragraphs[i].content != "" && (heading(paragraphs[i].content) <==> paragraphs[i].content[0] == '#')
  }

  lemma {:induction false} MergingGroups(paragraphs: seq<TextBlock>, heading: Heading, i: nat, merged: seq<TextBlock>)
    requires Leads(paragraphs, heading) && Grouped(paragraphs, merged)
    ensures Grouped(paragraphs, MergeHeadings(paragraphs, heading, i, merged))
    decreases |paragraphs| - i
  {
    if i < |paragraphs| {
      if heading(paragraphs[i].content) && i + 1 < |paragraphs| {
        var both := Joined(paragraphs[i], paragraphs[i + 1], |merged|);
        assert PairAt(paragraphs, both, i);
        GroupedMore(paragraphs, merged, both);
        MergingGroups(paragraphs, heading, i + 2, merged + [both]);
      } else {
        var alone := paragraphs[i].(index := |merged|);
        assert AloneAt(paragraphs, alone, i);
        GroupedMore(paragraphs, merged, alone);
        MergingGroups(paragraphs, heading, i + 1, merged + [alone]);
      }
    }
  }

  lemma GroupedMore(paragraphs: seq<TextBlock>, units: seq<TextBlock>, u: TextBlock)
    requires Grouped(paragraphs, units) && GroupedAs(paragraphs, u)
    ensures Grouped(paragraphs, units + [u])
  {
  }

  lemma {:induction false} ApartAreTight(s: string, units: seq<TextBlock>, k: nat)
    requires Apart(s, units) && k < |units|
    ensures Tight(units[k].content)
  {
    if k < |units| - 1 {
      ApartAreTight(s, units[..|units| - 1], k);
    }
  }

  /** In any text, a unit is a paragraph, or a paragraph that starts with # and the one after it; a paragraph that
      starts with # is a unit of its own only when it is the last. */
  lemma HeadingsLead(s: string)
    ensures Grouped(Paragraphs(s), Units(s))
  {
    var paragraphs := Paragraphs(s);
    ParagraphsOfTextApart(s);
    forall i | 0 <= i < |paragraphs|
      ensures paragraphs[i].content != "" && (IsHeading(paragraphs[i].content) <==> paragraphs[i].content[0] == '#') {
      ApartAreTight(s, paragraphs, i);
      HeadingStartsWithHash(paragraphs[i].content);
    }
    MergingGroups(paragraphs, IsHeading, 0, []);
  }

  // ---- Greedy packing ----

  /** The block was cut from a unit that is longer than the size. */
  predicate CutFrom(u: TextBlock, b: TextBlock, size: nat, base: nat) {
    |Strip(u.content)| > size && base + u.start <= b.start && b.end <= base + u.start + |Strip(u.content)|
  }

  ghost predicate OfOversized(units: seq<TextBlock>, b: TextBlock, size: nat, base: nat) {
    exists j :: 0 <= j < |units| && CutFrom(units[j], b, size, base)
  }

  /** A blank line between them, the two blocks would be longer than the size; or one of them was cut from a unit that
      is. */
  ghost predicate ApartAt(units: seq<TextBlock>, size: nat, base: nat, blocks: seq<TextBlock>, k: nat)
    requires k + 1 < |blocks|
  {
    || |blocks[k].content| + 2 + |blocks[k + 1].content| > size
    || OfOversized(units, blocks[k], size, base) || OfOversized(units, blocks[k + 1], size, base)
  }

  ghost predicate Greedy(units: seq<TextBlock>, size: nat, base: nat, blocks: seq<TextBlock>) {
    forall k: nat {:trigger ApartAt(units, size, base, blocks, k)} :: k + 1 < |blocks| ==>
      ApartAt(units, size, base, blocks, k)
  }

  lemma GreedyMore(units: seq<TextBlock>, size: nat, base: nat, blocks: seq<TextBlock>, b: TextBlock)
    requires Greedy(units, size, base, blocks)
    requires blocks != [] ==> OfOversized(units, b, size, base)
                              || OfOversized(units, blocks[|blocks| - 1], size, base)
                              || |blocks[|blocks| - 1].content| + 2 + |b.content| > size
    ensures Greedy(units, size, base, blocks + [b])
  {
    var more := blocks + [b];
    forall k: nat {:trigger ApartAt(units, size, base, more, k)} | k + 1 < |more|
      ensures ApartAt(units, size, base, more, k) {
      assert k + 1 < |blocks| ==> ApartAt(units, size, base, blocks, k);
    }
  }

  /** The paragraphs that wait would not have fitted into the last block. */
  ghost predicate Waits(units: seq<TextBlock>, size: nat, base: nat, p: Packing) {
    && Greedy(units, size, base, p.blocks) && AllTight(p.parts)
    && (p.blocks != [] ==>
          var last := p.blocks[|p.blocks| - 1];
          || OfOversized(units, last, size, base)
          || (p.parts != [] && |last.content| + 2 + |Join(p.parts)| > size))
  }

  lemma JoinStays(parts: seq<string>)
    requires parts != [] && AllTight(parts)
    ensures Strip(Join(parts)) == Join(parts) != ""
  {
    JoinTight(parts);
    StripTight(Join(parts));
  }

  lemma FlushGreedy(units: seq<TextBlock>, size: nat, base: nat, p: Packing)
    requires Waits(units, size, base, p)
    ensures Greedy(units, size, base, Flush(p, base).blocks)
    ensures p.parts != [] ==> var q := Flush(p, base).blocks; q != [] && q[|q| - 1].content == Join(p.parts)
    ensures p.parts == [] ==> Flush(p, base).blocks == p.blocks
  {
    if p.parts != [] {
      JoinStays(p.parts);
      var b := TextBlock(Join(p.parts), |p.blocks|, base + p.start, base + p.end);
      assert Flush(p, base).blocks == p.blocks + [b];
      GreedyMore(units, size, base, p.blocks, b);
    }
  }

  lemma {:induction false} SegmentsWithin(s: string, start: nat, cuts: seq<Span>, k: nat)
    requires AllWithin(cuts, s) && k < |SegmentsOf(s, start, cuts)|
    ensures var b := SegmentsOf(s, start, cuts)[k]; start <= b.start && b.end <= start + |s|
  {
    var init := cuts[..|cuts| - 1];
    if k < |SegmentsOf(s, start, init)| {
      SegmentsWithin(s, start, init, k);
    }
  }

  /** The piece lies in the first n characters after the start. */
  predicate InsideOf(piece: TextBlock, start: nat, n: nat) { start <= piece.start && piece.end <= start + n }

  /** A unit of n characters after the start, more than the size, is among the units. */
  ghost predicate LongUnit(units: seq<TextBlock>, size: nat, start: nat, n: nat) {
    n > size && exists j :: 0 <= j < |units| && units[j].start == start && |Strip(units[j].content)| == n
  }

  lemma {:induction false} ExtendGreedy(units: seq<TextBlock>, size: nat, base: nat, blocks: seq<TextBlock>,
                                        more: seq<TextBlock>, start: nat, n: nat)
    requires Greedy(units, size, base, blocks) && LongUnit(units, size, start, n)
    requires forall k :: 0 <= k < |more| ==> InsideOf(more[k], start, n)
    ensures Extended(units, size, base, blocks, more, Extend(blocks, more, base))
  {
    if more != [] {
      var init, last := more[..|more| - 1], more[|more| - 1];
      assert more == init + [last] && InsideOf(last, start, n);
      ExtendGreedy(units, size, base, blocks, init, start, n);
      OnePieceMore(units, size, base, blocks, init, last, more, start, n);
    }
  }

  ghost predicate Extended(units: seq<TextBlock>, size: nat, base: nat, blocks: seq<TextBlock>, more: seq<TextBlock>,
                           r: seq<TextBlock>)
  {
    && Greedy(units, size, base, r) && |r| == |blocks| + |more|
    && (more != [] ==> OfOversized(units, r[|r| - 1], size, base))
  }

  lemma OnePieceMore(units: seq<TextBlock>, size: nat, base: nat, blocks: seq<TextBlock>, init: seq<TextBlock>,
                     last: TextBlock, more: seq<TextBlock>, start: nat, n: nat)
    requires Extended(units, size, base, blocks, init, Extend(blocks, init, base)) && more == init + [last]
    requires LongUnit(units, size, start, n) && InsideOf(last, start, n)
    ensures Extended(units, size, base, blocks, more, Extend(blocks, more, base))
  {
    var r := Extend(blocks, init, base);
    var b := TextBlock(last.content, |r| + |more| - 1, base + last.start, base + last.end);
    ExtendUnrolls(blocks, init, last, more, base, r, b);
    PieceOfOversized(units, size, base, b, start, n);
    ExtendedMore(units, size, base, blocks, init, last, more, r, b);
  }

  lemma ExtendUnrolls(blocks: seq<TextBlock>, init: seq<TextBlock>, last: TextBlock, more: seq<TextBlock>, base: nat,
                      r: seq<TextBlock>, b: TextBlock)
    requires more == init + [last] && r == Extend(blocks, init, base)
    requires b == TextBlock(last.content, |r| + |more| - 1, base + last.start, base + last.end)
    ensures Extend(blocks, more, base) == r + [b]
  {
    assert more[..|more| - 1] == init;
  }

  lemma ExtendedMore(units: seq<TextBlock>, size: nat, base: nat, blocks: seq<TextBlock>, init: seq<TextBlock>,
                     last: TextBlock, more: seq<TextBlock>, r: seq<TextBlock>, b: TextBlock)
    requires Extended(units, size, base, blocks, init, r) && more == init + [last] && OfOversized(units, b, size, base)
    ensures Extended(units, size, base, blocks, more, r + [b])
  {
    GreedyMore(units, size, base, r, b);
  }

  lemma PieceOfOversized(units: seq<TextBlock>, size: nat, base: nat, b: TextBlock, start: nat, n: nat)
    requires LongUnit(units, size, start, n) && base + start <= b.start && b.end <= base + start + n
    ensures OfOversized(units, b, size, base)
  {
    var j :| 0 <= j < |units| && units[j].start == start && |Strip(units[j].content)| == n;
    assert CutFrom(units[j], b, size, base);
  }

  lemma OversizedGreedy(units: seq<TextBlock>, size: nat, overlap: nat, base: nat, p: Packing, j: nat)
    requires 0 < size && Waits(units, size, base, p) && j < |units| && |Strip(units[j].content)| > size
    ensures Waits(units, size, base, Feed(p, units[j], size, overlap, base))
  {
    var content, start := Strip(units[j].content), units[j].start;
    var pieces, q := Oversized(content, start, size, overlap), Flush(p, base);
    FlushGreedy(units, size, base, p);
    forall k | 0 <= k < |pieces| ensures InsideOf(pieces[k], start, |content|) {
      SegmentsWithin(content, start, Cuts(content, size, overlap, 0), k);
    }
    assert LongUnit(units, size, start, |content|);
    ExtendGreedy(units, size, base, q.blocks, pieces, start, |content|);
    OversizedCovers(content, start, size, overlap);
    StripIsVisible(units[j].content);
  }

  lemma StripIsVisible(s: string)
    requires Strip(s) != ""
    ensures Ink(Strip(s)) != "" && Tight(Strip(s))
  {
    InkOfCharacter(Strip(s), 0);
  }

  lemma JoinTwo(parts: seq<string>, content: string)
    requires parts != []
    ensures |Join(parts + [content])| == |Join(parts)| + 2 + |content| == JoinedLength(parts, content)
  {
    JoinMore(parts, content);
    JoinedLengthIsExact(parts, content);
  }

  lemma FeedGreedy(units: seq<TextBlock>, size: nat, overlap: nat, base: nat, p: Packing, j: nat)
    requires 0 < size && Waits(units, size, base, p) && j < |units|
    ensures Waits(units, size, base, Feed(p, units[j], size, overlap, base))
  {
    var content := Strip(units[j].content);
    if content == "" {
    } else if |content| > size {
      OversizedGreedy(units, size, overlap, base, p, j);
    } else {
      StripIsVisible(units[j].content);
      var q := Feed(p, units[j], size, overlap, base);
      if p.parts != [] && JoinedLength(p.parts, content) <= size {
        AppendGreedy(units, size, base, p, content, q);
      } else {
        FlushGreedy(units, size, base, p);
        StartGreedy(units, size, base, p, content, q);
      }
    }
  }

  lemma AppendGreedy(units: seq<TextBlock>, size: nat, base: nat, p: Packing, content: string, q: Packing)
    requires Waits(units, size, base, p) && Tight(content) && p.parts != []
    requires q.blocks == p.blocks && q.parts == p.parts + [content]
    ensures Waits(units, size, base, q)
  {
    JoinTwo(p.parts, content);
  }

  lemma StartGreedy(units: seq<TextBlock>, size: nat, base: nat, p: Packing, content: string, q: Packing)
    requires Waits(units, size, base, p) && Tight(content) && Greedy(units, size, base, q.blocks)
    requires q.parts == [] + [content]
    requires if p.parts == [] then q.blocks == p.blocks
             else JoinedLength(p.parts, content) > size && q.blocks != []
                  && q.blocks[|q.blocks| - 1].content == Join(p.parts)
    ensures Waits(units, size, base, q)
  {
    JoinMore([], content);
    if p.parts != [] {
      JoinTwo(p.parts, content);
    }
  }

  lemma {:induction false} AllFedGreedy(units: seq<TextBlock>, size: nat, overlap: nat, base: nat, k: nat)
    requires 0 < size && k <= |units|
    ensures Waits(units, size, base, FeedAll(units[..k], size, overlap, base))
  {
    if k > 0 {
      AllFedGreedy(units, size, overlap, base, k - 1);
      assert units[..k][..k - 1] == units[..k - 1];
      FeedGreedy(units, size, overlap, base, FeedAll(units[..k - 1], size, overlap, base), k - 1);
    }
  }

  /** The blocks of any text: two neighbours, with a blank line between them, would be longer than the size, unless one
      of them was cut from a unit that is. The size is at least 1. */
  lemma BlocksAreGreedy(s: string, target: int, overlap: int, base: nat, k: nat)
    requires k + 1 < |Blocks(s, target, overlap, base)|
    ensures ApartAt(Units(s), if target < 1 then 1 else target, base, Blocks(s, target, overlap, base), k)
  {
    var units, size := Units(s), Size(target);
    var p := FeedAll(units, size, Overlap(target, overlap), base);
    AllFedGreedy(units, size, Overlap(target, overlap), base, |units|);
    assert units[..|units|] == units;
    FlushGreedy(units, size, base, p);
    var blocks := Flush(p, base).blocks;
    assert ApartAt(units, size, base, blocks, k);
    SameBlockButNumber(units, blocks[k], Numbered(blocks)[k], size, base);
    SameBlockButNumber(units, blocks[k + 1], Numbered(blocks)[k + 1], size, base);
  }

  lemma SameBlockButNumber(units: seq<TextBlock>, b: TextBlock, c: TextBlock, size: nat, base: nat)
    requires c == b.(index := c.index)
    ensures OfOversized(units, b, size, base) ==> OfOversized(units, c, size, base)
  {
    if OfOversized(units, b, size, base) {
      var j :| 0 <= j < |units| && CutFrom(units[j], b, size, base);
      assert CutFrom(units[j], c, size, base);
    }
  }
}
