/** app/rag/hierarchical_chunking.py: documents into parent blocks, parent blocks into child chunks. */
module HierarchicalChunking {
  import opened Common
  import opened Text

  datatype TextBlock = TextBlock(content: string, index: nat, start: nat, end: nat)

  datatype Span = Span(from: nat, to: nat) {
    predicate Within(s: string) { from <= to <= |s| }
    predicate Short(size: nat) { to - from <= size }
  }

  /** The k-th element of a list whose rest from k on is known. */
  lemma Taken<T>(all: seq<T>, k: nat, x: T, rest: seq<T>)
    requires k <= |all| && all[k..] == [x] + rest
    ensures k < |all| && all[..k + 1] == all[..k] + [x] && all[k + 1..] == rest
    ensures rest == [] ==> all[..k + 1] == all
  {
    assert all[k..][0] == x && all[k + 1..] == all[k..][1..];
  }

  predicate AllShort(spans: seq<Span>, size: nat) { forall k :: 0 <= k < |spans| ==> spans[k].Short(size) }

  predicate AllWithin(spans: seq<Span>, s: string) { forall k :: 0 <= k < |spans| ==> spans[k].Within(s) }

  function Contents(blocks: seq<TextBlock>): (r: seq<string>)
    ensures |r| == |blocks| && forall k :: 0 <= k < |r| ==> r[k] == blocks[k].content
  {
    seq(|blocks|, k requires 0 <= k < |blocks| => blocks[k].content)
  }

  // ---- Paragraphs ----

  /** A blank line begins at p: a line break, then white space holding another line break. */
  predicate SeparatorAt(s: string, p: nat) {
    && p < |s|
    && ((s[p] == '\n' && BreakFollows(s, p + 1))
        || (s[p] == '\r' && p + 1 < |s| && s[p + 1] == '\n' && BreakFollows(s, p + 2)))
  }

  /** White space from i on reaches a line feed. */
  predicate BreakFollows(s: string, i: nat)
    decreases |s| - i
  {
    i < |s| && (s[i] == '\n' || (IsSpace(s[i]) && BreakFollows(s, i + 1)))
  }

  /** Where the lazy match that has reached p ends: at the first blank line, or at the end of the text. */
  function ParagraphEnd(s: string, p: nat): (e: nat)
    requires p <= |s|
    ensures p <= e <= |s|
    decreases |s| - p
  {
    if p == |s| || SeparatorAt(s, p) then p else ParagraphEnd(s, p + 1)
  }

  /** The matches of the paragraph pattern from a position on. */
  function Matches(s: string, from: nat): (r: seq<Span>)
    requires from <= |s|
    ensures AllWithin(r, s)
    decreases |s| - from
  {
    var i := SkipSpace(s, from);
    if i == |s| then []
    else
      var p := ParagraphEnd(s, i + 1);
      [Span(i, p)] + Matches(s, p)
  }

  lemma MatchesAdvance(s: string, from: nat, done: seq<Span>)
    requires from <= |s| && SkipSpace(s, from) < |s|
    ensures var i := SkipSpace(s, from);
            var m := Span(i, ParagraphEnd(s, i + 1));
            done + Matches(s, from) == done + [m] + Matches(s, m.to)
  {
  }

  /** After k of the matches, with the scan here, the other matches are still to come. */
  ghost predicate MatchesLeft(s: string, from: nat, all: seq<Span>, k: nat) {
    k <= |all| && from <= |s| && all[k..] == Matches(s, from)
  }

  lemma MatchTaken(s: string, from: nat, m: Span, all: seq<Span>, k: nat)
    requires MatchesLeft(s, from, all, k) && SkipSpace(s, from) < |s|
    requires m == Span(SkipSpace(s, from), ParagraphEnd(s, SkipSpace(s, from) + 1))
    ensures k < |all| && all[..k + 1] == all[..k] + [m] && MatchesLeft(s, m.to, all, k + 1)
  {
    Taken(all, k, m, Matches(s, m.to));
  }

  /** One match, trimmed, as a paragraph. */
  function AddParagraph(s: string, m: Span, found: seq<TextBlock>): seq<TextBlock>
    requires m.Within(s)
  {
    var raw := s[m.from..m.to];
    var stripped := Strip(raw);
    var start := m.from + SkipSpace(raw, 0);
    if stripped == "" then found
    else found + [TextBlock(stripped, |found|, start, start + |stripped|)]
  }

  function ParagraphsOf(s: string, matches: seq<Span>): seq<TextBlock>
    requires AllWithin(matches, s)
  {
    if matches == [] then []
    else AddParagraph(s, matches[|matches| - 1], ParagraphsOf(s, matches[..|matches| - 1]))
  }

  lemma ParagraphsMore(s: string, matches: seq<Span>, m: Span)
    requires m.Within(s) && AllWithin(matches, s)
    ensures ParagraphsOf(s, matches + [m]) == AddParagraph(s, m, ParagraphsOf(s, matches))
  {
    assert (matches + [m])[..|matches|] == matches;
  }

  /** The scan has reached `from` after k of the matches, and found these paragraphs. */
  ghost predicate Scanned(s: string, from: nat, all: seq<Span>, k: nat, found: seq<TextBlock>) {
    AllWithin(all, s) && MatchesLeft(s, from, all, k) && found == ParagraphsOf(s, all[..k])
  }

  /** What one turn of the scan does. */
  lemma ScansOn(s: string, from: nat, start: nat, m: Span, all: seq<Span>, k: nat, found: seq<TextBlock>)
    requires Scanned(s, from, all, k, found) && start == SkipSpace(s, from) && start < |s|
    requires m == Span(start, ParagraphEnd(s, start + 1))
    ensures Scanned(s, m.to, all, k + 1, AddParagraph(s, m, found))
  {
    MatchTaken(s, from, m, all, k);
    ParagraphsMore(s, all[..k], m);
  }

  lemma ScannedAll(s: string, from: nat, all: seq<Span>, k: nat, found: seq<TextBlock>)
    requires Scanned(s, from, all, k, found) && SkipSpace(s, from) == |s|
    ensures found == ParagraphsOf(s, all)
  {
    assert all[..k] == all;
  }

  function Paragraphs(s: string): seq<TextBlock> {
    ParagraphsOf(s, Matches(s, 0))
  }

  predicate IsLineBreak(c: char) {
    || '\U{000a}' <= c <= '\U{000d}' || '\U{001c}' <= c <= '\U{001e}' || c == '\U{0085}'
    || c == '\U{2028}' || c == '\U{2029}'
  }

  /** `splitlines()[0]` */
  function FirstLine(s: string): string {
    if s == "" || IsLineBreak(s[0]) then "" else [s[0]] + FirstLine(s[1..])
  }

  predicate IsHeading(s: string) {
    var line := Strip(FirstLine(s));
    line != "" && line[0] == '#'
  }

  /** For a trimmed paragraph the first line decides by its first character. */
  lemma HeadingStartsWithHash(s: string)
    requires Tight(s)
    ensures IsHeading(s) <==> s[0] == '#'
  {
    var line := FirstLine(s);
    assert line[0] == s[0];
    assert SkipSpace(line, 0) == 0;
  }

  type Heading = string -> bool

  /** A heading and the paragraph after it as one unit. */
  function Joined(p: TextBlock, f: TextBlock, index: nat): TextBlock {
    TextBlock(p.content + "\n\n" + f.content, index, p.start, f.end)
  }

  function MergeHeadings(paragraphs: seq<TextBlock>, heading: Heading, i: nat, merged: seq<TextBlock>): seq<TextBlock>
    decreases |paragraphs| - i
  {
    if i >= |paragraphs| then merged
    else if heading(paragraphs[i].content) && i + 1 < |paragraphs| then
      var p, f := paragraphs[i], paragraphs[i + 1];
      MergeHeadings(paragraphs, heading, i + 2, merged + [Joined(p, f, |merged|)])
    else
      MergeHeadings(paragraphs, heading, i + 1, merged + [paragraphs[i].(index := |merged|)])
  }

  function Units(s: string): seq<TextBlock> { MergeHeadings(Paragraphs(s), IsHeading, 0, []) }

  // ---- Oversized units ----

  /** `rfind(" ", lo, hi)` */
  function RFindSpace(s: string, lo: nat, hi: nat): (i: int)
    requires hi <= |s|
    ensures i == -1 || (lo <= i < hi && s[i] == ' ')
    ensures forall k :: lo <= k < hi && s[k] == ' ' ==> k <= i
    decreases hi
  {
    if lo >= hi then -1 else if s[hi - 1] == ' ' then hi - 1 else RFindSpace(s, lo, hi - 1)
  }

  /** The end of the segment that starts at the cursor: full size, or back to a space in its second half. */
  function CutEnd(s: string, size: nat, cursor: nat): (end: nat)
    requires 0 < size && cursor < |s|
    ensures cursor < end <= |s| && end <= cursor + size
  {
    var end := Min(cursor + size, |s|);
    if end == |s| then end
    else
      var boundary := RFindSpace(s, cursor + Max(size / 2, 1), end);
      if boundary > cursor then boundary else end
  }

  /** The segments cut from the cursor on. */
  function Cuts(s: string, size: nat, overlap: nat, cursor: nat): (r: seq<Span>)
    requires 0 < size
    ensures AllWithin(r, s)
    decreases |s| - cursor
  {
    if cursor >= |s| then []
    else
      var end := CutEnd(s, size, cursor);
      [Span(cursor, end)] + if end == |s| then [] else Cuts(s, size, overlap, Max(end - overlap, cursor + 1))
  }

  /** After k of the cuts, with the cursor here, the other cuts are still to come. */
  ghost predicate CutsLeft(s: string, size: nat, overlap: nat, cursor: nat, all: seq<Span>, k: nat)
    requires 0 < size
  {
    k <= |all| && all[k..] == Cuts(s, size, overlap, cursor)
  }

  /** What one turn of the cutting loop does to the list of cuts. */
  lemma CutsAdvance(s: string, size: nat, overlap: nat, cursor: nat, end: nat, all: seq<Span>, k: nat)
    requires 0 < size && cursor < |s| && CutsLeft(s, size, overlap, cursor, all, k) && end == CutEnd(s, size, cursor)
    ensures k < |all| && all[..k + 1] == all[..k] + [Span(cursor, end)]
    ensures if end == |s| then all[..k + 1] == all
            else CutsLeft(s, size, overlap, Max(end - overlap, cursor + 1), all, k + 1)
  {
    Taken(all, k, Span(cursor, end), if end == |s| then [] else Cuts(s, size, overlap, Max(end - overlap, cursor + 1)));
  }

  /** One segment of a unit that starts at `start`, trimmed, unless it is blank. */
  function AddSegment(s: string, start: nat, c: Span, blocks: seq<TextBlock>): seq<TextBlock>
    requires c.Within(s)
  {
    var raw := s[c.from..c.to];
    var segment := Strip(raw);
    if segment == "" then blocks
    else
      var leading, trailing := SkipSpace(raw, 0), |raw| - BackSpace(raw, |raw|);
      blocks + [TextBlock(segment, |blocks|, start + c.from + leading, start + c.to - trailing)]
  }

  function SegmentsOf(s: string, start: nat, cuts: seq<Span>): seq<TextBlock>
    requires AllWithin(cuts, s)
  {
    if cuts == [] then [] else AddSegment(s, start, cuts[|cuts| - 1], SegmentsOf(s, start, cuts[..|cuts| - 1]))
  }

  lemma SegmentsMore(s: string, start: nat, cuts: seq<Span>, c: Span)
    requires c.Within(s) && AllWithin(cuts, s)
    ensures SegmentsOf(s, start, cuts + [c]) == AddSegment(s, start, c, SegmentsOf(s, start, cuts))
  {
    assert (cuts + [c])[..|cuts|] == cuts;
  }

  function Oversized(s: string, start: nat, size: nat, overlap: nat): seq<TextBlock>
    requires 0 < size
  {
    SegmentsOf(s, start, Cuts(s, size, overlap, 0))
  }

  // ---- Packing units into blocks ----

  /** The blocks so far, and the paragraphs waiting to be joined; `start` and `end` matter only while some wait. */
  datatype Packing = Packing(blocks: seq<TextBlock>, parts: seq<string>, start: nat, end: nat)

  function Flush(p: Packing, base: nat): Packing {
    var joined := Strip(Join(p.parts));
    Packing(if p.parts == [] || joined == "" then p.blocks
            else p.blocks + [TextBlock(joined, |p.blocks|, base + p.start, base + p.end)], [], 0, 0)
  }

  /** The pieces of an oversized unit, appended; every index is replaced when the blocks are numbered. */
  function Extend(blocks: seq<TextBlock>, more: seq<TextBlock>, base: nat): seq<TextBlock> {
    if more == [] then blocks
    else
      var last := more[|more| - 1];
      var init := Extend(blocks, more[..|more| - 1], base);
      init + [TextBlock(last.content, |init| + |more| - 1, base + last.start, base + last.end)]
  }

  function Feed(p: Packing, u: TextBlock, size: nat, overlap: nat, base: nat): Packing
    requires 0 < size
  {
    var content := Strip(u.content);
    if content == "" then p
    else if |content| > size then
      var q := Flush(p, base);
      q.(blocks := Extend(q.blocks, Oversized(content, u.start, size, overlap), base))
    else
      var q := if p.parts != [] && JoinedLength(p.parts, content) > size then Flush(p, base) else p;
      Packing(q.blocks, q.parts + [content], if q.parts == [] then u.start else q.start, u.end)
  }

  function FeedAll(units: seq<TextBlock>, size: nat, overlap: nat, base: nat): Packing
    requires 0 < size
  {
    if units == [] then Packing([], [], 0, 0)
    else Feed(FeedAll(units[..|units| - 1], size, overlap, base), units[|units| - 1], size, overlap, base)
  }

  function Numbered(blocks: seq<TextBlock>): (r: seq<TextBlock>)
    ensures |r| == |blocks| && forall k :: 0 <= k < |r| ==> r[k] == blocks[k].(index := k)
  {
    if blocks == [] then [] else Numbered(blocks[..|blocks| - 1]) + [blocks[|blocks| - 1].(index := |blocks| - 1)]
  }

  function Size(target: int): (n: nat) ensures n >= 1 { Max(target, 1) }

  function Overlap(target: int, overlap: int): nat { Max(Min(overlap, Size(target) - 1), 0) }

  function Blocks(s: string, target: int, overlap: int, base: nat): seq<TextBlock> {
    Numbered(Flush(FeedAll(Units(s), Size(target), Overlap(target, overlap), base), base).blocks)
  }

  function Parents(document: string, size: int, overlap: int): seq<TextBlock> { Blocks(document, size, overlap, 0) }

  function Children(parent: TextBlock, size: int, overlap: int): seq<TextBlock> {
    Blocks(parent.content, size, overlap, parent.start)
  }

  // ---- The loops of the program ----

  method ParagraphUnits(content: string) returns (units: seq<TextBlock>)
    ensures units == Units(content)
  {
    var paragraphs: seq<TextBlock> := [];
    var from := 0;
    ghost var all, taken := Matches(content, from), 0;
    var start := SkipSpace(content, from);
    while start < |content|
      invariant from <= |content| && start == SkipSpace(content, from)
      invariant Scanned(content, from, all, taken, paragraphs)
      decreases |content| - from
    {
      var m := Span(start, ParagraphEnd(content, start + 1));
      ScansOn(content, from, start, m, all, taken, paragraphs);
      paragraphs := AppendParagraph(content, m, paragraphs);
      taken, from := taken + 1, m.to;
      start := SkipSpace(content, from);
    }
    ScannedAll(content, from, all, taken, paragraphs);
    units := MergeHeadingsWithFollowingParagraphs(paragraphs);
  }

  method AppendParagraph(content: string, m: Span, paragraphs: seq<TextBlock>) returns (more: seq<TextBlock>)
    requires m.Within(content)
    ensures more == AddParagraph(content, m, paragraphs)
  {
    more := paragraphs;
    var raw := content[m.from..m.to];
    var leading := SkipSpace(raw, 0);
    var stripped := Strip(raw);
    if stripped != "" {
      var start := m.from + leading;
      more := more + [TextBlock(stripped, |more|, start, start + |stripped|)];
    }
  }

  method MergeHeadingsWithFollowingParagraphs(paragraphs: seq<TextBlock>) returns (merged: seq<TextBlock>)
    ensures merged == MergeHeadings(paragraphs, IsHeading, 0, [])
  {
    merged := [];
    var i := 0;
    ghost var all := MergeHeadings(paragraphs, IsHeading, i, merged);
    while i < |paragraphs|
      invariant MergeHeadings(paragraphs, IsHeading, i, merged) == all
      decreases |paragraphs| - i
    {
      var paragraph := paragraphs[i];
      if IsHeading(paragraph.content) && i + 1 < |paragraphs| {
        var following := paragraphs[i + 1];
        var content := paragraph.content + "\n\n" + following.content;
        merged := merged + [TextBlock(content, |merged|, paragraph.start, following.end)];
        i := i + 2;
        continue;
      }
      merged := merged + [TextBlock(paragraph.content, |merged|, paragraph.start, paragraph.end)];
      i := i + 1;
    }
  }

  method SplitOversizedUnit(content: string, start: nat, size: nat, overlap: nat) returns (blocks: seq<TextBlock>)
    requires 0 < size
    ensures blocks == Oversized(content, start, size, overlap)
  {
    blocks := [];
    var cursor := 0;
    ghost var all, made := Cuts(content, size, overlap, cursor), 0;
    while cursor < |content|
      invariant made <= |all| && AllWithin(all, content) && CutsLeft(content, size, overlap, cursor, all, made)
      invariant blocks == SegmentsOf(content, start, all[..made])
      decreases |content| - cursor
    {
      var end := SegmentEnd(content, size, cursor);
      blocks := AppendSegment(content, start, Span(cursor, end), blocks);
      CutsAdvance(content, size, overlap, cursor, end, all, made);
      SegmentsMore(content, start, all[..made], Span(cursor, end));
      made := made + 1;
      if end >= |content| {
        break;
      }
      cursor := Max(end - overlap, cursor + 1);
    }
    assert all[..made] == all;
  }

  method SegmentEnd(content: string, size: nat, cursor: nat) returns (end: nat)
    requires 0 < size && cursor < |content|
    ensures end == CutEnd(content, size, cursor)
  {
    end := Min(cursor + size, |content|);
    if end < |content| {
      var boundary := RFindSpace(content, cursor + Max(size / 2, 1), end);
      if boundary > cursor {
        end := boundary;
      }
    }
  }

  method AppendSegment(content: string, start: nat, c: Span, blocks: seq<TextBlock>) returns (more: seq<TextBlock>)
    requires c.Within(content)
    ensures more == AddSegment(content, start, c, blocks)
  {
    more := blocks;
    var raw := content[c.from..c.to];
    var segment := Strip(raw);
    var leading, trailing := SkipSpace(raw, 0), |raw| - BackSpace(raw, |raw|);
    if segment != "" {
      more := more + [TextBlock(segment, |more|, start + c.from + leading, start + c.to - trailing)];
    }
  }

  method FlushCurrent(p: Packing, base: nat) returns (q: Packing)
    ensures q == Flush(p, base)
  {
    var blocks := p.blocks;
    if p.parts != [] {
      var content := Strip(Join(p.parts));
      if content != "" {
        blocks := blocks + [TextBlock(content, |blocks|, base + p.start, base + p.end)];
      }
    }
    q := Packing(blocks, [], 0, 0);
  }

  method ExtendBlocks(blocks: seq<TextBlock>, more: seq<TextBlock>, base: nat) returns (all: seq<TextBlock>)
    ensures all == Extend(blocks, more, base)
  {
    all := blocks;
    for k := 0 to |more|
      invariant all == Extend(blocks, more[..k], base)
    {
      assert more[..k + 1][..k] == more[..k];
      all := all + [TextBlock(more[k].content, |all| + k, base + more[k].start, base + more[k].end)];
    }
    assert more[..|more|] == more;
  }

  /** One turn of the loop over the units. */
  method FeedUnit(before: Packing, unit: TextBlock, size: nat, overlap: nat, base: nat) returns (p: Packing)
    requires 0 < size
    ensures p == Feed(before, unit, size, overlap, base)
  {
    p := before;
    var unitContent := Strip(unit.content);
    if unitContent == "" {
      return;
    }
    if |unitContent| > size {
      p := FlushCurrent(p, base);
      var pieces := SplitOversizedUnit(unitContent, unit.start, size, overlap);
      var blocks := ExtendBlocks(p.blocks, pieces, base);
      p := p.(blocks := blocks);
      return;
    }
    if p.parts != [] && JoinedLength(p.parts, unitContent) > size {
      p := FlushCurrent(p, base);
    }
    if p.parts == [] {
      p := p.(start := unit.start);
    }
    p := p.(parts := p.parts + [unitContent], end := unit.end);
  }

  method SplitBlocks(content: string, target: int, overlap: int, base: nat) returns (result: seq<TextBlock>)
    ensures result == Blocks(content, target, overlap, base)
  {
    var size, effective := Size(target), Overlap(target, overlap);
    var units := ParagraphUnits(content);
    if units == [] {
      return [];
    }
    var p := Packing([], [], 0, 0);
    for k := 0 to |units|
      invariant p == FeedAll(units[..k], size, effective, base)
    {
      assert units[..k + 1][..k] == units[..k];
      p := FeedUnit(p, units[k], size, effective, base);
    }
    assert units[..|units|] == units;
    p := FlushCurrent(p, base);
    result := Numbered(p.blocks);
  }

  method SplitParentBlocks(document: string, size: int, overlap: int) returns (parents: seq<TextBlock>)
    ensures parents == Parents(document, size, overlap)
  {
    parents := SplitBlocks(document, size, overlap, 0);
  }

  method SplitChildChunks(parent: TextBlock, size: int, overlap: int) returns (children: seq<TextBlock>)
    ensures children == Children(parent, size, overlap)
  {
    children := SplitBlocks(parent.content, size, overlap, parent.start);
  }
}
