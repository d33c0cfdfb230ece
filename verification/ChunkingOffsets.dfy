/** Offsets: when paragraphs stand exactly one blank line apart, every block and chunk is the slice of the document
    that its offsets name, through both levels of splitting. */
module ChunkingOffsets {
  import opened Common
  import opened Text
  import opened HierarchicalChunking
  import opened ChunkingCoverage

  /** The block is what the text holds at its offsets; the text itself starts at `base`. */
  predicate Faithful(b: TextBlock, text: string, base: nat) {
    base <= b.start <= b.end <= base + |text| && b.content == text[b.start - base..b.end - base]
  }

  predicate AllFaithful(blocks: seq<TextBlock>, text: string, base: nat) {
    forall k :: 0 <= k < |blocks| ==> Faithful(blocks[k], text, base)
  }

  lemma FaithfulThrough(b: TextBlock, middle: TextBlock, text: string, base: nat)
    requires Faithful(middle, text, base) && Faithful(b, middle.content, middle.start)
    ensures Faithful(b, text, base) && middle.start <= b.start <= b.end <= middle.end
  {
    SliceOfSlice(text, middle.start - base, middle.end - base, b.start - middle.start, b.end - middle.start);
  }

  // ---- Normalised text ----

  predicate TwoBreaks(s: string) {
    exists a, b :: 0 <= a < b < |s| && s[a] == '\n' && s[b] == '\n'
  }

  /** Between two characters that are not white space lies white space with at least two line feeds. */
  predicate BlankGap(s: string, e: nat, i: nat) {
    && 0 < e <= i < |s| && !IsSpace(s[e - 1]) && !IsSpace(s[i])
    && AllSpace(s[e..i]) && TwoBreaks(s[e..i])
  }

  /** Paragraphs are trimmed and stand exactly "\n\n" apart. */
  ghost predicate Normalised(s: string) {
    forall e: nat, i: nat {:trigger BlankGap(s, e, i)} :: BlankGap(s, e, i) ==> s[e..i] == "\n\n"
  }

  lemma SliceOfSlice(s: string, i: nat, j: nat, a: nat, b: nat)
    requires i <= j <= |s| && a <= b <= j - i
    ensures s[i..j][a..b] == s[i + a..i + b]
  {
    var inner, direct := s[i..j][a..b], s[i + a..i + b];
    forall k | 0 <= k < b - a ensures inner[k] == direct[k] {
      assert s[i..j][a + k] == s[i + (a + k)];
    }
  }

  lemma NormalisedSlice(s: string, i: nat, j: nat)
    requires Normalised(s) && i <= j <= |s|
    ensures Normalised(s[i..j])
  {
    forall e: nat, k: nat | BlankGap(s[i..j], e, k) ensures s[i..j][e..k] == "\n\n" {
      SliceOfSlice(s, i, j, e, k);
      assert BlankGap(s, i + e, i + k);
    }
  }

  // ---- Paragraphs of any text ----

  /** No separator begins after `from` and before `to`. */
  ghost predicate Solid(s: string, from: nat, to: nat) {
    forall q {:trigger SeparatorAt(s, q)} :: from < q < to ==> !SeparatorAt(s, q)
  }

  /** The matches start at visible characters, hold no separator, and each but the first follows one. */
  ghost predicate MatchChain(s: string, matches: seq<Span>)
    requires AllWithin(matches, s)
  {
    matches == [] ||
    var init, last := matches[..|matches| - 1], matches[|matches| - 1];
    && MatchChain(s, init) && last.from < last.to && !IsSpace(s[last.from])
    && Last(init) <= last.from && AllSpace(s[Last(init)..last.from])
    && (init != [] ==> SeparatorAt(s, Last(init))) && Solid(s, last.from, last.to)
  }

  lemma MatchChainMore(s: string, matches: seq<Span>, m: Span)
    requires AllWithin(matches, s) && m.Within(s) && MatchChain(s, matches)
    requires m.from < m.to && !IsSpace(s[m.from]) && Solid(s, m.from, m.to)
    requires Last(matches) <= m.from && AllSpace(s[Last(matches)..m.from])
    requires matches != [] ==> SeparatorAt(s, Last(matches))
    ensures AllWithin(matches + [m], s) && MatchChain(s, matches + [m]) && Last(matches + [m]) == m.to
  {
    assert (matches + [m])[..|matches|] == matches;
  }

  lemma {:induction false} ParagraphEndStops(s: string, p: nat)
    requires p <= |s|
    ensures ParagraphEnd(s, p) == |s| || SeparatorAt(s, ParagraphEnd(s, p))
    ensures forall q {:trigger SeparatorAt(s, q)} :: p <= q < ParagraphEnd(s, p) ==> !SeparatorAt(s, q)
    decreases |s| - p
  {
    if p < |s| && !SeparatorAt(s, p) {
      ParagraphEndStops(s, p + 1);
    }
  }

  lemma {:induction false} MatchesChain(s: string, from: nat, done: seq<Span>)
    requires from <= |s| && AllWithin(done, s) && MatchChain(s, done) && Last(done) == from
    requires done == [] || from == |s| || SeparatorAt(s, from)
    ensures AllWithin(done + Matches(s, from), s) && MatchChain(s, done + Matches(s, from))
    decreases |s| - from
  {
    var i := SkipSpace(s, from);
    if i == |s| {
      assert done + Matches(s, from) == done;
    } else {
      var m := Span(i, ParagraphEnd(s, i + 1));
      ParagraphEndStops(s, i + 1);
      var more := done + [m];
      MatchChainMore(s, done, m);
      MatchesChain(s, m.to, more);
      MatchesAdvance(s, from, done);
      assert done + Matches(s, from) == more + Matches(s, m.to);
    }
  }

  /** A paragraph is exact: trimmed, and the slice at its offsets. */
  predicate Exact(u: TextBlock, s: string) { Tight(u.content) && Faithful(u, s, 0) }

  /** Exact paragraphs without a separator, each but the first a blank gap after the one before. */
  ghost predicate Apart(s: string, units: seq<TextBlock>) {
    units == [] ||
    var init, last := units[..|units| - 1], units[|units| - 1];
    && Apart(s, init) && Exact(last, s) && Solid(s, last.start, last.end)
    && (init != [] ==> BlankGap(s, init[|init| - 1].end, last.start))
  }

  /** The paragraph of a match starts where the match does; after its end the match is only white space. */
  lemma ParagraphOfMatch(s: string, m: Span, found: seq<TextBlock>)
    requires m.Within(s) && m.from < m.to && !IsSpace(s[m.from])
    ensures var more := AddParagraph(s, m, found);
            && |more| == |found| + 1 && more[..|found|] == found
            && var u := more[|found|];
               Exact(u, s) && u.start == m.from && u.end <= m.to && AllSpace(s[u.end..m.to])
  {
    var raw := s[m.from..m.to];
    var stop := BackSpace(raw, |raw|);
    assert raw[0] == s[m.from];
    assert SkipSpace(raw, 0) == 0;
    assert stop > 0;
    SliceOfSlice(s, m.from, m.to, 0, stop);
    SliceOfSlice(s, m.from, m.to, stop, |raw|);
  }

  lemma {:induction false} BreakIsThere(s: string, i: nat) returns (b: nat)
    requires BreakFollows(s, i)
    ensures i <= b < |s| && s[b] == '\n' && forall k :: i <= k < b ==> IsSpace(s[k])
    decreases |s| - i
  {
    if s[i] == '\n' {
      b := i;
    } else {
      b := BreakIsThere(s, i + 1);
    }
  }

  /** A separator followed by white space up to a visible character is a blank gap. */
  lemma SeparatorMakesGap(s: string, e: nat, p: nat, i: nat)
    requires 0 < e <= p <= i < |s| && !IsSpace(s[e - 1]) && !IsSpace(s[i]) && SeparatorAt(s, p)
    requires AllSpace(s[e..p]) && AllSpace(s[p..i])
    ensures BlankGap(s, e, i)
  {
    var a := if s[p] == '\n' then p else p + 1;
    var b := BreakIsThere(s, a + 1);
    assert IsSpace('\n') && IsSpace('\r');
    assert b < i;
    assert s[e..i] == s[e..p] + s[p..i];
    assert s[e..i][a - e] == '\n' && s[e..i][b - e] == '\n';
  }

  lemma ApartMore(s: string, units: seq<TextBlock>, u: TextBlock, more: seq<TextBlock>)
    requires Apart(s, units) && Exact(u, s) && Solid(s, u.start, u.end) && more == units + [u]
    requires units != [] ==> BlankGap(s, units[|units| - 1].end, u.start)
    ensures Apart(s, more)
  {
    assert more[..|units|] == units;
  }

  /** The last paragraph ends at a visible character, and up to there the last match is only white space. */
  ghost predicate EndsIn(s: string, units: seq<TextBlock>, to: nat) {
    units != [] ==>
      var end := units[|units| - 1].end;
      0 < end <= to <= |s| && !IsSpace(s[end - 1]) && AllSpace(s[end..to])
  }

  lemma {:induction false} ParagraphsApart(s: string, matches: seq<Span>)
    requires AllWithin(matches, s) && MatchChain(s, matches)
    ensures var units := ParagraphsOf(s, matches);
            Apart(s, units) && |units| == |matches| && EndsIn(s, units, Last(matches))
  {
    if matches != [] {
      var init, m := matches[..|matches| - 1], matches[|matches| - 1];
      ParagraphsApart(s, init);
      NextParagraphApart(s, m, ParagraphsOf(s, init), Last(init));
    }
  }

  lemma NextParagraphApart(s: string, m: Span, found: seq<TextBlock>, last: nat)
    requires m.Within(s) && m.from < m.to && !IsSpace(s[m.from]) && Solid(s, m.from, m.to)
    requires Apart(s, found) && EndsIn(s, found, last)
    requires found != [] ==> last <= m.from && AllSpace(s[last..m.from]) && SeparatorAt(s, last)
    ensures var more := AddParagraph(s, m, found);
            Apart(s, more) && |more| == |found| + 1 && EndsIn(s, more, m.to)
  {
    ParagraphOfMatch(s, m, found);
    if found != [] {
      SeparatorMakesGap(s, found[|found| - 1].end, last, m.from);
    }
    OneMoreApart(s, m, found, AddParagraph(s, m, found));
  }

  lemma OneMoreApart(s: string, m: Span, found: seq<TextBlock>, more: seq<TextBlock>)
    requires m.Within(s) && m.from < m.to && !IsSpace(s[m.from]) && Solid(s, m.from, m.to) && Apart(s, found)
    requires found != [] ==> BlankGap(s, found[|found| - 1].end, m.from)
    requires |more| == |found| + 1 && more[..|found|] == found
    requires var u := more[|found|]; Exact(u, s) && u.start == m.from && u.end <= m.to && AllSpace(s[u.end..m.to])
    ensures Apart(s, more) && EndsIn(s, more, m.to)
  {
    var u := more[|found|];
    assert more == found + [u];
    ApartMore(s, found, u, more);
    LastIsVisible(s, u);
  }

  lemma LastIsVisible(s: string, u: TextBlock)
    requires Exact(u, s)
    ensures 0 < u.end <= |s| && !IsSpace(s[u.end - 1])
  {
    var k := |u.content| - 1;
    assert u.start + k == u.end - 1 && u.content[k] == s[u.start + k];
  }

  lemma ParagraphsOfTextApart(s: string)
    ensures Apart(s, Paragraphs(s))
  {
    var matches := Matches(s, 0);
    MatchesChain(s, 0, []);
    assert [] + matches == matches;
    ParagraphsApart(s, matches);
  }

  // ---- Units of a normalised text ----

  predicate Follows(s: string, u: TextBlock, v: TextBlock) {
    u.end <= v.start <= |s| && s[u.end..v.start] == "\n\n"
  }

  /** Unit k is exact and, unless it is the first, exactly a blank line after the one before. */
  predicate LinkedAt(s: string, units: seq<TextBlock>, k: nat)
    requires k < |units|
  {
    Exact(units[k], s) && (k > 0 ==> Follows(s, units[k - 1], units[k]))
  }

  ghost predicate Snug(s: string, units: seq<TextBlock>) {
    forall k: nat {:trigger LinkedAt(s, units, k)} :: k < |units| ==> LinkedAt(s, units, k)
  }

  lemma SnugMore(s: string, units: seq<TextBlock>, u: TextBlock, more: seq<TextBlock>)
    requires Snug(s, units) && Exact(u, s) && (units != [] ==> Follows(s, units[|units| - 1], u))
    requires more == units + [u]
    ensures Snug(s, more)
  {
    forall k: nat {:trigger LinkedAt(s, more, k)} | k < |more| ensures LinkedAt(s, more, k) {
      assert k < |units| ==> LinkedAt(s, units, k);
    }
  }

  lemma SnugPart(s: string, units: seq<TextBlock>)
    requires Snug(s, units) && units != []
    ensures var init, last := units[..|units| - 1], units[|units| - 1];
            Snug(s, init) && Exact(last, s) && (init != [] ==> Follows(s, init[|init| - 1], last))
  {
    assert LinkedAt(s, units, |units| - 1);
    var init := units[..|units| - 1];
    forall k: nat {:trigger LinkedAt(s, init, k)} | k < |init| ensures LinkedAt(s, init, k) {
      assert LinkedAt(s, units, k);
    }
  }

  lemma {:induction false} ApartIsSnug(s: string, units: seq<TextBlock>)
    requires Normalised(s) && Apart(s, units)
    ensures Snug(s, units)
  {
    if units != [] {
      var init, last := units[..|units| - 1], units[|units| - 1];
      ApartIsSnug(s, init);
      if init != [] {
        assert BlankGap(s, init[|init| - 1].end, last.start);
      }
      SnugMore(s, init, last, units);
    }
  }

  lemma JoinSlices(s: string, a: nat, b: nat, c: nat, d: nat)
    requires a <= b <= c <= d <= |s| && s[b..c] == "\n\n"
    ensures s[a..b] + "\n\n" + s[c..d] == s[a..d]
  {
    assert s[a..b] + s[b..c] + s[c..d] == s[a..d];
  }

  /** A heading merged with the paragraph after it is still the slice at its offsets. */
  lemma JoinedExact(s: string, p: TextBlock, f: TextBlock, index: nat)
    requires Exact(p, s) && Exact(f, s) && Follows(s, p, f)
    ensures Exact(Joined(p, f, index), s)
  {
    JoinSlices(s, p.start, p.end, f.start, f.end);
  }

  /** What is merged so far ends where paragraph i - 1 ends. */
  predicate EndsAt(paragraphs: seq<TextBlock>, i: nat, merged: seq<TextBlock>)
    requires i <= |paragraphs|
  {
    if i == 0 then merged == [] else merged != [] && merged[|merged| - 1].end == paragraphs[i - 1].end
  }

  /** A heading and the paragraph after it, or one paragraph, join what is merged. */
  lemma MergeOne(s: string, paragraphs: seq<TextBlock>, heading: Heading, i: nat, merged: seq<TextBlock>)
    returns (j: nat, next: seq<TextBlock>)
    requires Snug(s, paragraphs) && Snug(s, merged) && i < |paragraphs| && EndsAt(paragraphs, i, merged)
    ensures i < j <= |paragraphs| && Snug(s, next) && EndsAt(paragraphs, j, next)
    ensures MergeHeadings(paragraphs, heading, i, merged) == MergeHeadings(paragraphs, heading, j, next)
  {
    var p := paragraphs[i];
    var u: TextBlock;
    assert LinkedAt(s, paragraphs, i);
    if heading(p.content) && i + 1 < |paragraphs| {
      assert LinkedAt(s, paragraphs, i + 1);
      JoinedExact(s, p, paragraphs[i + 1], |merged|);
      j, u := i + 2, Joined(p, paragraphs[i + 1], |merged|);
    } else {
      j, u := i + 1, p.(index := |merged|);
    }
    next := merged + [u];
    SnugMore(s, merged, u, next);
  }

  lemma {:induction false} MergingKeepsSnug(s: string, paragraphs: seq<TextBlock>, heading: Heading, i: nat,
                                            merged: seq<TextBlock>)
    requires Snug(s, paragraphs) && Snug(s, merged) && i <= |paragraphs| && EndsAt(paragraphs, i, merged)
    ensures Snug(s, MergeHeadings(paragraphs, heading, i, merged))
    decreases |paragraphs| - i
  {
    if i < |paragraphs| {
      var j, next := MergeOne(s, paragraphs, heading, i, merged);
      MergingKeepsSnug(s, paragraphs, heading, j, next);
    }
  }

  lemma UnitsSnug(s: string)
    requires Normalised(s)
    ensures Snug(s, Units(s))
  {
    ParagraphsOfTextApart(s);
    ApartIsSnug(s, Paragraphs(s));
    MergingKeepsSnug(s, Paragraphs(s), IsHeading, 0, []);
  }

  // ---- Packing ----

  lemma StripIsSlice(s: string, from: nat, to: nat, raw: string, i: nat, j: nat)
    requires from <= to <= |s| && raw == s[from..to] && Strip(raw) != ""
    requires i == SkipSpace(raw, 0) && j == BackSpace(raw, |raw|)
    ensures i <= j <= |raw| && Strip(raw) == s[from + i..from + j]
  {
    SliceOfSlice(s, from, to, i, j);
  }

  lemma FaithfulMore(blocks: seq<TextBlock>, b: TextBlock, text: string, base: nat)
    requires AllFaithful(blocks, text, base) && Faithful(b, text, base)
    ensures AllFaithful(blocks + [b], text, base)
  {
  }

  lemma SegmentBlock(s: string, start: nat, c: Span, raw: string, i: nat, j: nat, b: TextBlock)
    requires c.Within(s) && raw == s[c.from..c.to] && Strip(raw) != ""
    requires i == SkipSpace(raw, 0) && j == BackSpace(raw, |raw|)
    requires b.content == Strip(raw) && b.start == start + c.from + i && b.end == start + c.to - (|raw| - j)
    ensures Faithful(b, s, start)
  {
    StripIsSlice(s, c.from, c.to, raw, i, j);
    assert b.start - start == c.from + i && b.end - start == c.from + j;
  }

  /** Whatever the text, a segment of a unit is the slice of the unit at its offsets. */
  lemma SegmentFaithful(s: string, start: nat, c: Span, blocks: seq<TextBlock>)
    requires c.Within(s) && AllFaithful(blocks, s, start)
    ensures AllFaithful(AddSegment(s, start, c, blocks), s, start)
  {
    var raw := s[c.from..c.to];
    if Strip(raw) != "" {
      var more := AddSegment(s, start, c, blocks);
      var b := more[|blocks|];
      assert more == blocks + [b];
      SegmentBlock(s, start, c, raw, SkipSpace(raw, 0), BackSpace(raw, |raw|), b);
      FaithfulMore(blocks, b, s, start);
    }
  }

  lemma {:induction false} SegmentsFaithful(s: string, start: nat, cuts: seq<Span>)
    requires AllWithin(cuts, s)
    ensures AllFaithful(SegmentsOf(s, start, cuts), s, start)
  {
    if cuts != [] {
      SegmentsFaithful(s, start, cuts[..|cuts| - 1]);
      SegmentFaithful(s, start, cuts[|cuts| - 1], SegmentsOf(s, start, cuts[..|cuts| - 1]));
    }
  }

  /** Offsets inside a unit become offsets in the text when the unit's are. */
  lemma {:induction false} ExtendFaithful(blocks: seq<TextBlock>, more: seq<TextBlock>, u: TextBlock, s: string,
                                          base: nat)
    requires AllFaithful(blocks, s, base) && Faithful(u, s, 0) && AllFaithful(more, u.content, u.start)
    ensures AllFaithful(Extend(blocks, more, base), s, base)
  {
    if more != [] {
      ExtendFaithful(blocks, more[..|more| - 1], u, s, base);
      FaithfulThrough(more[|more| - 1], u, s, 0);
    }
  }

  /** The waiting paragraphs, joined, are one slice of the text, which ends where the last unit ends. */
  ghost predicate Waiting(p: Packing, s: string, base: nat, end: nat) {
    && AllFaithful(p.blocks, s, base)
    && (p.parts != [] ==>
          AllTight(p.parts) && p.start <= p.end <= |s| && Join(p.parts) == s[p.start..p.end] && p.end == end)
  }

  predicate AllTight(parts: seq<string>) { forall k :: 0 <= k < |parts| ==> Tight(parts[k]) }

  lemma FlushFaithful(p: Packing, s: string, base: nat, end: nat)
    requires Waiting(p, s, base, end)
    ensures AllFaithful(Flush(p, base).blocks, s, base) && Flush(p, base).parts == []
  {
    if p.parts != [] {
      JoinTight(p.parts);
      StripTight(Join(p.parts));
    }
  }

  lemma AppendFaithful(p: Packing, u: TextBlock, s: string, base: nat, end: nat)
    requires Waiting(p, s, base, end) && Exact(u, s) && end <= u.start && s[end..u.start] == "\n\n"
    requires p.parts != []
    ensures Waiting(Packing(p.blocks, p.parts + [u.content], p.start, u.end), s, base, u.end)
  {
    JoinMore(p.parts, u.content);
    JoinSlices(s, p.start, p.end, u.start, u.end);
  }

  lemma StartFaithful(p: Packing, u: TextBlock, s: string, base: nat)
    requires p.parts == [] && AllFaithful(p.blocks, s, base) && Exact(u, s)
    ensures Waiting(Packing(p.blocks, p.parts + [u.content], u.start, u.end), s, base, u.end)
  {
    JoinMore([], u.content);
  }

  /** Feeding the next unit keeps the blocks faithful; `end` is the end of the unit before. */
  lemma FeedFaithful(p: Packing, u: TextBlock, size: nat, overlap: nat, base: nat, s: string, end: nat)
    requires 0 < size && Waiting(p, s, base, end) && Exact(u, s)
    requires p.parts != [] ==> end <= u.start && s[end..u.start] == "\n\n"
    ensures Waiting(Feed(p, u, size, overlap, base), s, base, u.end)
  {
    StripTight(u.content);
    FlushFaithful(p, s, base, end);
    if |u.content| > size {
      SegmentsFaithful(u.content, u.start, Cuts(u.content, size, overlap, 0));
      ExtendFaithful(Flush(p, base).blocks, Oversized(u.content, u.start, size, overlap), u, s, base);
    } else if p.parts == [] {
      StartFaithful(p, u, s, base);
    } else if JoinedLength(p.parts, u.content) > size {
      StartFaithful(Flush(p, base), u, s, base);
    } else {
      AppendFaithful(p, u, s, base, end);
    }
  }

  function End(units: seq<TextBlock>): nat { if units == [] then 0 else units[|units| - 1].end }

  lemma FeedNextFaithful(
    p: Packing, init: seq<TextBlock>, last: TextBlock, size: nat, overlap: nat, base: nat, s: string)
    requires 0 < size && Waiting(p, s, base, End(init)) && (init == [] ==> p.parts == [])
    requires Exact(last, s) && (init != [] ==> Follows(s, init[|init| - 1], last))
    ensures Waiting(Feed(p, last, size, overlap, base), s, base, last.end)
  {
    FeedFaithful(p, last, size, overlap, base, s, End(init));
  }

  lemma {:induction false} FeedAllFaithful(units: seq<TextBlock>, size: nat, overlap: nat, base: nat, s: string)
    requires 0 < size && Snug(s, units)
    ensures Waiting(FeedAll(units, size, overlap, base), s, base, End(units))
    ensures units == [] ==> FeedAll(units, size, overlap, base).parts == []
  {
    if units != [] {
      var init, last := units[..|units| - 1], units[|units| - 1];
      SnugPart(s, units);
      FeedAllFaithful(init, size, overlap, base, s);
      FeedNextFaithful(FeedAll(init, size, overlap, base), init, last, size, overlap, base, s);
    }
  }

  // ---- Both levels ----

  lemma NumberedFaithful(blocks: seq<TextBlock>, s: string, base: nat)
    requires AllFaithful(blocks, s, base)
    ensures AllFaithful(Numbered(blocks), s, base)
  {
    var r := Numbered(blocks);
    forall k | 0 <= k < |r| ensures Faithful(r[k], s, base) {
      assert Faithful(blocks[k], s, base);
    }
  }

  lemma PackedFaithful(units: seq<TextBlock>, size: nat, overlap: nat, base: nat, s: string)
    requires 0 < size && Snug(s, units)
    ensures AllFaithful(Flush(FeedAll(units, size, overlap, base), base).blocks, s, base)
  {
    FeedAllFaithful(units, size, overlap, base, s);
    FlushFaithful(FeedAll(units, size, overlap, base), s, base, End(units));
  }

  lemma BlocksAreFaithful(s: string, target: int, overlap: int, base: nat)
    requires Normalised(s)
    ensures AllFaithful(Blocks(s, target, overlap, base), s, base)
  {
    var size, effective := Size(target), Overlap(target, overlap);
    UnitsSnug(s);
    PackedFaithful(Units(s), size, effective, base, s);
    NumberedFaithful(Flush(FeedAll(Units(s), size, effective, base), base).blocks, s, base);
  }

  /** For every size and overlap of both levels: each parent block, and each child chunk of each parent, is the slice
      of the document at its offsets, and the child's span lies in its parent's. */
  lemma OffsetsAreFaithful(document: string, size: int, overlap: int, childSize: int, childOverlap: int)
    requires Normalised(document)
    ensures var parents := Parents(document, size, overlap);
            && AllFaithful(parents, document, 0)
            && forall i :: 0 <= i < |parents| ==>
                 Nested(Children(parents[i], childSize, childOverlap), parents[i], document)
  {
    var parents := Parents(document, size, overlap);
    BlocksAreFaithful(document, size, overlap, 0);
    forall i | 0 <= i < |parents| ensures Nested(Children(parents[i], childSize, childOverlap), parents[i], document) {
      ChildrenNested(parents[i], document, childSize, childOverlap);
    }
  }

  predicate Nested(children: seq<TextBlock>, parent: TextBlock, document: string) {
    forall k :: 0 <= k < |children| ==>
      Faithful(children[k], document, 0) && parent.start <= children[k].start <= children[k].end <= parent.end
  }

  lemma ChildrenNested(parent: TextBlock, document: string, size: int, overlap: int)
    requires Normalised(document) && Faithful(parent, document, 0)
    ensures Nested(Children(parent, size, overlap), parent, document)
  {
    var children := Children(parent, size, overlap);
    NormalisedSlice(document, parent.start, parent.end);
    BlocksAreFaithful(parent.content, size, overlap, parent.start);
    forall k | 0 <= k < |children|
      ensures Faithful(children[k], document, 0) && parent.start <= children[k].start <= children[k].end <= parent.end
    {
      FaithfulThrough(children[k], parent, document, 0);
    }
  }
}
