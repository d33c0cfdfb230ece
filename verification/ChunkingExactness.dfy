/** The offsets are right for every size and overlap exactly when the paragraphs stand one blank line apart. */
module ChunkingExactness {
  import opened Common
  import opened Text
  import opened HierarchicalChunking
  import opened ChunkingCoverage
  import opened ChunkingOffsets

  // ---- A blank gap of the text is the gap between two paragraphs ----

  lemma GapHoldsSeparator(s: string, e: nat, i: nat) returns (q: nat)
    requires BlankGap(s, e, i)
    ensures e <= q < i && SeparatorAt(s, q)
  {
    var a, b :| 0 <= a < b < |s[e..i]| && s[e..i][a] == '\n' && s[e..i][b] == '\n';
    q := e + a;
    BreakIsAhead(s, e, i, q + 1, e + b);
  }

  lemma {:induction false} BreakIsAhead(s: string, e: nat, i: nat, k: nat, b: nat)
    requires e <= k <= b < i <= |s| && AllSpace(s[e..i]) && s[b] == '\n'
    ensures BreakFollows(s, k)
    decreases b - k
  {
    assert s[e..i][k - e] == s[k];
    if k < b {
      BreakIsAhead(s, e, i, k + 1, b);
    }
  }

  lemma NotInTheGap(s: string, e: nat, i: nat, k: nat)
    requires BlankGap(s, e, i) && k < |s| && !IsSpace(s[k])
    ensures k < e || i <= k
  {
    forall j | e <= j < i ensures IsSpace(s[j]) {
      assert s[e..i][j - e] == s[j];
    }
  }

  /** Two blank gaps that share white space are one. */
  lemma SameGap(s: string, e: nat, i: nat, e': nat, i': nat)
    requires BlankGap(s, e, i) && BlankGap(s, e', i') && e <= i' && e' <= i
    ensures e == e' && i == i'
  {
    NotInTheGap(s, e', i', e - 1);
    NotInTheGap(s, e', i', i);
    NotInTheGap(s, e, i, e' - 1);
    NotInTheGap(s, e, i, i');
  }

  /** Paragraphs one blank line apart leave no other kind of blank gap before the end of the last one. */
  lemma {:induction false} SnugGap(s: string, units: seq<TextBlock>, e: nat, i: nat)
    requires units != [] && Apart(s, units) && Snug(s, units)
    requires BlankGap(s, e, i) && units[0].start < e && i < units[|units| - 1].end
    ensures s[e..i] == "\n\n"
  {
    var init, last := units[..|units| - 1], units[|units| - 1];
    var q := GapHoldsSeparator(s, e, i);
    NotInTheGap(s, e, i, last.start);
    if last.start < e {
      assert false;
    } else if init != [] {
      SnugPart(s, units);
      if i < init[|init| - 1].end {
        SnugGap(s, init, e, i);
      } else {
        SameGap(s, init[|init| - 1].end, last.start, e, i);
      }
    }
  }

  /** The text has no blank gap but those between its paragraphs. */
  lemma SnugIsNormalised(s: string)
    requires Snug(s, Paragraphs(s))
    ensures Normalised(s)
  {
    var units := Paragraphs(s);
    ParagraphsOfTextApart(s);
    forall e: nat, i: nat | BlankGap(s, e, i) ensures s[e..i] == "\n\n" {
      ParagraphsSpan(s, e - 1);
      ParagraphsSpan(s, i);
      SnugGap(s, units, e, i);
    }
  }

  lemma MatchesOfTextChain(s: string)
    ensures MatchChain(s, Matches(s, 0)) && Last(Matches(s, 0)) <= |s| && AllSpace(s[Last(Matches(s, 0))..|s|])
  {
    MatchesOfText(s);
    MatchesChain(s, 0, []);
    assert [] + Matches(s, 0) == Matches(s, 0);
  }

  /** Every visible character lies between the first paragraph's start and the last one's end. */
  lemma MatchesSpan(s: string, matches: seq<Span>, k: nat)
    requires AllWithin(matches, s) && MatchChain(s, matches) && AllSpace(s[Last(matches)..|s|])
    requires k < |s| && !IsSpace(s[k])
    ensures var units := ParagraphsOf(s, matches); units != [] && units[0].start <= k < units[|units| - 1].end
  {
    ParagraphsApart(s, matches);
    FirstParagraph(s, matches);
    SpaceMeans(s, Last(matches), |s|);
    if matches != [] {
      var units := ParagraphsOf(s, matches);
      SpaceMeans(s, 0, matches[0].from);
      SpaceMeans(s, units[|units| - 1].end, Last(matches));
    }
  }

  lemma ParagraphsSpan(s: string, k: nat)
    requires k < |s| && !IsSpace(s[k])
    ensures var units := Paragraphs(s); units != [] && units[0].start <= k < units[|units| - 1].end
  {
    MatchesOfTextChain(s);
    MatchesSpan(s, Matches(s, 0), k);
  }

  lemma SpaceMeans(s: string, i: nat, j: nat)
    requires i <= j <= |s| && AllSpace(s[i..j])
    ensures forall k :: i <= k < j ==> IsSpace(s[k])
  {
    forall k | i <= k < j ensures IsSpace(s[k]) {
      assert s[i..j][k - i] == s[k];
    }
  }

  lemma {:induction false} FirstParagraph(s: string, matches: seq<Span>)
    requires AllWithin(matches, s) && MatchChain(s, matches)
    ensures var units := ParagraphsOf(s, matches);
            |units| == |matches|
            && (matches != [] ==> units[0].start == matches[0].from && AllSpace(s[0..matches[0].from]))
  {
    if matches != [] {
      var init, m := matches[..|matches| - 1], matches[|matches| - 1];
      FirstParagraph(s, init);
      ParagraphOfMatch(s, m, ParagraphsOf(s, init));
    }
  }

  // ---- Lengths ----

  /** The length of the units joined, and one more separator. */
  function Extent(units: seq<TextBlock>): nat {
    if units == [] then 0 else Extent(units[..|units| - 1]) + |units[|units| - 1].content| + 2
  }

  lemma {:induction false} JoinExtent(units: seq<TextBlock>)
    requires units != []
    ensures |Join(Contents(units))| + 2 == Extent(units)
  {
    var init, last := units[..|units| - 1], units[|units| - 1];
    assert Contents(units) == Contents(init) + [last.content];
    JoinMore(Contents(init), last.content);
    if init != [] {
      JoinExtent(init);
    }
  }

  lemma {:induction false} ExtentSplits(a: seq<TextBlock>, b: seq<TextBlock>)
    ensures Extent(a + b) == Extent(a) + Extent(b)
  {
    if b == [] {
      assert a + b == a;
    } else {
      ExtentSplits(a, b[..|b| - 1]);
      assert (a + b)[..|a + b| - 1] == a + b[..|b| - 1];
    }
  }

  lemma ExtentMore(units: seq<TextBlock>, u: TextBlock)
    ensures Extent(units + [u]) == Extent(units) + |u.content| + 2
  {
    assert (units + [u])[..|units|] == units;
  }

  lemma ExtentFirst(units: seq<TextBlock>, i: nat)
    requires i < |units|
    ensures Extent(units[i..]) == |units[i].content| + 2 + Extent(units[i + 1..])
  {
    ExtentMore([], units[i]);
    ExtentSplits([units[i]], units[i + 1..]);
    assert units[i..] == [units[i]] + units[i + 1..];
  }

  ghost predicate AllTightUnits(units: seq<TextBlock>) {
    forall k :: 0 <= k < |units| ==> Tight(units[k].content)
  }

  /** Merging headings does not change the joined length. */
  lemma {:induction false} MergingKeepsExtent(paragraphs: seq<TextBlock>, heading: Heading, i: nat,
                                              merged: seq<TextBlock>)
    requires i <= |paragraphs|
    ensures Extent(MergeHeadings(paragraphs, heading, i, merged)) == Extent(merged) + Extent(paragraphs[i..])
    decreases |paragraphs| - i
  {
    if i < |paragraphs| {
      var p := paragraphs[i];
      ExtentFirst(paragraphs, i);
      if heading(p.content) && i + 1 < |paragraphs| {
        var f := paragraphs[i + 1];
        var both := Joined(p, f, |merged|);
        ExtentFirst(paragraphs, i + 1);
        ExtentMore(merged, both);
        MergingKeepsExtent(paragraphs, heading, i + 2, merged + [both]);
      } else {
        var alone := p.(index := |merged|);
        ExtentMore(merged, alone);
        MergingKeepsExtent(paragraphs, heading, i + 1, merged + [alone]);
      }
    }
  }

  /** Nor where the text starts and ends. */
  lemma {:induction false} MergingKeepsEnds(paragraphs: seq<TextBlock>, heading: Heading, i: nat,
                                            merged: seq<TextBlock>)
    requires i <= |paragraphs| && AllTightUnits(paragraphs) && AllTightUnits(merged)
    requires if i == 0 then merged == []
             else merged != [] && merged[0].start == paragraphs[0].start
                  && merged[|merged| - 1].end == paragraphs[i - 1].end
    ensures AllTightUnits(MergeHeadings(paragraphs, heading, i, merged))
    ensures SameEnds(MergeHeadings(paragraphs, heading, i, merged), paragraphs)
    decreases |paragraphs| - i
  {
    if i < |paragraphs| {
      var p := paragraphs[i];
      if heading(p.content) && i + 1 < |paragraphs| {
        var f := paragraphs[i + 1];
        var both := Joined(p, f, |merged|);
        assert Tight(both.content);
        MergingKeepsEnds(paragraphs, heading, i + 2, merged + [both]);
      } else {
        MergingKeepsEnds(paragraphs, heading, i + 1, merged + [p.(index := |merged|)]);
      }
    }
  }

  predicate SameEnds(a: seq<TextBlock>, b: seq<TextBlock>) {
    (a == [] <==> b == [])
    && (a != [] && b != [] ==> a[0].start == b[0].start && a[|a| - 1].end == b[|b| - 1].end)
  }

  lemma GapIsWide(s: string, e: nat, i: nat)
    requires BlankGap(s, e, i)
    ensures i >= e + 2 && (i == e + 2 ==> s[e..i] == "\n\n")
  {
  }

  /** Paragraphs take up at least their joined length, and just that only when they stand one blank line apart. */
  lemma {:induction false} ApartExtent(s: string, units: seq<TextBlock>)
    requires Apart(s, units) && units != []
    ensures AllTightUnits(units) && units[0].start <= units[|units| - 1].end <= |s|
    ensures Extent(units) <= units[|units| - 1].end + 2 - units[0].start
    ensures Extent(units) == units[|units| - 1].end + 2 - units[0].start ==> Snug(s, units)
  {
    var init, last := units[..|units| - 1], units[|units| - 1];
    if init != [] {
      ApartExtent(s, init);
      GapIsWide(s, init[|init| - 1].end, last.start);
      if Extent(units) == last.end + 2 - units[0].start {
        SnugMore(s, init, last, units);
      }
    } else {
      SnugMore(s, init, last, units);
    }
  }

  // ---- One block ----

  /** At a size the joined text fits, all units wait for one block. */
  lemma {:induction false} AllUnitsWait(units: seq<TextBlock>, size: nat)
    requires 0 < size && units != [] && AllTightUnits(units) && Extent(units) <= size + 2
    ensures FeedAll(units, size, 0, 0) == Packing([], Contents(units), units[0].start, units[|units| - 1].end)
  {
    var init, last := units[..|units| - 1], units[|units| - 1];
    ExtentMore(init, last);
    assert units == init + [last];
    if init != [] {
      AllUnitsWait(init, size);
    }
    OneUnitWaits(init, last, units, size, FeedAll(init, size, 0, 0));
  }

  lemma OneUnitWaits(init: seq<TextBlock>, last: TextBlock, units: seq<TextBlock>, size: nat, p: Packing)
    requires 0 < size && units == init + [last] && AllTightUnits(units) && Extent(units) <= size + 2
    requires p.blocks == [] && p.parts == Contents(init) && (init != [] ==> p.start == init[0].start)
    ensures Feed(p, last, size, 0, 0) == Packing([], Contents(units), units[0].start, last.end)
  {
    StripTight(last.content);
    JoinedLengthIsExact(Contents(init), last.content);
    JoinExtent(units);
    assert Contents(units) == Contents(init) + [last.content];
  }

  lemma UnitsExtent(s: string)
    requires Paragraphs(s) != []
    ensures var first, last := Paragraphs(s)[0], Paragraphs(s)[|Paragraphs(s)| - 1];
            && AllTightUnits(Units(s)) && SameEnds(Units(s), Paragraphs(s))
            && first.start <= last.end <= |s| && Extent(Units(s)) <= last.end + 2 - first.start
            && (Extent(Units(s)) == last.end + 2 - first.start ==> Snug(s, Paragraphs(s)))
  {
    ParagraphsOfTextApart(s);
    ApartExtent(s, Paragraphs(s));
    MergingKeepsExtent(Paragraphs(s), IsHeading, 0, []);
    MergingKeepsEnds(Paragraphs(s), IsHeading, 0, []);
    assert Paragraphs(s)[0..] == Paragraphs(s);
  }

  lemma OneBlock(units: seq<TextBlock>, size: nat)
    requires 0 < size && units != [] && AllTightUnits(units) && Extent(units) <= size + 2
    ensures Numbered(Flush(FeedAll(units, size, 0, 0), 0).blocks)
         == [TextBlock(Join(Contents(units)), 0, units[0].start, units[|units| - 1].end)]
  {
    AllUnitsWait(units, size);
    JoinTight(Contents(units));
    StripTight(Join(Contents(units)));
  }

  /** With the size of the whole document there is one block, all paragraphs joined. */
  lemma WholeDocumentIsOneBlock(s: string)
    requires Paragraphs(s) != []
    ensures var units := Units(s);
            units != []
            && Parents(s, |s|, 0) == [TextBlock(Join(Contents(units)), 0, units[0].start, units[|units| - 1].end)]
  {
    var units := Units(s);
    UnitsExtent(s);
    OneBlock(units, |s|);
  }

  lemma FaithfulWholeIsNormalised(s: string)
    requires AllFaithful(Parents(s, |s|, 0), s, 0)
    ensures Normalised(s)
  {
    if Paragraphs(s) != [] {
      var units := Units(s);
      UnitsExtent(s);
      WholeDocumentIsOneBlock(s);
      assert Faithful(Parents(s, |s|, 0)[0], s, 0);
      JoinExtent(units);
    }
    SnugIsNormalised(s);
  }

  /** The offsets of the parent blocks name their content, for every size and overlap, if and only if the paragraphs
      of the document stand exactly "\n\n" apart. */
  lemma OffsetsAreExactlyForNormalisedText(document: string)
    ensures Normalised(document)
       <==> forall size: int, overlap: int :: AllFaithful(Parents(document, size, overlap), document, 0)
  {
    if Normalised(document) {
      forall size: int, overlap: int ensures AllFaithful(Parents(document, size, overlap), document, 0) {
        BlocksAreFaithful(document, size, overlap, 0);
      }
    }
    if AllFaithful(Parents(document, |document|, 0), document, 0) {
      FaithfulWholeIsNormalised(document);
    }
  }

  // ---- A document with a wider gap ----

  /** Two line feeds too many. */
  predicate IsWide(s: string) { s == "a\n\n\n\nb" }

  lemma WideMatches(s: string, from: nat, matches: seq<Span>)
    requires IsWide(s) && from == 0 && matches == [Span(0, 1), Span(5, 6)]
    ensures Matches(s, from) == matches
  {
    assert !IsSpace(s[0]) && !IsSpace(s[5]) && SkipSpace(s, from) == 0;
    assert BreakFollows(s, 2) && SeparatorAt(s, 1) && ParagraphEnd(s, 1) == 1;
    assert SkipSpace(s, 5) == 5 && SkipSpace(s, 4) == 5 && SkipSpace(s, 3) == 5 && SkipSpace(s, 2) == 5
           && SkipSpace(s, 1) == 5;
    assert ParagraphEnd(s, 6) == 6 && SkipSpace(s, 6) == 6;
    var none := Matches(s, 6);
    assert none == [] && Matches(s, 1) == [Span(5, 6)] + none;
  }

  lemma OneLetter(s: string, m: Span, found: seq<TextBlock>)
    requires m.Within(s) && m.to == m.from + 1 && !IsSpace(s[m.from])
    ensures AddParagraph(s, m, found) == found + [TextBlock([s[m.from]], |found|, m.from, m.to)]
  {
    var raw := s[m.from..m.to];
    assert raw == [s[m.from]];
    StripTight(raw);
  }

  lemma WideParagraphs(s: string, paragraphs: seq<TextBlock>)
    requires IsWide(s) && paragraphs == [TextBlock("a", 0, 0, 1), TextBlock("b", 1, 5, 6)]
    ensures Paragraphs(s) == paragraphs
  {
    var matches := [Span(0, 1), Span(5, 6)];
    WideMatches(s, 0, matches);
    TwoLetters(s, matches, matches[..0], paragraphs);
  }

  lemma TwoLetters(s: string, matches: seq<Span>, none: seq<Span>, paragraphs: seq<TextBlock>)
    requires |matches| == 2 && AllWithin(matches, s) && none == []
    requires forall k :: 0 <= k < 2 ==> matches[k].to == matches[k].from + 1 && !IsSpace(s[matches[k].from])
    requires |paragraphs| == 2
    requires forall k :: 0 <= k < 2 ==>
               paragraphs[k] == TextBlock([s[matches[k].from]], k, matches[k].from, matches[k].to)
    ensures ParagraphsOf(s, matches) == paragraphs
  {
    var one := none + [matches[0]];
    assert one + [matches[1]] == matches;
    ParagraphsMore(s, none, matches[0]);
    ParagraphsMore(s, one, matches[1]);
    OneLetter(s, matches[0], ParagraphsOf(s, none));
    OneLetter(s, matches[1], ParagraphsOf(s, one));
  }

  lemma NoHeadings(paragraphs: seq<TextBlock>, merged: seq<TextBlock>)
    requires |paragraphs| == 2 && merged == [] && paragraphs[0].index == 0 && paragraphs[1].index == 1
    requires !IsHeading(paragraphs[0].content) && !IsHeading(paragraphs[1].content)
    ensures MergeHeadings(paragraphs, IsHeading, 0, merged) == paragraphs
  {
    var one := merged + [paragraphs[0]];
    assert one + [paragraphs[1]] == paragraphs;
    assert MergeHeadings(paragraphs, IsHeading, 2, paragraphs) == paragraphs;
    assert MergeHeadings(paragraphs, IsHeading, 1, one) == paragraphs;
  }

  lemma JoinTwo(parts: seq<string>)
    requires |parts| == 2
    ensures Join(parts) == parts[0] + "\n\n" + parts[1]
  {
    JoinMore([parts[0]], parts[1]);
    assert [parts[0]] + [parts[1]] == parts;
  }

  /** Two paragraphs, neither a heading, are one block at the size of the document. */
  lemma OneBlockOfTwo(s: string, paragraphs: seq<TextBlock>)
    requires paragraphs == Paragraphs(s) && |paragraphs| == 2 && paragraphs[0].index == 0 && paragraphs[1].index == 1
    requires !IsHeading(paragraphs[0].content) && !IsHeading(paragraphs[1].content)
    ensures var joined := paragraphs[0].content + "\n\n" + paragraphs[1].content;
            Parents(s, |s|, 0) == [TextBlock(joined, 0, paragraphs[0].start, paragraphs[1].end)]
  {
    NoHeadings(paragraphs, paragraphs[..0]);
    WholeDocumentIsOneBlock(s);
    JoinTwo(Contents(paragraphs));
  }

  /** The one parent block of such a document is its paragraphs one blank line apart, which is not what its offsets
      name. */
  lemma WideBlockIsNotItsSlice(s: string)
    requires IsWide(s)
    ensures Parents(s, |s|, 0) == [TextBlock("a" + "\n\n" + "b", 0, 0, 6)]
    ensures |s| == 6 && s[0..6] != "a" + "\n\n" + "b"
  {
    var paragraphs := [TextBlock("a", 0, 0, 1), TextBlock("b", 1, 5, 6)];
    WideParagraphs(s, paragraphs);
    HeadingStartsWithHash("a");
    HeadingStartsWithHash("b");
    OneBlockOfTwo(s, paragraphs);
  }
}
