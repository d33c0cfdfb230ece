/** Server-sent events: the printer (app/api/sse.py) and the incremental reader in the browser
    (`streamChat` and `consumeSseBlock` in app/ui/app.js), on decoded text. */
module Sse {
  import opened Common

  // ---- The printer ----

  /** What the server writes; a payload is the text `json.dumps` produced. */
  datatype Frame =
    | AgentFrame(payload: string)
    | StoredFrame(sequence: nat, eventType: string, payload: string)
    | KeepAlive

  function Body(f: Frame): string {
    match f
    case AgentFrame(payload) => "data: " + payload
    case StoredFrame(sequence, eventType, payload) =>
      ("id: " + Decimal(sequence)) + "\n" + (("event: " + eventType) + "\n" + ("data: " + payload))
    case KeepAlive => ": keepalive"
  }

  function Encode(f: Frame): string { Body(f) + "\n\n" }

  function EncodeAll(frames: seq<Frame>): string {
    if frames == [] then "" else Encode(frames[0]) + EncodeAll(frames[1..])
  }

  predicate OneLine(s: string) { forall i :: 0 <= i < |s| ==> s[i] != '\n' }

  /** White space for JavaScript's `trim`. */
  predicate IsBlank(c: char) {
    c in {'\t', '\n', '\r', ' '} || c == '\U{000b}' || c == '\U{000c}' || c == '\U{00a0}' || c == '\U{feff}'
    || c == '\U{1680}' || '\U{2000}' <= c <= '\U{200a}' || c == '\U{2028}' || c == '\U{2029}'
    || c == '\U{202f}' || c == '\U{205f}' || c == '\U{3000}'
  }

  /** A JSON object on one line is such a text: it starts and ends with a brace. */
  predicate Payload(s: string) {
    OneLine(s) && s != "" && !IsBlank(s[0]) && !IsBlank(s[|s| - 1])
  }

  predicate WellFormed(f: Frame) {
    match f
    case AgentFrame(payload) => Payload(payload)
    case StoredFrame(_, eventType, payload) => Payload(payload) && OneLine(eventType)
    case KeepAlive => true
  }

  predicate AllWellFormed(frames: seq<Frame>) { forall f <- frames :: WellFormed(f) }

  function PayloadsOf(frames: seq<Frame>): seq<string> {
    if frames == [] then []
    else (if frames[0].KeepAlive? then [] else [frames[0].payload]) + PayloadsOf(frames[1..])
  }

  // ---- The reader, as functions of the text ----

  predicate BlankLineAt(s: string, i: nat) {
    i + 1 < |s| && s[i] == '\n' && s[i + 1] == '\n'
  }

  /** `buffer.indexOf("\n\n")`; the length of the text when there is none. */
  function Boundary(s: string): (i: nat)
    ensures i <= |s|
    ensures i < |s| ==> BlankLineAt(s, i)
    ensures forall j: nat :: j < i ==> !BlankLineAt(s, j)
  {
    BoundaryFrom(s, 0)
  }

  function BoundaryFrom(s: string, start: nat): (i: nat)
    requires start <= |s| && forall j: nat :: j < start ==> !BlankLineAt(s, j)
    ensures i <= |s|
    ensures i < |s| ==> BlankLineAt(s, i)
    ensures forall j: nat :: j < i ==> !BlankLineAt(s, j)
    decreases |s| - start
  {
    if start == |s| || BlankLineAt(s, start) then start else BoundaryFrom(s, start + 1)
  }

  /** The complete blocks of a text, and what follows the last of them. */
  function Blocks(s: string): seq<string>
    decreases |s|
  {
    var i := Boundary(s);
    if i == |s| then [] else [s[..i]] + Blocks(s[i + 2..])
  }

  function Rest(s: string): string
    decreases |s|
  {
    var i := Boundary(s);
    if i == |s| then s else Rest(s[i + 2..])
  }

  function LineEnd(s: string): (i: nat)
    ensures i <= |s|
    ensures i < |s| ==> s[i] == '\n'
    ensures forall j :: 0 <= j < i ==> s[j] != '\n'
  {
    if s == "" || s[0] == '\n' then 0 else LineEnd(s[1..]) + 1
  }

  /** `block.split("\n")` */
  function Lines(s: string): seq<string> {
    var i := LineEnd(s);
    if i == |s| then [s] else [s[..i]] + Lines(s[i + 1..])
  }

  function TrimStart(s: string): string {
    if s != "" && IsBlank(s[0]) then TrimStart(s[1..]) else s
  }

  function TrimEnd(s: string): string {
    if s != "" && IsBlank(s[|s| - 1]) then TrimEnd(s[..|s| - 1]) else s
  }

  function Trim(s: string): string { TrimEnd(TrimStart(s)) }

  predicate IsData(line: string) { |line| >= 5 && line[..5] == "data:" }

  /** The trimmed contents of the data lines. */
  function DataOf(lines: seq<string>): seq<string> {
    if lines == [] then []
    else (if IsData(lines[0]) then [Trim(lines[0][5..])] else []) + DataOf(lines[1..])
  }

  function Join(parts: seq<string>): string {
    if parts == [] then "" else if |parts| == 1 then parts[0] else parts[0] + "\n" + Join(parts[1..])
  }

  /** What `consumeSseBlock` hands to `JSON.parse`; nothing for a block without data. */
  function Delivered(block: string): seq<string> {
    var payload := Join(DataOf(Lines(block)));
    if payload == "" then [] else [payload]
  }

  function FlatMap(f: string -> seq<string>, xs: seq<string>): seq<string> {
    if xs == [] then [] else FlatMap(f, xs[..|xs| - 1]) + f(xs[|xs| - 1])
  }

  function DeliverAll(blocks: seq<string>): seq<string> { FlatMap(Delivered, blocks) }

  function Concat(chunks: seq<string>): string {
    if chunks == [] then "" else Concat(chunks[..|chunks| - 1]) + chunks[|chunks| - 1]
  }

  // ---- The reader, as it runs ----

  /** `streamChat` over the texts its reads produce. However the printed text of a list of frames is cut into reads, it
      delivers exactly their payloads, in order, and leaves nothing in the buffer. */
  method StreamChat(chunks: seq<string>) returns (delivered: seq<string>, buffer: string)
    ensures buffer == Rest(Concat(chunks))
    ensures delivered == DeliverAll(Blocks(Concat(chunks))) + if Trim(buffer) != "" then Delivered(buffer) else []
    ensures forall frames :: AllWellFormed(frames) && Concat(chunks) == EncodeAll(frames) ==>
              delivered == PayloadsOf(frames) && buffer == ""
  {
    buffer := "";
    delivered := [];
    assert Rest("") == "" && Blocks("") == [];
    for n := 0 to |chunks|
      invariant buffer == Rest(Concat(chunks[..n])) && delivered == DeliverAll(Blocks(Concat(chunks[..n])))
    {
      ghost var text := Concat(chunks[..n]);
      assert chunks[..n + 1][..n] == chunks[..n];
      BlocksSplit(text, chunks[n]);
      FlatMapSplits(Delivered, Blocks(text), Blocks(buffer + chunks[n]));
      buffer := buffer + chunks[n];
      var more;
      more, buffer := ConsumeBlocks(buffer, Delivered);
      delivered := delivered + more;
    }
    assert chunks[..|chunks|] == chunks;
    ghost var text := Concat(chunks);
    if Trim(buffer) != "" {
      delivered := delivered + Delivered(buffer);
    }
    forall frames | AllWellFormed(frames) && text == EncodeAll(frames)
      ensures delivered == PayloadsOf(frames) && buffer == ""
    {
      RoundTrip(frames, text);
    }
  }

  /** The inner loop: hands every complete block of the buffer to `consume`. */
  method ConsumeBlocks(text: string, consume: string -> seq<string>) returns (delivered: seq<string>, buffer: string)
    ensures buffer == Rest(text) && delivered == FlatMap(consume, Blocks(text))
  {
    buffer := text;
    delivered := [];
    ghost var seen := [];
    var boundary := Boundary(buffer);
    while boundary != |buffer|
      invariant boundary == Boundary(buffer)
      invariant Rest(buffer) == Rest(text) && seen + Blocks(buffer) == Blocks(text)
      invariant delivered == FlatMap(consume, seen)
      decreases |buffer|
    {
      var block := buffer[..boundary];
      buffer := buffer[boundary + 2..];
      Regroup(seen, block, Blocks(buffer));
      FlatMapGrows(consume, seen, block);
      delivered := delivered + consume(block);
      seen := seen + [block];
      boundary := Boundary(buffer);
    }
    assert seen + [] == seen;
  }

  lemma Regroup(a: seq<string>, x: string, b: seq<string>)
    ensures a + ([x] + b) == (a + [x]) + b
  {
  }

  lemma FlatMapWhole(f: string -> seq<string>, init: seq<string>, last: string, whole: seq<string>)
    requires whole == init + [last]
    ensures FlatMap(f, whole) == FlatMap(f, init) + f(last)
  {
    assert whole[..|init|] == init;
  }

  lemma FlatMapGrows(f: string -> seq<string>, xs: seq<string>, x: string)
    ensures FlatMap(f, xs + [x]) == FlatMap(f, xs) + f(x)
  {
    assert (xs + [x])[..|xs|] == xs;
  }

  lemma {:induction false} FlatMapSplits(f: string -> seq<string>, a: seq<string>, b: seq<string>)
    ensures FlatMap(f, a + b) == FlatMap(f, a) + FlatMap(f, b)
  {
    if b == [] {
      assert a + b == a;
    } else {
      var init, last := b[..|b| - 1], b[|b| - 1];
      FlatMapSplits(f, a, init);
      SplitLast(a, b);
      FlatMapWhole(f, a + init, last, a + b);
      FlatMapWhole(f, init, last, b);
    }
  }

  // ---- Fragmentation does not matter ----

  lemma BoundaryIsLeast(s: string, i: nat)
    requires BlankLineAt(s, i) && forall j: nat :: j < i ==> !BlankLineAt(s, j)
    ensures Boundary(s) == i
  {
  }

  lemma BoundaryOfPrefix(a: string, b: string)
    requires Boundary(a) < |a|
    ensures Boundary(a + b) == Boundary(a)
  {
    var i := Boundary(a);
    assert forall j: nat :: j <= i ==> (BlankLineAt(a + b, j) <==> BlankLineAt(a, j));
    BoundaryIsLeast(a + b, i);
  }

  lemma FirstBlock(s: string, i: nat, block: string, tail: string)
    requires i == Boundary(s) < |s| && block == s[..i] && tail == s[i + 2..]
    ensures Blocks(s) == [block] + Blocks(tail) && Rest(s) == Rest(tail)
  {
  }

  /** Reading a text in two parts finds the same blocks, wherever it is cut. */
  lemma {:induction false} BlocksSplit(a: string, b: string)
    ensures Blocks(a + b) == Blocks(a) + Blocks(Rest(a) + b)
    ensures Rest(a + b) == Rest(Rest(a) + b)
    decreases |a|
  {
    var i := Boundary(a);
    if i < |a| {
      BoundaryOfPrefix(a, b);
      var block, tail := a[..i], a[i + 2..];
      FirstBlock(a, i, block, tail);
      FirstBlock(a + b, i, block, tail + b);
      BlocksSplit(tail, b);
    }
  }

  // ---- What the reader takes from a block ----

  predicate AllBlank(s: string) { forall i :: 0 <= i < |s| ==> IsBlank(s[i]) }

  lemma {:induction false} TrimStartIs(s: string) returns (left: string)
    ensures s == left + TrimStart(s) && AllBlank(left) && (TrimStart(s) != "" ==> !IsBlank(TrimStart(s)[0]))
  {
    if s != "" && IsBlank(s[0]) {
      var rest := TrimStartIs(s[1..]);
      left := [s[0]] + rest;
    } else {
      left := "";
    }
  }

  lemma {:induction false} TrimEndIs(s: string) returns (right: string)
    ensures s == TrimEnd(s) + right && AllBlank(right)
    ensures TrimEnd(s) != "" ==> !IsBlank(TrimEnd(s)[|TrimEnd(s)| - 1]) && TrimEnd(s)[0] == s[0]
  {
    if s != "" && IsBlank(s[|s| - 1]) {
      var rest := TrimEndIs(s[..|s| - 1]);
      right := rest + [s[|s| - 1]];
    } else {
      right := "";
    }
  }

  /** Trimming takes away white space at both ends, all of it and nothing else. */
  lemma TrimIs(s: string) returns (left: string, right: string)
    ensures s == left + Trim(s) + right && AllBlank(left) && AllBlank(right)
    ensures Trim(s) != "" ==> !IsBlank(Trim(s)[0]) && !IsBlank(Trim(s)[|Trim(s)| - 1])
  {
    left := TrimStartIs(s);
    right := TrimEndIs(TrimStart(s));
  }

  /** A block of data lines only, one for each text. */
  function DataLines(texts: seq<string>): seq<string> {
    if texts == [] then [] else ["data:" + texts[0]] + DataLines(texts[1..])
  }

  function Trimmed(texts: seq<string>): seq<string> {
    if texts == [] then [] else [Trim(texts[0])] + Trimmed(texts[1..])
  }

  lemma {:induction false} DataLinesRead(texts: seq<string>)
    ensures DataOf(DataLines(texts)) == Trimmed(texts)
  {
    if texts != [] {
      var line := "data:" + texts[0];
      assert line[..5] == "data:" && line[5..] == texts[0];
      DataLinesRead(texts[1..]);
      assert DataLines(texts)[1..] == DataLines(texts[1..]);
    }
  }

  /** Any line that is no data line, a comment, an `id:` or an `event:` line, is passed over wherever it stands. */
  lemma {:induction false} OtherLinesSkipped(before: seq<string>, line: string, after: seq<string>)
    requires !IsData(line)
    ensures DataOf(before + [line] + after) == DataOf(before + after)
  {
    var whole := before + [line] + after;
    if before == [] {
      assert whole[1..] == after && before + after == after;
    } else {
      OtherLinesSkipped(before[1..], line, after);
      assert whole[1..] == before[1..] + [line] + after && (before + after)[1..] == before[1..] + after;
    }
  }

  lemma PairUnrolls(a: string, b: string, texts: seq<string>)
    requires texts == [a] + [b]
    ensures DataLines(texts) == ["data:" + a] + ["data:" + b] && Trimmed(texts) == [Trim(a)] + [Trim(b)]
  {
    var one, none := texts[1..], texts[2..];
    assert one == [b] && one[1..] == none && none == [];
    assert DataLines(none) == [] && Trimmed(none) == [];
    assert DataLines(one) == ["data:" + b] && Trimmed(one) == [Trim(b)];
  }

  lemma JoinTwo(x: string, y: string, parts: seq<string>)
    requires parts == [x] + [y]
    ensures Join(parts) == x + "\n" + y
  {
    assert parts[1..] == [y];
  }

  /** Two data lines are handed over as one text with a line feed between them. */
  lemma TwoDataLines(a: string, b: string, block: string)
    requires Lines(block) == ["data:" + a] + ["data:" + b]
    ensures Delivered(block) == [Trim(a) + "\n" + Trim(b)]
  {
    var texts := [a] + [b];
    DataLinesRead(texts);
    PairUnrolls(a, b, texts);
    JoinTwo(Trim(a), Trim(b), Trimmed(texts));
    assert (Trim(a) + "\n" + Trim(b))[|Trim(a)|] == '\n';
  }

  // ---- The printed frames are read back ----

  /** A block the reader cannot mistake: no blank line inside, no newline at its end. */
  ghost predicate Solid(s: string) {
    s != "" && s[|s| - 1] != '\n' && forall i: nat :: !BlankLineAt(s, i)
  }

  lemma OneLineIsSolid(s: string)
    requires OneLine(s) && s != ""
    ensures Solid(s)
  {
  }

  lemma JoinedIsSolid(s: string, t: string)
    requires OneLine(s) && s != "" && Solid(t) && t[0] != '\n'
    ensures Solid(s + "\n" + t)
  {
    var u := s + "\n" + t;
    forall i: nat ensures !BlankLineAt(u, i) {
      if i > |s| && i + 1 < |u| {
        assert !BlankLineAt(t, i - |s| - 1);
      } else if i < |s| {
        assert u[i] == s[i];
      }
    }
  }

  lemma IdIsOneLine(n: nat)
    ensures OneLine("id: " + Decimal(n))
  {
    var digits := Decimal(n);
    forall i | 0 <= i < |digits| ensures digits[i] != '\n' { assert digits[i] in digits; }
  }

  lemma BodyIsSolid(f: Frame)
    requires WellFormed(f)
    ensures Solid(Body(f))
  {
    match f {
      case AgentFrame(payload) => OneLineIsSolid("data: " + payload);
      case StoredFrame(sequence, eventType, payload) =>
        OneLineIsSolid("data: " + payload);
        JoinedIsSolid("event: " + eventType, "data: " + payload);
        IdIsOneLine(sequence);
        JoinedIsSolid("id: " + Decimal(sequence), ("event: " + eventType) + "\n" + ("data: " + payload));
      case KeepAlive => OneLineIsSolid(": keepalive");
    }
  }

  lemma SolidComesFirst(s: string, rest: string)
    requires Solid(s)
    ensures Blocks(s + "\n\n" + rest) == [s] + Blocks(rest) && Rest(s + "\n\n" + rest) == Rest(rest)
  {
    var t := s + "\n\n" + rest;
    forall j: nat | j < |s| ensures !BlankLineAt(t, j) {
      assert !BlankLineAt(s, j);
    }
    BoundaryIsLeast(t, |s|);
    assert t[..|s|] == s && t[|s| + 2..] == rest;
  }

  function Bodies(frames: seq<Frame>): seq<string> {
    if frames == [] then [] else [Body(frames[0])] + Bodies(frames[1..])
  }

  lemma {:induction false} EncodedBlocks(frames: seq<Frame>)
    requires AllWellFormed(frames)
    ensures Blocks(EncodeAll(frames)) == Bodies(frames) && Rest(EncodeAll(frames)) == ""
  {
    if frames != [] {
      BodyIsSolid(frames[0]);
      SolidComesFirst(Body(frames[0]), EncodeAll(frames[1..]));
      EncodedBlocks(frames[1..]);
    }
  }

  lemma LineEndIs(s: string, i: nat)
    requires i <= |s| && (i < |s| ==> s[i] == '\n') && forall j :: 0 <= j < i ==> s[j] != '\n'
    ensures LineEnd(s) == i
  {
  }

  lemma FirstLine(s: string, t: string)
    requires OneLine(s)
    ensures Lines(s + "\n" + t) == [s] + Lines(t)
  {
    var u := s + "\n" + t;
    LineEndIs(u, |s|);
    assert u[..|s|] == s && u[|s| + 1..] == t;
  }

  lemma OnlyLine(s: string)
    requires OneLine(s)
    ensures Lines(s) == [s]
  {
    LineEndIs(s, |s|);
  }

  lemma DataLine(payload: string)
    requires Payload(payload)
    ensures IsData("data: " + payload) && Trim(("data: " + payload)[5..]) == payload
  {
    var line := "data: " + payload;
    assert line[..5] == "data:" && line[5..] == " " + payload;
    assert TrimStart(" " + payload) == TrimStart((" " + payload)[1..]);
    assert (" " + payload)[1..] == payload;
  }

  lemma NotData(line: string)
    requires line != "" && line[0] != 'd'
    ensures !IsData(line)
  {
    assert |line| >= 5 ==> line[..5][0] == line[0];
  }

  lemma SkipLine(line: string, more: seq<string>)
    requires line != "" && line[0] != 'd'
    ensures DataOf([line] + more) == DataOf(more)
  {
    NotData(line);
    assert ([line] + more)[1..] == more;
  }

  lemma OneDataLine(line: string, payload: string)
    requires OneLine(line) && IsData(line) && Trim(line[5..]) == payload && payload != ""
    ensures DataOf(Lines(line)) == [payload] && Delivered(line) == [payload]
  {
    OnlyLine(line);
    assert [line][1..] == [];
  }

  lemma SkippedLine(line: string, block: string)
    requires OneLine(line) && line != "" && line[0] != 'd'
    ensures Delivered(line + "\n" + block) == Delivered(block)
  {
    FirstLine(line, block);
    SkipLine(line, Lines(block));
  }

  lemma StoredFrameDelivers(sequence: nat, eventType: string, payload: string)
    requires WellFormed(StoredFrame(sequence, eventType, payload))
    ensures Delivered(Body(StoredFrame(sequence, eventType, payload))) == [payload]
  {
    DataLine(payload);
    OneDataLine("data: " + payload, payload);
    IdIsOneLine(sequence);
    SkippedLine("event: " + eventType, "data: " + payload);
    SkippedLine("id: " + Decimal(sequence), ("event: " + eventType) + "\n" + ("data: " + payload));
  }

  lemma AgentFrameDelivers(payload: string)
    requires Payload(payload)
    ensures Delivered(Body(AgentFrame(payload))) == [payload]
  {
    DataLine(payload);
    OneDataLine("data: " + payload, payload);
  }

  lemma CommentDelivers(line: string)
    requires line == ": keepalive"
    ensures Delivered(line) == []
  {
    OnlyLine(line);
    NotData(line);
    var lines := [line];
    assert lines[1..] == [] && DataOf(lines) == DataOf(lines[1..]);
  }

  lemma ThreeLines(a: string, b: string, c: string, rest: string)
    requires OneLine(a) && OneLine(b) && OneLine(c) && rest == b + "\n" + c
    ensures Lines(a + "\n" + rest) == [a] + [b] + [c]
  {
    FirstLine(a, rest);
    FirstLine(b, c);
    OnlyLine(c);
  }

  /** A stored frame is three lines: its number, its type and its payload; and the number, which a client sends back as
      `Last-Event-ID`, reads back as the event's sequence number. */
  lemma StoredFrameLines(f: Frame, id: string, event: string, data: string)
    requires f.StoredFrame? && WellFormed(f)
    requires id == "id: " + Decimal(f.sequence) && event == "event: " + f.eventType && data == "data: " + f.payload
    ensures Lines(Body(f)) == [id] + [event] + [data] && DecimalValue(Decimal(f.sequence)) == f.sequence
  {
    IdIsOneLine(f.sequence);
    DecimalReadsBack(f.sequence);
    ThreeLines(id, event, data, event + "\n" + data);
  }

  /** The reader gets back exactly the payload of a frame, and nothing for a keep-alive. */
  lemma FrameDelivers(f: Frame)
    requires WellFormed(f)
    ensures Delivered(Body(f)) == if f.KeepAlive? then [] else [f.payload]
  {
    match f {
      case AgentFrame(payload) =>
        AgentFrameDelivers(payload);
      case StoredFrame(sequence, eventType, payload) =>
        StoredFrameDelivers(sequence, eventType, payload);
      case KeepAlive =>
        CommentDelivers(": keepalive");
    }
  }

  lemma {:induction false} BodiesDeliver(frames: seq<Frame>)
    requires AllWellFormed(frames)
    ensures DeliverAll(Bodies(frames)) == PayloadsOf(frames)
  {
    if frames != [] {
      FrameDelivers(frames[0]);
      BodiesDeliver(frames[1..]);
      FirstDelivers(Body(frames[0]), Bodies(frames[1..]), Bodies(frames));
    }
  }

  lemma FirstDelivers(first: string, rest: seq<string>, whole: seq<string>)
    requires whole == [first] + rest
    ensures DeliverAll(whole) == Delivered(first) + DeliverAll(rest)
  {
    FlatMapSplits(Delivered, [first], rest);
    FlatMapGrows(Delivered, [], first);
    assert [] + [first] == [first];
  }

  /** Round trip: reading the printed text of a list of frames delivers exactly the payloads, in order, and leaves
      nothing over. */
  lemma RoundTrip(frames: seq<Frame>, text: string)
    requires AllWellFormed(frames) && text == EncodeAll(frames)
    ensures DeliverAll(Blocks(text)) == PayloadsOf(frames) && Rest(text) == "" && Trim(Rest(text)) == ""
  {
    EncodedBlocks(frames);
    BodiesDeliver(frames);
  }
}
