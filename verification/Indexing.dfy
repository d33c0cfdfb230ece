/** Documents, their chunks and the vector index, as values: what creating and reindexing do when embedding or any
    upsert may fail. Identifiers are numbered in the order in which they are drawn. */
module Indexing {
  import opened Common
  import opened Text
  import opened HierarchicalChunking
  import opened ChunkingCoverage
  import opened ChunkingOffsets
  import Chunking

  // ---- Index records of one document ----

  datatype IndexingMode =
    | Flat(size: nat, overlap: nat)
    | Hierarchical(parentSize: int, parentOverlap: int, childSize: int, childOverlap: int)

  /** The flat splitter is used with sizes of at least 1. */
  type Mode = m: IndexingMode | m.Flat? ==> m.size > 0 witness Flat(1, 0)

  /** The text of a chunk record and, in hierarchical mode, its parent's index and its offsets. */
  datatype Piece = Piece(content: string, parent: Option<nat>, start: Option<nat>, end: Option<nat>)

  type ChildSplitter = TextBlock -> seq<TextBlock>

  function ChildSplitting(size: int, overlap: int): ChildSplitter { parent => Children(parent, size, overlap) }

  function ChildPieces(parents: seq<TextBlock>, children: ChildSplitter): seq<Piece> {
    if parents == [] then []
    else
      var parent := parents[|parents| - 1];
      ChildPieces(parents[..|parents| - 1], children) + PiecesOf(parent, children(parent))
  }

  function PiecesOf(parent: TextBlock, children: seq<TextBlock>): (r: seq<Piece>)
    ensures |r| == |children|
    ensures forall k :: 0 <= k < |r| ==>
              r[k] == Piece(children[k].content, Some(parent.index), Some(children[k].start), Some(children[k].end))
  {
    seq(|children|, k requires 0 <= k < |children| =>
      Piece(children[k].content, Some(parent.index), Some(children[k].start), Some(children[k].end)))
  }

  /** `_build_index_records`; a record's index is its position. */
  function Pieces(content: string, mode: Mode): seq<Piece> {
    match mode
    case Flat(size, overlap) =>
      var chunks := Chunking.Chunks(content, size, overlap);
      seq(|chunks|, k requires 0 <= k < |chunks| => Piece(chunks[k], None, None, None))
    case Hierarchical(size, overlap, childSize, childOverlap) =>
      ChildPieces(Parents(content, size, overlap), ChildSplitting(childSize, childOverlap))
  }

  type Splitter = string -> seq<Piece>

  /** What the service does with a document's text in the given mode. */
  function Splitting(mode: Mode): Splitter { content => Pieces(content, mode) }

  // ---- State ----

  datatype Status = Pending | Ready | Failed

  datatype Failure = EmbeddingFailed | WrongCount(got: nat, want: nat) | UpsertFailed(at: nat) | ReplaceFailed

  datatype Chunk = Chunk(id: nat, piece: Piece, signature: Option<string>)

  datatype Document = Document(content: string, status: Status, error: Option<Failure>, chunks: seq<Chunk>)

  type Vector = seq<real>

  /** Documents in creation order, the vector store, and the next chunk id. */
  datatype Index = Index(documents: seq<Document>, vectors: map<nat, Vector>, nextId: nat)

  /** What the embedding provider returns, if it returns, under which signature, and which write fails, if one does. */
  datatype Attempt = Attempt(embeddings: Option<seq<Vector>>, signature: string, failAt: Option<nat>)

  function NewChunks(pieces: seq<Piece>, first: nat): (r: seq<Chunk>)
    ensures |r| == |pieces| && forall k :: 0 <= k < |r| ==> r[k] == Chunk(first + k, pieces[k], None)
  {
    seq(|pieces|, k requires 0 <= k < |pieces| => Chunk(first + k, pieces[k], None))
  }

  function Signed(chunks: seq<Chunk>, signature: Option<string>): (r: seq<Chunk>)
    ensures |r| == |chunks| && forall k :: 0 <= k < |r| ==> r[k] == chunks[k].(signature := signature)
  {
    seq(|chunks|, k requires 0 <= k < |chunks| => chunks[k].(signature := signature))
  }

  function Ids(chunks: seq<Chunk>): set<nat> { set k | 0 <= k < |chunks| :: chunks[k].id }

  /** The vector store after the first k upserts. */
  function Upserted(vectors: map<nat, Vector>, chunks: seq<Chunk>, embeddings: seq<Vector>, k: nat): map<nat, Vector>
    requires k <= |chunks| && k <= |embeddings|
  {
    if k == 0 then vectors else Upserted(vectors, chunks, embeddings, k - 1)[chunks[k - 1].id := embeddings[k - 1]]
  }

  /** What stops the attempt before any vector is written. */
  function EarlyFailure(a: Attempt, n: nat): (f: Option<Failure>)
    ensures f == None ==> a.embeddings.Some? && |a.embeddings.value| == n
  {
    if a.embeddings == None then Some(EmbeddingFailed)
    else if |a.embeddings.value| != n then Some(WrongCount(|a.embeddings.value|, n))
    else None
  }

  /** The upsert that fails, if one of the n does. */
  function FailingUpsert(a: Attempt, n: nat): Option<nat> {
    if a.failAt.Some? && a.failAt.value < n then a.failAt else None
  }

  // ---- create_document ----

  function CreateFailure(a: Attempt, n: nat): Option<Failure> {
    if EarlyFailure(a, n).Some? then EarlyFailure(a, n)
    else if FailingUpsert(a, n).Some? then Some(UpsertFailed(FailingUpsert(a, n).value))
    else None
  }

  /** How many vectors the attempt writes. */
  function Written(a: Attempt, n: nat): (k: nat)
    ensures k <= n && (k > 0 ==> a.embeddings.Some? && |a.embeddings.value| == n)
  {
    if EarlyFailure(a, n).Some? then 0 else if FailingUpsert(a, n).Some? then FailingUpsert(a, n).value else n
  }

  function Embeddings(a: Attempt): seq<Vector> { if a.embeddings.Some? then a.embeddings.value else [] }

  function Create(ix: Index, content: string, split: Splitter, a: Attempt): Index {
    var chunks := NewChunks(split(content), ix.nextId);
    var n := |chunks|;
    var written := Upserted(ix.vectors, chunks, Embeddings(a), Written(a, n));
    var failure := CreateFailure(a, n);
    if failure == None then
      Index(ix.documents + [Document(content, Ready, None, Signed(chunks, Some(a.signature)))], written, ix.nextId + n)
    else
      Index(ix.documents + [Document(content, Failed, failure, Signed(chunks, None))], written - Ids(chunks),
            ix.nextId + n)
  }

  // ---- reindex_documents ----

  /** Fresh records for every document. */
  function Prepared(documents: seq<Document>, split: Splitter, first: nat): (r: seq<seq<Chunk>>)
    ensures |r| == |documents|
  {
    if documents == [] then []
    else
      var init := Prepared(documents[..|documents| - 1], split, first);
      init + [NewChunks(split(documents[|documents| - 1].content), first + |Concat(init)|)]
  }

  function Concat<T>(lists: seq<seq<T>>): seq<T> {
    if lists == [] then [] else Concat(lists[..|lists| - 1]) + lists[|lists| - 1]
  }

  /** What stops the reindexing, if something does. */
  function ReindexFailure(a: Attempt, n: nat, clear: bool): Option<Failure> {
    if EarlyFailure(a, n).Some? then EarlyFailure(a, n)
    else if clear then (if a.failAt.Some? then Some(ReplaceFailed) else None)
    else if FailingUpsert(a, n).Some? then Some(UpsertFailed(FailingUpsert(a, n).value))
    else None
  }

  function Reindexed(documents: seq<Document>, lists: seq<seq<Chunk>>, signature: string): (r: seq<Document>)
    requires |lists| == |documents|
    ensures |r| == |documents|
  {
    seq(|documents|, d requires 0 <= d < |documents| =>
      Document(documents[d].content, Ready, None, Signed(lists[d], Some(signature))))
  }

  function Reindex(ix: Index, split: Splitter, clear: bool, a: Attempt): Index {
    var lists := Prepared(ix.documents, split, ix.nextId);
    var all := Concat(lists);
    var n := |all|;
    if n == 0 then ix
    else if ReindexFailure(a, n, clear) == None then
      Index(Reindexed(ix.documents, lists, a.signature),
            Upserted(if clear then map[] else ix.vectors, all, Embeddings(a), n), ix.nextId + n)
    else
      ix.(vectors := if clear then ix.vectors else Upserted(ix.vectors, all, Embeddings(a), Written(a, n)),
          nextId := ix.nextId + n)
  }

  // ---- Runs ----

  datatype Operation =
    | CreateDocument(content: string, attempt: Attempt)
    | ReindexDocuments(clear: bool, attempt: Attempt)

  function Perform(ix: Index, op: Operation, split: Splitter): Index {
    match op
    case CreateDocument(content, a) => Create(ix, content, split, a)
    case ReindexDocuments(clear, a) => Reindex(ix, split, clear, a)
  }

  function Run(ops: seq<Operation>, split: Splitter): Index {
    if ops == [] then Index([], map[], 0) else Perform(Run(ops[..|ops| - 1], split), ops[|ops| - 1], split)
  }

  // ---- Agreement ----

  /** Every chunk of a ready document has a vector and a signature; no chunk of a failed one has either. */
  ghost predicate Agrees(d: Document, vectors: map<nat, Vector>, nextId: nat, split: Splitter) {
    && d.status != Pending && (d.status == Failed <==> d.error.Some?)
    && |d.chunks| == |split(d.content)|
    && forall k :: 0 <= k < |d.chunks| ==> ChunkAgrees(d.chunks[k], d.status, split(d.content)[k], vectors, nextId)
  }

  ghost predicate ChunkAgrees(c: Chunk, status: Status, piece: Piece, vectors: map<nat, Vector>, nextId: nat) {
    && c.piece == piece && c.id < nextId
    && (status == Ready ==> c.id in vectors && c.signature.Some?)
    && (status == Failed ==> c.id !in vectors && c.signature == None)
  }

  ghost predicate Agreement(ix: Index, split: Splitter) {
    && (forall d {:trigger ix.documents[d]} :: 0 <= d < |ix.documents| ==>
          Agrees(ix.documents[d], ix.vectors, ix.nextId, split))
    && (forall id :: id in ix.vectors ==> id < ix.nextId)
  }

  lemma {:induction false} UpsertedKeys(vectors: map<nat, Vector>, chunks: seq<Chunk>, embeddings: seq<Vector>, k: nat)
    requires k <= |chunks| && k <= |embeddings|
    ensures Upserted(vectors, chunks, embeddings, k).Keys == vectors.Keys + Ids(chunks[..k])
  {
    if k > 0 {
      UpsertedKeys(vectors, chunks, embeddings, k - 1);
      assert chunks[..k][..k - 1] == chunks[..k - 1];
    }
  }

  /** Upserts leave the other vectors alone. */
  lemma {:induction false} UpsertedOthers(vectors: map<nat, Vector>, chunks: seq<Chunk>, embeddings: seq<Vector>,
                                          k: nat, id: nat)
    requires k <= |chunks| && k <= |embeddings| && id in vectors && id !in Ids(chunks)
    ensures id in Upserted(vectors, chunks, embeddings, k)
            && Upserted(vectors, chunks, embeddings, k)[id] == vectors[id]
  {
    if k > 0 {
      UpsertedOthers(vectors, chunks, embeddings, k - 1, id);
      assert chunks[k - 1].id in Ids(chunks);
    }
  }

  lemma AgreesKeeps(d: Document, v: map<nat, Vector>, m: nat, w: map<nat, Vector>, n: nat, split: Splitter)
    requires Agrees(d, v, m, split) && m <= n && forall id: nat :: id < m ==> (id in v <==> id in w)
    ensures Agrees(d, w, n, split)
  {
    forall k | 0 <= k < |d.chunks| ensures ChunkAgrees(d.chunks[k], d.status, split(d.content)[k], w, n) {
      assert ChunkAgrees(d.chunks[k], d.status, split(d.content)[k], v, m);
    }
  }

  /** Deleting what was upserted restores a store that held none of those ids. */
  lemma UpsertsUndone(vectors: map<nat, Vector>, chunks: seq<Chunk>, embeddings: seq<Vector>, k: nat)
    requires k <= |chunks| && k <= |embeddings| && vectors.Keys !! Ids(chunks)
    ensures Upserted(vectors, chunks, embeddings, k) - Ids(chunks) == vectors
  {
    var written := Upserted(vectors, chunks, embeddings, k);
    UpsertedKeys(vectors, chunks, embeddings, k);
    IdsOfPrefix(chunks, k);
    forall id | id in vectors ensures id in written && written[id] == vectors[id] {
      UpsertedOthers(vectors, chunks, embeddings, k, id);
    }
  }

  lemma IdsOfPrefix(chunks: seq<Chunk>, k: nat)
    requires k <= |chunks|
    ensures Ids(chunks[..k]) <= Ids(chunks)
  {
    forall id | id in Ids(chunks[..k]) ensures id in Ids(chunks) {
      var j :| 0 <= j < k && chunks[..k][j].id == id;
      assert chunks[j].id == id;
    }
  }

  lemma NewIds(pieces: seq<Piece>, first: nat)
    ensures forall id :: id in Ids(NewChunks(pieces, first)) <==> first <= id < first + |pieces|
  {
    var chunks := NewChunks(pieces, first);
    forall id | first <= id < first + |pieces| ensures id in Ids(chunks) {
      assert chunks[id - first].id == id;
    }
  }

  /** A failed create writes nothing that stays: the vector store is exactly what it was. */
  lemma FailedCreateLeavesNothing(ix: Index, content: string, split: Splitter, a: Attempt)
    requires Agreement(ix, split) && CreateFailure(a, |split(content)|).Some?
    ensures Create(ix, content, split, a).vectors == ix.vectors
  {
    var pieces := split(content);
    var chunks := NewChunks(pieces, ix.nextId);
    NewIds(pieces, ix.nextId);
    UpsertsUndone(ix.vectors, chunks, Embeddings(a), Written(a, |chunks|));
  }

  lemma OthersAgree(ix: Index, split: Splitter, w: map<nat, Vector>, n: nat)
    requires Agreement(ix, split) && ix.nextId <= n
    requires forall id: nat :: id < ix.nextId ==> (id in ix.vectors <==> id in w)
    ensures forall d {:trigger ix.documents[d]} :: 0 <= d < |ix.documents| ==> Agrees(ix.documents[d], w, n, split)
  {
    forall d {:trigger ix.documents[d]} | 0 <= d < |ix.documents| ensures Agrees(ix.documents[d], w, n, split) {
      AgreesKeeps(ix.documents[d], ix.vectors, ix.nextId, w, n, split);
    }
  }

  lemma CreateAgrees(ix: Index, content: string, split: Splitter, a: Attempt)
    requires Agreement(ix, split)
    ensures Agreement(Create(ix, content, split, a), split)
  {
    var pieces := split(content);
    var chunks := NewChunks(pieces, ix.nextId);
    var r := Create(ix, content, split, a);
    NewIds(pieces, ix.nextId);
    if CreateFailure(a, |chunks|).Some? {
      FailedCreateLeavesNothing(ix, content, split, a);
    } else {
      UpsertedKeys(ix.vectors, chunks, Embeddings(a), |chunks|);
      assert chunks[..|chunks|] == chunks;
    }
    OthersAgree(ix, split, r.vectors, r.nextId);
    NewDocumentAgrees(r.documents[|ix.documents|], chunks, pieces, r.vectors, r.nextId, split);
  }

  lemma NewDocumentAgrees(
    d: Document, chunks: seq<Chunk>, pieces: seq<Piece>, vectors: map<nat, Vector>, nextId: nat, split: Splitter)
    requires pieces == split(d.content) && |chunks| == |pieces| && d.status != Pending
    requires d.status == Failed <==> d.error.Some?
    requires exists signature :: d.chunks == Signed(chunks, signature) && (d.status == Failed <==> signature == None)
    requires forall k :: 0 <= k < |chunks| ==> chunks[k].piece == pieces[k] && chunks[k].id < nextId
    requires if d.status == Ready then Ids(chunks) <= vectors.Keys else Ids(chunks) !! vectors.Keys
    ensures Agrees(d, vectors, nextId, split)
  {
    forall k | 0 <= k < |d.chunks| ensures ChunkAgrees(d.chunks[k], d.status, pieces[k], vectors, nextId) {
      assert chunks[k].id in Ids(chunks);
    }
  }

  // ---- Reindexing ----

  lemma {:induction false} PreparedIds(documents: seq<Document>, split: Splitter, first: nat)
    ensures forall j :: 0 <= j < |Concat(Prepared(documents, split, first))| ==>
              Concat(Prepared(documents, split, first))[j].id == first + j
  {
    if documents != [] {
      PreparedIds(documents[..|documents| - 1], split, first);
    }
  }

  /** Each document's fresh records take consecutive ids among those drawn for the whole reindexing. */
  lemma {:induction false} PreparedAt(documents: seq<Document>, split: Splitter, first: nat, d: nat)
    returns (start: nat)
    requires d < |documents|
    ensures Prepared(documents, split, first)[d] == NewChunks(split(documents[d].content), start)
    ensures first <= start
    ensures start + |Prepared(documents, split, first)[d]| <= first + |Concat(Prepared(documents, split, first))|
  {
    var init := documents[..|documents| - 1];
    var lists := Prepared(documents, split, first);
    PreparedUnrolls(documents, split, first);
    if d == |init| {
      start := first + |Concat(Prepared(init, split, first))|;
    } else {
      start := PreparedAt(init, split, first, d);
      assert lists[d] == Prepared(init, split, first)[d];
    }
  }

  lemma PreparedUnrolls(documents: seq<Document>, split: Splitter, first: nat)
    requires documents != []
    ensures var init, last := documents[..|documents| - 1], documents[|documents| - 1];
            var before, lists := Prepared(init, split, first), Prepared(documents, split, first);
            && lists[|init|] == NewChunks(split(last.content), first + |Concat(before)|)
            && lists[..|init|] == before && |Concat(lists)| == |Concat(before)| + |lists[|init|]|
  {
  }

  lemma IdsAreAllDrawn(documents: seq<Document>, split: Splitter, first: nat)
    ensures var all := Concat(Prepared(documents, split, first));
            forall id :: id in Ids(all) <==> first <= id < first + |all|
  {
    var all := Concat(Prepared(documents, split, first));
    PreparedIds(documents, split, first);
    forall id | first <= id < first + |all| ensures id in Ids(all) {
      assert all[id - first].id == id;
    }
  }

  lemma ReindexWrites(ix: Index, split: Splitter, clear: bool, a: Attempt)
    requires Agreement(ix, split)
    requires |Concat(Prepared(ix.documents, split, ix.nextId))| > 0
    requires ReindexFailure(a, |Concat(Prepared(ix.documents, split, ix.nextId))|, clear) == None
    ensures var r := Reindex(ix, split, clear, a);
            && (forall id :: ix.nextId <= id < r.nextId ==> id in r.vectors)
            && forall id :: id in r.vectors ==> id < r.nextId
  {
    var all := Concat(Prepared(ix.documents, split, ix.nextId));
    UpsertedKeys(if clear then map[] else ix.vectors, all, Embeddings(a), |all|);
    assert all[..|all|] == all;
    IdsAreAllDrawn(ix.documents, split, ix.nextId);
  }

  lemma ReindexSucceeds(ix: Index, split: Splitter, clear: bool, a: Attempt)
    requires Agreement(ix, split)
    requires |Concat(Prepared(ix.documents, split, ix.nextId))| > 0
    requires ReindexFailure(a, |Concat(Prepared(ix.documents, split, ix.nextId))|, clear) == None
    ensures Agreement(Reindex(ix, split, clear, a), split)
  {
    var r := Reindex(ix, split, clear, a);
    ReindexWrites(ix, split, clear, a);
    forall d {:trigger r.documents[d]} | 0 <= d < |r.documents|
      ensures Agrees(r.documents[d], r.vectors, r.nextId, split) {
      ReindexedAgrees(ix, split, d, r.documents[d], a.signature, r.vectors, r.nextId);
    }
  }

  lemma ReindexedAgrees(
    ix: Index, split: Splitter, d: nat, document: Document, signature: string, vectors: map<nat, Vector>, nextId: nat)
    requires d < |ix.documents| && document.content == ix.documents[d].content
    requires document.status == Ready && document.error == None
    requires nextId == ix.nextId + |Concat(Prepared(ix.documents, split, ix.nextId))|
    requires forall id :: ix.nextId <= id < nextId ==> id in vectors
    requires document.chunks == Signed(Prepared(ix.documents, split, ix.nextId)[d], Some(signature))
    ensures Agrees(document, vectors, nextId, split)
  {
    var start := PreparedAt(ix.documents, split, ix.nextId, d);
    var pieces := split(document.content);
    NewIds(pieces, start);
    forall k | 0 <= k < |document.chunks| ensures ChunkAgrees(document.chunks[k], Ready, pieces[k], vectors, nextId) {
    }
  }

  lemma ReindexFails(ix: Index, split: Splitter, clear: bool, a: Attempt)
    requires Agreement(ix, split)
    requires ReindexFailure(a, |Concat(Prepared(ix.documents, split, ix.nextId))|, clear).Some?
    ensures Agreement(Reindex(ix, split, clear, a), split)
  {
    var all := Concat(Prepared(ix.documents, split, ix.nextId));
    var r := Reindex(ix, split, clear, a);
    var k := Written(a, |all|);
    UpsertedKeys(ix.vectors, all, Embeddings(a), k);
    IdsOfPrefix(all, k);
    IdsAreAllDrawn(ix.documents, split, ix.nextId);
    OthersAgree(ix, split, r.vectors, r.nextId);
  }

  /** Over any sequence of creates and reindexes, whatever fails wherever: every chunk of a ready document has its
      vector and signature, and no chunk of a failed one has either. */
  lemma {:induction false} AlwaysAgreement(ops: seq<Operation>, split: Splitter)
    ensures Agreement(Run(ops, split), split)
  {
    if ops != [] {
      var ix, op := Run(ops[..|ops| - 1], split), ops[|ops| - 1];
      AlwaysAgreement(ops[..|ops| - 1], split);
      match op
      case CreateDocument(content, a) => CreateAgrees(ix, content, split, a);
      case ReindexDocuments(clear, a) =>
        var n := |Concat(Prepared(ix.documents, split, ix.nextId))|;
        if n > 0 && ReindexFailure(a, n, clear) == None {
          ReindexSucceeds(ix, split, clear, a);
        } else if n > 0 {
          ReindexFails(ix, split, clear, a);
        }
    }
  }

  // ---- Exactness ----

  function ReadyIds(documents: seq<Document>): set<nat> {
    if documents == [] then {}
    else
      var last := documents[|documents| - 1];
      ReadyIds(documents[..|documents| - 1]) + if last.status == Ready then Ids(last.chunks) else {}
  }

  /** The vector store holds the chunks of the ready documents and nothing else. */
  predicate Exact(ix: Index) { ix.vectors.Keys == ReadyIds(ix.documents) }

  lemma SignedIds(chunks: seq<Chunk>, signature: Option<string>)
    ensures Ids(Signed(chunks, signature)) == Ids(chunks)
  {
    var signed := Signed(chunks, signature);
    forall id | id in Ids(chunks) ensures id in Ids(signed) {
      var k :| 0 <= k < |chunks| && chunks[k].id == id;
      assert signed[k].id == id;
    }
  }

  lemma ReadyIdsMore(documents: seq<Document>, d: Document)
    ensures ReadyIds(documents + [d]) == ReadyIds(documents) + if d.status == Ready then Ids(d.chunks) else {}
  {
    assert (documents + [d])[..|documents|] == documents;
  }

  /** One more document keeps a set of keys exact when it brings its ids if ready, and none otherwise. */
  lemma ExactGrows(documents: seq<Document>, keys: set<nat>, d: Document, ids: set<nat>, more: seq<Document>)
    requires keys == ReadyIds(documents) && more == documents + [d]
    requires ids == if d.status == Ready then Ids(d.chunks) else {}
    ensures keys + ids == ReadyIds(more)
  {
    ReadyIdsMore(documents, d);
  }

  lemma CreateKeepsExact(ix: Index, content: string, split: Splitter, a: Attempt)
    requires Agreement(ix, split) && Exact(ix)
    ensures Exact(Create(ix, content, split, a))
  {
    var chunks := NewChunks(split(content), ix.nextId);
    if CreateFailure(a, |chunks|).Some? {
      FailedCreateKeepsExact(ix, content, split, a);
    } else {
      CreatedIsExact(ix, content, split, a, chunks);
    }
  }

  lemma FailedCreateKeepsExact(ix: Index, content: string, split: Splitter, a: Attempt)
    requires Agreement(ix, split) && Exact(ix) && CreateFailure(a, |NewChunks(split(content), ix.nextId)|).Some?
    ensures Exact(Create(ix, content, split, a))
  {
    var r := Create(ix, content, split, a);
    FailedCreateLeavesNothing(ix, content, split, a);
    ExactGrows(ix.documents, ix.vectors.Keys, r.documents[|ix.documents|], {}, r.documents);
  }

  lemma CreatedIsExact(ix: Index, content: string, split: Splitter, a: Attempt, chunks: seq<Chunk>)
    requires Exact(ix) && chunks == NewChunks(split(content), ix.nextId) && CreateFailure(a, |chunks|).None?
    ensures Exact(Create(ix, content, split, a))
  {
    var r := Create(ix, content, split, a);
    SignedIds(chunks, Some(a.signature));
    UpsertedKeys(ix.vectors, chunks, Embeddings(a), |chunks|);
    assert chunks[..|chunks|] == chunks;
    ExactGrows(ix.documents, ix.vectors.Keys, r.documents[|ix.documents|], Ids(chunks), r.documents);
  }

  lemma IdsJoin(a: seq<Chunk>, b: seq<Chunk>)
    ensures Ids(a + b) == Ids(a) + Ids(b)
  {
    forall id | id in Ids(a) ensures id in Ids(a + b) {
      var k :| 0 <= k < |a| && a[k].id == id;
      assert (a + b)[k].id == id;
    }
    forall id | id in Ids(b) ensures id in Ids(a + b) {
      var k :| 0 <= k < |b| && b[k].id == id;
      assert (a + b)[|a| + k].id == id;
    }
  }

  lemma {:induction false} ReindexedIds(documents: seq<Document>, lists: seq<seq<Chunk>>, signature: string)
    requires |lists| == |documents|
    ensures ReadyIds(Reindexed(documents, lists, signature)) == Ids(Concat(lists))
  {
    if documents != [] {
      var d, l := documents[..|documents| - 1], lists[..|lists| - 1];
      var r := Reindexed(documents, lists, signature);
      ReindexedIds(d, l, signature);
      assert r[..|d|] == Reindexed(d, l, signature);
      SignedIds(lists[|d|], Some(signature));
      IdsJoin(Concat(l), lists[|d|]);
    }
  }

  /** A clearing reindex, failed or not, leaves an exact store exact. */
  lemma ClearingKeepsExact(ix: Index, split: Splitter, a: Attempt)
    requires Exact(ix)
    ensures Exact(Reindex(ix, split, true, a))
  {
    var lists := Prepared(ix.documents, split, ix.nextId);
    var all := Concat(lists);
    if |all| > 0 && ReindexFailure(a, |all|, true) == None {
      ReindexedIds(ix.documents, lists, a.signature);
      UpsertedKeys(map[], all, Embeddings(a), |all|);
      assert all[..|all|] == all;
    }
  }

  /** Without clearing, what was there stays, and the first of the fresh ids are added. */
  lemma NotClearingKeys(ix: Index, split: Splitter, a: Attempt)
    ensures var n := |Concat(Prepared(ix.documents, split, ix.nextId))|;
            forall id :: id in Reindex(ix, split, false, a).vectors
                    <==> id in ix.vectors || ix.nextId <= id < ix.nextId + Written(a, n)
  {
    var all := Concat(Prepared(ix.documents, split, ix.nextId));
    var k := Written(a, |all|);
    UpsertedKeys(ix.vectors, all, Embeddings(a), k);
    PreparedIds(ix.documents, split, ix.nextId);
    forall id | ix.nextId <= id < ix.nextId + k ensures id in Ids(all[..k]) {
      assert all[..k][id - ix.nextId].id == id;
    }
  }

  /** A reindex that does not clear leaves an exact store exact only if it writes nothing, or succeeds on an empty one:
      otherwise the vectors of the replaced chunks, or those written before the failure, stay behind. */
  lemma NotClearingKeepsExactIff(ix: Index, split: Splitter, a: Attempt)
    requires Agreement(ix, split) && Exact(ix)
    ensures var n := |Concat(Prepared(ix.documents, split, ix.nextId))|;
            Exact(Reindex(ix, split, false, a))
            <==> Written(a, n) == 0 || (ReindexFailure(a, n, false) == None && ix.vectors == map[])
  {
    var lists := Prepared(ix.documents, split, ix.nextId);
    NotClearingKeys(ix, split, a);
    IdsAreAllDrawn(ix.documents, split, ix.nextId);
    ReindexedIds(ix.documents, lists, a.signature);
    if Written(a, |Concat(lists)|) > 0 {
      assert ix.nextId in Reindex(ix, split, false, a).vectors;
    }
  }

  /** An attempt in which nothing fails. */
  function Faultless(n: nat): Attempt { Attempt(Some(seq(n, _ => [0.0])), "model", None) }

  /** One document of n chunks is created, and everything reindexed without clearing. */
  function CreatedThenReindexed(content: string, n: nat): seq<Operation> {
    [CreateDocument(content, Faultless(n)), ReindexDocuments(false, Faultless(n))]
  }

  lemma TwoOperations(ops: seq<Operation>, split: Splitter)
    requires |ops| == 2
    ensures Run(ops[..1], split) == Perform(Index([], map[], 0), ops[0], split)
    ensures Run(ops, split) == Perform(Run(ops[..1], split), ops[1], split)
  {
    assert ops[..1][..0] == [];
  }

  /** If the document has chunks at all, its old vectors stay behind. */
  lemma NotClearingLeavesOldVectors(content: string, split: Splitter)
    requires split(content) != []
    ensures var ops := CreatedThenReindexed(content, |split(content)|);
            Exact(Run(ops[..1], split)) && !Exact(Run(ops, split))
  {
    var n := |split(content)|;
    var ops := CreatedThenReindexed(content, n);
    var ix := Run(ops[..1], split);
    TwoOperations(ops, split);
    AlwaysAgreement(ops[..1], split);
    AlwaysExact(ops[..1], split);
    CreatedIndex(content, split, n, Index([], map[], 0), ix);
    NotClearingKeepsExactIff(ix, split, Faultless(n));
  }

  lemma SomeWritten(vectors: map<nat, Vector>, chunks: seq<Chunk>, embeddings: seq<Vector>, n: nat)
    requires 0 < n == |chunks| <= |embeddings|
    ensures Upserted(vectors, chunks, embeddings, n) != map[]
  {
    UpsertedKeys(vectors, chunks, embeddings, n);
    assert chunks[..n] == chunks && chunks[0].id in Ids(chunks);
  }

  lemma OneList(documents: seq<Document>, split: Splitter, first: nat, none: seq<Document>)
    requires |documents| == 1 && none == documents[..0]
    ensures |Concat(Prepared(documents, split, first))| == |split(documents[0].content)|
  {
    var lists, init := Prepared(documents, split, first), Prepared(none, split, first);
    var list := NewChunks(split(documents[0].content), first + |Concat(init)|);
    assert lists == init + [list] && lists[..0] == init;
  }

  lemma CreatedIndex(content: string, split: Splitter, n: nat, empty: Index, ix: Index)
    requires n == |split(content)| && n > 0 && empty.documents == []
    requires ix == Create(empty, content, split, Faultless(n))
    ensures |Concat(Prepared(ix.documents, split, ix.nextId))| == n && ix.vectors != map[]
  {
    var a, chunks := Faultless(n), NewChunks(split(content), empty.nextId);
    assert Written(a, n) == n && CreateFailure(a, n) == None;
    SomeWritten(empty.vectors, chunks, Embeddings(a), n);
    OneList(ix.documents, split, ix.nextId, ix.documents[..0]);
  }

  predicate AlwaysClears(ops: seq<Operation>) {
    forall k :: 0 <= k < |ops| ==> ops[k].ReindexDocuments? ==> ops[k].clear
  }

  /** While every reindex clears the vector store, its ids are exactly the chunk ids of the ready documents. */
  lemma {:induction false} AlwaysExact(ops: seq<Operation>, split: Splitter)
    requires AlwaysClears(ops)
    ensures Exact(Run(ops, split))
  {
    if ops != [] {
      var before := ops[..|ops| - 1];
      AlwaysExact(before, split);
      AlwaysAgreement(before, split);
      match ops[|ops| - 1]
      case CreateDocument(content, a) => CreateKeepsExact(Run(before, split), content, split, a);
      case ReindexDocuments(clear, a) => ClearingKeepsExact(Run(before, split), split, a);
    }
  }

  // ---- From the text to the index ----

  lemma {:induction false} ChildPieceAt(parents: seq<TextBlock>, children: ChildSplitter, j: nat, k: nat)
    returns (at: nat)
    requires j < |parents| && k < |children(parents[j])|
    ensures at < |ChildPieces(parents, children)|
    ensures ChildPieces(parents, children)[at].content == children(parents[j])[k].content
  {
    var init := parents[..|parents| - 1];
    if j == |init| {
      at := |ChildPieces(init, children)| + k;
    } else {
      at := ChildPieceAt(init, children, j, k);
    }
  }

  /** Whatever the indexing mode, around every visible character of a document some chunk record shows the document's
      visible text. */
  lemma PiecesLoseNothing(content: string, mode: Mode, i: nat) returns (k: nat, c: nat)
    requires i < |content| && !IsSpace(content[i])
    ensures k < |Pieces(content, mode)| && ShowsAround(Pieces(content, mode)[k].content, content, i, c)
  {
    match mode
    case Flat(size, overlap) =>
      k, c := Chunking.ChunksLoseNothing(content, size, overlap, i);
    case Hierarchical(size, overlap, childSize, childOverlap) =>
      var parents, children := Parents(content, size, overlap), ChildSplitting(childSize, childOverlap);
      var j := ChildrenKeepTheDocument(content, size, overlap, childSize, childOverlap, i);
      var m: nat, from: nat :| ShownIn(children(parents[j]), content, i, m, from);
      c := from;
      k := ChildPieceAt(parents, children, j, m);
  }

  /** In every indexing mode a document that is one letter shows that a reindex has to clear. */
  lemma NotClearingFails(mode: Mode)
    ensures var split := Splitting(mode);
            var ops := CreatedThenReindexed("x", |split("x")|);
            Exact(Run(ops[..1], split)) && !Exact(Run(ops, split))
  {
    var k, c := PiecesLoseNothing("x", mode, 0);
    NotClearingLeavesOldVectors("x", Splitting(mode));
  }

  /** After any run, around every visible character of a ready document a chunk that has a vector shows its text. */
  lemma ReadyTextIsSearchable(ops: seq<Operation>, mode: Mode, d: nat, i: nat) returns (k: nat, c: nat)
    requires var ix := Run(ops, Splitting(mode));
             && d < |ix.documents| && ix.documents[d].status == Ready
             && i < |ix.documents[d].content| && !IsSpace(ix.documents[d].content[i])
    ensures var ix := Run(ops, Splitting(mode));
            var document := ix.documents[d];
            && k < |document.chunks| && document.chunks[k].id in ix.vectors
            && ShowsAround(document.chunks[k].piece.content, document.content, i, c)
  {
    var ix := Run(ops, Splitting(mode));
    AlwaysAgreement(ops, Splitting(mode));
    assert Agrees(ix.documents[d], ix.vectors, ix.nextId, Splitting(mode));
    k, c := PiecesLoseNothing(ix.documents[d].content, mode, i);
    assert ChunkAgrees(ix.documents[d].chunks[k], Ready, Pieces(ix.documents[d].content, mode)[k], ix.vectors,
                       ix.nextId);
  }

  predicate PieceFaithful(p: Piece, document: string) {
    && p.start.Some? && p.end.Some? && p.start.value <= p.end.value <= |document|
    && p.content == document[p.start.value..p.end.value]
  }

  predicate AllPiecesFaithful(pieces: seq<Piece>, document: string) {
    forall k :: 0 <= k < |pieces| ==> PieceFaithful(pieces[k], document)
  }

  lemma PiecesOfFaithful(parent: TextBlock, children: seq<TextBlock>, document: string)
    requires Nested(children, parent, document)
    ensures AllPiecesFaithful(PiecesOf(parent, children), document)
  {
    var pieces := PiecesOf(parent, children);
    forall k | 0 <= k < |pieces| ensures PieceFaithful(pieces[k], document) {
      assert Faithful(children[k], document, 0);
    }
  }

  lemma {:induction false} ChildPiecesFaithful(parents: seq<TextBlock>, size: int, overlap: int, document: string)
    requires Normalised(document) && AllFaithful(parents, document, 0)
    ensures AllPiecesFaithful(ChildPieces(parents, ChildSplitting(size, overlap)), document)
  {
    if parents != [] {
      var parent := parents[|parents| - 1];
      assert Faithful(parent, document, 0);
      ChildPiecesFaithful(parents[..|parents| - 1], size, overlap, document);
      ChildrenNested(parent, document, size, overlap);
      PiecesOfFaithful(parent, ChildSplitting(size, overlap)(parent), document);
    }
  }

  /** In hierarchical mode the offsets of every chunk record of a normalised document are right. */
  lemma HierarchicalPiecesFaithful(content: string, mode: Mode)
    requires mode.Hierarchical? && Normalised(content)
    ensures AllPiecesFaithful(Pieces(content, mode), content)
  {
    BlocksAreFaithful(content, mode.parentSize, mode.parentOverlap, 0);
    ChildPiecesFaithful(Parents(content, mode.parentSize, mode.parentOverlap), mode.childSize, mode.childOverlap,
                        content);
  }

  lemma RecordsAreThePieces(ops: seq<Operation>, split: Splitter, d: nat, k: nat)
    requires var documents := Run(ops, split).documents; d < |documents| && k < |documents[d].chunks|
    ensures var document := Run(ops, split).documents[d];
            k < |split(document.content)| && document.chunks[k].piece == split(document.content)[k]
  {
    var ix := Run(ops, split);
    AlwaysAgreement(ops, split);
    assert Agrees(ix.documents[d], ix.vectors, ix.nextId, split);
    assert ChunkAgrees(
      ix.documents[d].chunks[k], ix.documents[d].status, split(ix.documents[d].content)[k], ix.vectors, ix.nextId);
  }

  /** And they stay right over any sequence of creates and reindexes. */
  lemma RecordedOffsetsAreFaithful(ops: seq<Operation>, mode: Mode, d: nat, k: nat)
    requires mode.Hierarchical?
    requires var documents := Run(ops, Splitting(mode)).documents;
             d < |documents| && k < |documents[d].chunks| && Normalised(documents[d].content)
    ensures var document := Run(ops, Splitting(mode)).documents[d];
            PieceFaithful(document.chunks[k].piece, document.content)
  {
    RecordsAreThePieces(ops, Splitting(mode), d, k);
    HierarchicalPiecesFaithful(Run(ops, Splitting(mode)).documents[d].content, mode);
  }
}
