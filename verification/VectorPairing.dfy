/** Which vector a chunk has: the one that the embedding provider returned for its position, in the attempt that made
    its document ready. */
module VectorPairing {
  import opened Common
  import opened Indexing

  // ---- Writing ----

  /** The chunks are numbered one after the other. */
  predicate Consecutive(chunks: seq<Chunk>, first: nat) { forall j :: 0 <= j < |chunks| ==> chunks[j].id == first + j }

  /** Every upsert writes the vector of its own position. */
  lemma {:induction false} UpsertedAt(vectors: map<nat, Vector>, chunks: seq<Chunk>, embeddings: seq<Vector>, k: nat,
                                      first: nat, j: nat)
    requires j < k <= |chunks| && k <= |embeddings| && Consecutive(chunks, first)
    ensures var written := Upserted(vectors, chunks, embeddings, k);
            first + j in written && written[first + j] == embeddings[j]
  {
    if j < k - 1 {
      UpsertedAt(vectors, chunks, embeddings, k - 1, first, j);
    }
  }

  /** The store holds these vectors under the ids from the first on. */
  predicate Holds(vectors: map<nat, Vector>, first: nat, part: seq<Vector>) {
    forall k :: 0 <= k < |part| ==> HoldsAt(vectors, first + k, part[k])
  }

  predicate HoldsAt(vectors: map<nat, Vector>, id: nat, vector: Vector) { id in vectors && vectors[id] == vector }

  /** A part of the vectors is written under the ids of its positions. */
  lemma PartWritten(vectors: map<nat, Vector>, chunks: seq<Chunk>, embeddings: seq<Vector>, first: nat, from: nat,
                    part: seq<Vector>)
    requires |chunks| == |embeddings| && Consecutive(chunks, first)
    requires from + |part| <= |embeddings| && part == embeddings[from..from + |part|]
    ensures Holds(Upserted(vectors, chunks, embeddings, |chunks|), first + from, part)
  {
    var written, start := Upserted(vectors, chunks, embeddings, |chunks|), first + from;
    forall k | 0 <= k < |part| ensures HoldsAt(written, start + k, part[k]) {
      UpsertedAt(vectors, chunks, embeddings, |chunks|, first, from + k);
      assert part[k] == embeddings[from + k] && start + k == first + (from + k);
    }
  }

  /** Upserts of new ids leave the vectors of the old ones alone. */
  lemma {:induction false} OldStay(vectors: map<nat, Vector>, chunks: seq<Chunk>, embeddings: seq<Vector>, k: nat,
                                   first: nat, id: nat)
    requires k <= |chunks| && k <= |embeddings| && Consecutive(chunks, first) && id < first && id in vectors
    ensures var written := Upserted(vectors, chunks, embeddings, k); id in written && written[id] == vectors[id]
  {
    if k > 0 {
      OldStay(vectors, chunks, embeddings, k - 1, first, id);
    }
  }

  // ---- What an attempt returned for each document ----

  /** The vectors for a document's chunks, in order, and the signature of the provider that returned them. */
  datatype Source = Source(vectors: seq<Vector>, signature: string)

  /** How many chunks the documents before d have. */
  function Offset(documents: seq<Document>, split: Splitter, d: nat): nat
    requires d <= |documents|
  {
    if d == 0 then 0 else Offset(documents, split, d - 1) + |split(documents[d - 1].content)|
  }

  /** The provider returned a vector for each of the n texts, and no write failed. */
  predicate Faultless(a: Attempt, n: nat, replacing: bool) {
    && a.embeddings.Some? && |a.embeddings.value| == n
    && (a.failAt.Some? ==> !replacing && a.failAt.value >= n)
  }

  /** The sources after one more operation: a create brings one, an effective reindex gives every document a new one,
      its part of all the vectors returned. */
  function SourcesAfter(ix: Index, sources: seq<Source>, op: Operation, split: Splitter): seq<Source> {
    match op
    case CreateDocument(content, a) =>
      sources + [if Faultless(a, |split(content)|, false) then Source(a.embeddings.value, a.signature)
                 else Source([], "")]
    case ReindexDocuments(clear, a) =>
      var n := Offset(ix.documents, split, |ix.documents|);
      if n == 0 || !Faultless(a, n, clear) then sources
      else
        seq(|ix.documents|, d requires 0 <= d < |ix.documents| => SourceOf(ix.documents, split, a, d))
  }

  function SourceOf(documents: seq<Document>, split: Splitter, a: Attempt, d: nat): Source
    requires d < |documents|
  {
    var from, to := Offset(documents, split, d), Offset(documents, split, d + 1);
    if a.embeddings.Some? && from <= to <= |a.embeddings.value| then Source(a.embeddings.value[from..to], a.signature)
    else Source([], "")
  }

  function Sources(ops: seq<Operation>, split: Splitter): seq<Source> {
    if ops == [] then []
    else
      var init := ops[..|ops| - 1];
      SourcesAfter(Run(init, split), Sources(init, split), ops[|ops| - 1], split)
  }

  // ---- Pairing ----

  /** Chunk k has vector k of the source, and its signature. */
  ghost predicate Paired(chunks: seq<Chunk>, vectors: map<nat, Vector>, source: Source) {
    && |source.vectors| == |chunks|
    && forall k :: 0 <= k < |chunks| ==> Has(chunks[k], vectors, source.vectors[k], source.signature)
  }

  predicate Has(c: Chunk, vectors: map<nat, Vector>, vector: Vector, signature: string) {
    c.id in vectors && vectors[c.id] == vector && c.signature == Some(signature)
  }

  ghost predicate AllPaired(ix: Index, sources: seq<Source>) {
    && |sources| == |ix.documents|
    && forall d {:trigger sources[d]} :: 0 <= d < |sources| && ix.documents[d].status == Ready ==>
         Paired(ix.documents[d].chunks, ix.vectors, sources[d])
  }

  ghost predicate ReadyAndPaired(ix: Index, d: nat, source: Source) {
    d < |ix.documents| && ix.documents[d].status == Ready && Paired(ix.documents[d].chunks, ix.vectors, source)
  }

  lemma NewPaired(pieces: seq<Piece>, first: nat, vectors: map<nat, Vector>, source: Source)
    requires |source.vectors| == |pieces|
    requires Holds(vectors, first, source.vectors)
    ensures Paired(Signed(NewChunks(pieces, first), Some(source.signature)), vectors, source)
  {
    var chunks := Signed(NewChunks(pieces, first), Some(source.signature));
    forall k | 0 <= k < |chunks| ensures Has(chunks[k], vectors, source.vectors[k], source.signature) {
      assert chunks[k].id == first + k && HoldsAt(vectors, first + k, source.vectors[k]);
    }
  }

  /** Of what two stores both hold, the second says the same as the first. */
  ghost predicate Keeps(v: map<nat, Vector>, w: map<nat, Vector>) { forall id <- v :: id in w && w[id] == v[id] }

  lemma PairedStays(chunks: seq<Chunk>, v: map<nat, Vector>, w: map<nat, Vector>, source: Source)
    requires Paired(chunks, v, source) && Keeps(v, w)
    ensures Paired(chunks, w, source)
  {
    forall k | 0 <= k < |chunks| ensures Has(chunks[k], w, source.vectors[k], source.signature) {
      assert Has(chunks[k], v, source.vectors[k], source.signature);
    }
  }

  // ---- create_document ----

  /** The stated condition is the one under which a create succeeds. */
  lemma CreateSucceedsIff(a: Attempt, n: nat)
    ensures CreateFailure(a, n) == None <==> Faultless(a, n, false)
  {
  }

  lemma CreateKeepsVectors(ix: Index, content: string, split: Splitter, a: Attempt)
    requires Agreement(ix, split)
    ensures Keeps(ix.vectors, Create(ix, content, split, a).vectors)
  {
    var chunks := NewChunks(split(content), ix.nextId);
    if CreateFailure(a, |chunks|).Some? {
      FailedCreateLeavesNothing(ix, content, split, a);
    } else {
      forall id | id in ix.vectors ensures id in Create(ix, content, split, a).vectors
                                           && Create(ix, content, split, a).vectors[id] == ix.vectors[id] {
        OldStay(ix.vectors, chunks, Embeddings(a), |chunks|, ix.nextId, id);
      }
    }
  }

  /** After a create that succeeds, chunk k of the new document has vector k of those returned. */
  lemma CreatePairs(ix: Index, content: string, split: Splitter, a: Attempt)
    requires Faultless(a, |split(content)|, false)
    ensures ReadyAndPaired(Create(ix, content, split, a), |ix.documents|, Source(a.embeddings.value, a.signature))
  {
    var pieces := split(content);
    var chunks, vectors := NewChunks(pieces, ix.nextId), Create(ix, content, split, a).vectors;
    var source := Source(a.embeddings.value, a.signature);
    CreateSucceedsIff(a, |chunks|);
    PartWritten(ix.vectors, chunks, a.embeddings.value, ix.nextId, 0, source.vectors);
    NewPaired(pieces, ix.nextId, vectors, source);
  }

  lemma CreateKeepsPairs(ix: Index, sources: seq<Source>, content: string, split: Splitter, a: Attempt)
    requires Agreement(ix, split) && AllPaired(ix, sources)
    ensures AllPaired(Create(ix, content, split, a), SourcesAfter(ix, sources, CreateDocument(content, a), split))
  {
    var r, more := Create(ix, content, split, a), SourcesAfter(ix, sources, CreateDocument(content, a), split);
    CreateSucceedsIff(a, |split(content)|);
    CreateKeepsVectors(ix, content, split, a);
    if Faultless(a, |split(content)|, false) {
      CreatePairs(ix, content, split, a);
    }
    forall d {:trigger more[d]} | 0 <= d < |sources| && r.documents[d].status == Ready
      ensures Paired(r.documents[d].chunks, r.vectors, more[d]) {
      assert more[d] == sources[d];
      PairedStays(ix.documents[d].chunks, ix.vectors, r.vectors, sources[d]);
    }
  }

  // ---- reindex_documents ----

  lemma {:induction false} AllDrawn(documents: seq<Document>, split: Splitter, first: nat)
    ensures |Concat(Prepared(documents, split, first))| == Offset(documents, split, |documents|)
  {
    if documents != [] {
      AllDrawn(documents[..|documents| - 1], split, first);
      PreparedUnrolls(documents, split, first);
      OffsetOfPrefix(documents, split, |documents| - 1, |documents| - 1);
    }
  }

  lemma LastStarts(documents: seq<Document>, split: Splitter, first: nat, n: nat, offset: nat)
    requires n + 1 == |documents| && offset == Offset(documents, split, n)
    ensures Prepared(documents, split, first)[n] == NewChunks(split(documents[n].content), first + offset)
  {
    AllDrawn(documents[..n], split, first);
    OffsetOfPrefix(documents, split, n, n);
  }

  lemma EarlierStay(documents: seq<Document>, split: Splitter, first: nat, n: nat, d: nat)
    requires d < n && n + 1 == |documents|
    ensures Prepared(documents, split, first)[d] == Prepared(documents[..n], split, first)[d]
  {
  }

  /** The chunks of all documents, in order: those of document d start at its offset. */
  lemma {:induction false} PreparedStarts(documents: seq<Document>, split: Splitter, first: nat, d: nat, offset: nat)
    requires d < |documents| && offset == Offset(documents, split, d)
    ensures Prepared(documents, split, first)[d] == NewChunks(split(documents[d].content), first + offset)
  {
    var n := |documents| - 1;
    if d < n {
      OffsetOfPrefix(documents, split, n, d);
      PreparedStarts(documents[..n], split, first, d, offset);
      EarlierStay(documents, split, first, n, d);
    } else {
      LastStarts(documents, split, first, n, offset);
    }
  }

  lemma {:induction false} OffsetsRise(documents: seq<Document>, split: Splitter, d: nat, e: nat)
    requires d <= e <= |documents|
    ensures Offset(documents, split, d) <= Offset(documents, split, e)
  {
    if d < e {
      OffsetsRise(documents, split, d, e - 1);
    }
  }

  lemma {:induction false} OffsetOfPrefix(documents: seq<Document>, split: Splitter, n: nat, d: nat)
    requires d <= n <= |documents|
    ensures Offset(documents[..n], split, d) == Offset(documents, split, d)
  {
    if d > 0 {
      OffsetOfPrefix(documents, split, n, d - 1);
    }
  }

  lemma ReindexSucceedsIff(a: Attempt, n: nat, clear: bool)
    ensures ReindexFailure(a, n, clear) == None <==> Faultless(a, n, clear)
  {
  }

  /** After a reindex that succeeds, in both modes, chunk k of document d has vector k of the document's part of those
      returned. */
  lemma ReindexPairs(ix: Index, split: Splitter, clear: bool, a: Attempt, d: nat)
    requires d < |ix.documents| && Concat(Prepared(ix.documents, split, ix.nextId)) != []
    requires Faultless(a, |Concat(Prepared(ix.documents, split, ix.nextId))|, clear)
    ensures ReadyAndPaired(Reindex(ix, split, clear, a), d, SourceOf(ix.documents, split, a, d))
  {
    var from, pieces := Offset(ix.documents, split, d), split(ix.documents[d].content);
    var source, list := SourceOf(ix.documents, split, a, d), NewChunks(pieces, ix.nextId + from);
    var all, r := Concat(Prepared(ix.documents, split, ix.nextId)), Reindex(ix, split, clear, a);
    AllDrawn(ix.documents, split, ix.nextId);
    PartOfAll(ix.documents, split, a, d, from, pieces, |all|);
    ReindexLeaves(ix, split, clear, a, all, r);
    ReindexedWith(ix, split, a, d, from, pieces, source, list, all, r, if clear then map[] else ix.vectors);
  }

  lemma ReindexedWith(ix: Index, split: Splitter, a: Attempt, d: nat, from: nat, pieces: seq<Piece>, source: Source,
                      list: seq<Chunk>, all: seq<Chunk>, r: Index, before: map<nat, Vector>)
    requires d < |ix.documents| && from == Offset(ix.documents, split, d) && pieces == split(ix.documents[d].content)
    requires list == NewChunks(pieces, ix.nextId + from) && all == Concat(Prepared(ix.documents, split, ix.nextId))
    requires a.embeddings.Some? && |a.embeddings.value| == |all| && from + |pieces| <= |all|
    requires source == Source(a.embeddings.value[from..from + |pieces|], a.signature)
    requires r.documents == Reindexed(ix.documents, Prepared(ix.documents, split, ix.nextId), a.signature)
    requires r.vectors == Upserted(before, all, a.embeddings.value, |all|)
    ensures ReadyAndPaired(r, d, source)
  {
    PreparedIds(ix.documents, split, ix.nextId);
    ReindexedDocument(ix.documents, split, ix.nextId, a.signature, d, from, r.documents, list);
    PartPaired(before, all, a.embeddings.value, ix.nextId, from, pieces, source, r.vectors);
    BecomesReady(r, d, source, Signed(list, Some(a.signature)));
  }

  lemma ReindexedDocument(documents: seq<Document>, split: Splitter, first: nat, signature: string, d: nat, from: nat,
                          after: seq<Document>, list: seq<Chunk>)
    requires after == Reindexed(documents, Prepared(documents, split, first), signature)
    requires d < |documents| && from == Offset(documents, split, d)
    requires list == NewChunks(split(documents[d].content), first + from)
    ensures after[d] == Document(documents[d].content, Ready, None, Signed(list, Some(signature)))
  {
    PreparedStarts(documents, split, first, d, from);
    ReindexedAt(documents, Prepared(documents, split, first), signature, d, list);
  }

  lemma ReindexedAt(documents: seq<Document>, lists: seq<seq<Chunk>>, signature: string, d: nat, list: seq<Chunk>)
    requires d < |documents| == |lists| && lists[d] == list
    ensures Reindexed(documents, lists, signature)[d] ==
            Document(documents[d].content, Ready, None, Signed(list, Some(signature)))
  {
  }

  lemma BecomesReady(ix: Index, d: nat, source: Source, chunks: seq<Chunk>)
    requires d < |ix.documents| && ix.documents[d].status == Ready && ix.documents[d].chunks == chunks
    requires Paired(chunks, ix.vectors, source)
    ensures ReadyAndPaired(ix, d, source)
  {
  }

  lemma PartPaired(before: map<nat, Vector>, all: seq<Chunk>, embeddings: seq<Vector>, first: nat, from: nat,
                   pieces: seq<Piece>, source: Source, after: map<nat, Vector>)
    requires |all| == |embeddings| && Consecutive(all, first) && after == Upserted(before, all, embeddings, |all|)
    requires from + |pieces| <= |embeddings| && source.vectors == embeddings[from..from + |pieces|]
    ensures Paired(Signed(NewChunks(pieces, first + from), Some(source.signature)), after, source)
  {
    PartWritten(before, all, embeddings, first, from, source.vectors);
    NewPaired(pieces, first + from, after, source);
  }

  lemma PartOfAll(documents: seq<Document>, split: Splitter, a: Attempt, d: nat, from: nat, pieces: seq<Piece>, n: nat)
    requires d < |documents| && from == Offset(documents, split, d) && pieces == split(documents[d].content)
    requires a.embeddings.Some? && |a.embeddings.value| == n == Offset(documents, split, |documents|)
    ensures from + |pieces| <= |a.embeddings.value|
    ensures SourceOf(documents, split, a, d) == Source(a.embeddings.value[from..from + |pieces|], a.signature)
  {
    var next := d + 1;
    OffsetsRise(documents, split, next, |documents|);
    assert Offset(documents, split, next) == from + |pieces|;
  }

  lemma ReindexLeaves(ix: Index, split: Splitter, clear: bool, a: Attempt, all: seq<Chunk>, r: Index)
    requires all == Concat(Prepared(ix.documents, split, ix.nextId)) && all != [] && Faultless(a, |all|, clear)
    requires r == Reindex(ix, split, clear, a)
    ensures r.vectors == Upserted(if clear then map[] else ix.vectors, all, a.embeddings.value, |all|)
    ensures r.documents == Reindexed(ix.documents, Prepared(ix.documents, split, ix.nextId), a.signature)
  {
    ReindexSucceedsIff(a, |all|, clear);
  }

  /** A reindex that fails leaves every vector that was there. */
  lemma FailedReindexKeeps(ix: Index, split: Splitter, clear: bool, a: Attempt)
    requires Agreement(ix, split) && !Faultless(a, |Concat(Prepared(ix.documents, split, ix.nextId))|, clear)
    ensures Reindex(ix, split, clear, a).documents == ix.documents
    ensures Keeps(ix.vectors, Reindex(ix, split, clear, a).vectors)
  {
    var all := Concat(Prepared(ix.documents, split, ix.nextId));
    PreparedIds(ix.documents, split, ix.nextId);
    ReindexSucceedsIff(a, |all|, clear);
    var vectors := Reindex(ix, split, clear, a).vectors;
    forall id | id in ix.vectors ensures id in vectors && vectors[id] == ix.vectors[id] {
      OldStay(ix.vectors, all, Embeddings(a), Written(a, |all|), ix.nextId, id);
    }
  }

  lemma ReindexKeepsPairs(ix: Index, sources: seq<Source>, split: Splitter, clear: bool, a: Attempt)
    requires Agreement(ix, split) && AllPaired(ix, sources)
    ensures AllPaired(Reindex(ix, split, clear, a), SourcesAfter(ix, sources, ReindexDocuments(clear, a), split))
  {
    var n := Offset(ix.documents, split, |ix.documents|);
    var r, more := Reindex(ix, split, clear, a), SourcesAfter(ix, sources, ReindexDocuments(clear, a), split);
    AllDrawn(ix.documents, split, ix.nextId);
    if n == 0 {
    } else if Faultless(a, n, clear) {
      forall d {:trigger more[d]} | 0 <= d < |more| ensures Paired(r.documents[d].chunks, r.vectors, more[d]) {
        ReindexPairs(ix, split, clear, a, d);
      }
      ReindexPairs(ix, split, clear, a, 0);
    } else {
      FailedReindexKeeps(ix, split, clear, a);
      forall d {:trigger more[d]} | 0 <= d < |more| && r.documents[d].status == Ready
        ensures Paired(r.documents[d].chunks, r.vectors, more[d]) {
        PairedStays(ix.documents[d].chunks, ix.vectors, r.vectors, sources[d]);
      }
    }
  }

  /** Over any sequence of creates and reindexes, whatever fails wherever: every chunk of a ready document has the
      vector that the attempt which made the document ready returned for its position, and the signature of that
      attempt. */
  lemma {:induction false} AlwaysPaired(ops: seq<Operation>, split: Splitter)
    ensures AllPaired(Run(ops, split), Sources(ops, split))
  {
    if ops != [] {
      var init := ops[..|ops| - 1];
      AlwaysPaired(init, split);
      AlwaysAgreement(init, split);
      match ops[|ops| - 1]
      case CreateDocument(content, a) => CreateKeepsPairs(Run(init, split), Sources(init, split), content, split, a);
      case ReindexDocuments(clear, a) => ReindexKeepsPairs(Run(init, split), Sources(init, split), split, clear, a);
    }
  }
}
