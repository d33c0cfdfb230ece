/** app/services/document_service.py: creating and reindexing documents over the two stores. The embedding provider and
    a vector store that raises are the given attempt; uuid4 ids are drawn from counters. */
module DocumentService {
  import opened Common
  import opened Indexing
  import opened KnowledgeStore
  import HierarchicalChunking

  /** What a create leaves, field by field. */
  ghost predicate CreateLeaves(vectors: map<nat, Vector>, next: nat, content: string, a: Attempt, records: seq<Chunk>,
                               after: Index, created: Document)
  {
    var failure := CreateFailure(a, |records|);
    var written := Upserted(vectors, records, Embeddings(a), Written(a, |records|));
    && after.nextId == next + |records|
    && after.vectors == (if failure == None then written else written - Ids(records))
    && created == Document(content, if failure == None then Ready else Failed, failure,
                           Signed(records, if failure == None then Some(a.signature) else None))
  }

  lemma CreatedFields(ix: Index, content: string, split: Splitter, a: Attempt, records: seq<Chunk>, after: Index)
    requires records == NewChunks(split(content), ix.nextId) && after == Create(ix, content, split, a)
    ensures |after.documents| == |ix.documents| + 1
    ensures CreateLeaves(ix.vectors, ix.nextId, content, a, records, after, after.documents[|ix.documents|])
  {
  }

  class DocumentService {
    const store: InMemoryKnowledgeStore
    const vectorStore: InMemoryVectorStore
    const split: Splitter
    const parents: string -> seq<HierarchicalChunking.TextBlock>
    var documentCount: nat
    var nextChunk: nat
    var nextParent: nat

    ghost predicate Valid()
      reads this, store
    {
      && store.Valid()
      && (forall d: nat :: d in store.documents <==> d < documentCount)
      && Below(store.chunksById, nextChunk) && Below(store.parentsById, nextParent)
    }

    constructor (split: Splitter, parents: string -> seq<HierarchicalChunking.TextBlock>)
      ensures Valid() && fresh(store) && fresh(vectorStore) && this.split == split
      ensures Shows(Run([], split))
    {
      this.split, this.parents, documentCount, nextChunk, nextParent := split, parents, 0, 0, 0;
      store := new InMemoryKnowledgeStore();
      vectorStore := new InMemoryVectorStore();
    }

    /** The record of document d and its chunks are as in the given value. */
    ghost predicate DocumentIs(d: nat, document: Document)
      requires Valid() && d < documentCount
      reads this, store, store.documents.Values, store.Listed()
    {
      && store.documents[d].content == document.content
      && store.documents[d].status == document.status && store.documents[d].error == document.error
      && |store.chunksByDocument[d]| == |document.chunks|
      && forall k :: 0 <= k < |document.chunks| ==> store.chunksByDocument[d][k].View() == document.chunks[k]
    }

    /** The service, its stores and their records are in this state. */
    ghost predicate Shows(ix: Index)
      requires Valid()
      reads this, store, vectorStore, store.documents.Values, store.Listed()
    {
      && documentCount == |ix.documents| && vectorStore.vectors == ix.vectors && nextChunk == ix.nextId
      && forall d: nat {:trigger DocumentIs(d, ix.documents[d])} :: d < documentCount ==> DocumentIs(d, ix.documents[d])
    }

    method BuildChunks(pieces: seq<Piece>, first: nat) returns (chunks: seq<ChunkRecord>)
      ensures |chunks| == |pieces|
      ensures forall k :: 0 <= k < |chunks| ==>
                fresh(chunks[k]) && chunks[k].View() == Chunk(first + k, pieces[k], None)
    {
      chunks := [];
      for k := 0 to |pieces|
        invariant |chunks| == k
        invariant forall j :: 0 <= j < k ==> fresh(chunks[j]) && chunks[j].View() == Chunk(first + j, pieces[j], None)
      {
        var chunk := new ChunkRecord(first + k, pieces[k]);
        chunks := chunks + [chunk];
      }
    }

    method BuildParents(blocks: seq<HierarchicalChunking.TextBlock>, first: nat) returns (records: seq<ParentRecord>)
      ensures |records| == |blocks|
      ensures forall k :: 0 <= k < |records| ==> records[k] == ParentRecord(first + k, blocks[k])
    {
      records := [];
      for k := 0 to |blocks|
        invariant |records| == k && forall j :: 0 <= j < k ==> records[j] == ParentRecord(first + j, blocks[j])
      {
        records := records + [ParentRecord(first + k, blocks[k])];
      }
    }

    /** The body of the `try`: embed, then write each vector and sign its chunk. `records` are the chunks as drawn. */
    method IndexChunks(chunks: seq<ChunkRecord>, ghost records: seq<Chunk>, a: Attempt)
      returns (failure: Option<Failure>)
      requires OnFile(ChunkId(), store.chunksById, chunks) && |records| == |chunks|
      requires forall k :: 0 <= k < |chunks| ==> records[k].id == chunks[k].id
      requires forall j, k :: 0 <= j < k < |chunks| ==> chunks[j].id != chunks[k].id
      modifies vectorStore, chunks
      ensures failure == CreateFailure(a, |chunks|)
      ensures vectorStore.vectors == Upserted(old(vectorStore.vectors), records, Embeddings(a), Written(a, |chunks|))
      ensures failure == None ==> forall k :: 0 <= k < |chunks| ==> chunks[k].signature == Some(a.signature)
    {
      if a.embeddings == None {
        return Some(EmbeddingFailed);
      }
      var embeddings := a.embeddings.value;
      if |embeddings| != |chunks| {
        return Some(WrongCount(|embeddings|, |chunks|));
      }
      var k := 0;
      while k < |chunks|
        invariant k <= |chunks|
        invariant vectorStore.vectors == Upserted(old(vectorStore.vectors), records, embeddings, k)
        invariant forall j :: 0 <= j < k ==> chunks[j].signature == Some(a.signature)
        invariant a.failAt.Some? ==> k <= a.failAt.value
      {
        if a.failAt == Some(k) {
          return Some(UpsertFailed(k));
        }
        vectorStore.Upsert(chunks[k].id, embeddings[k]);
        store.SetChunkEmbeddingProvider(chunks[k].id, Some(a.signature));
        k := k + 1;
      }
      failure := None;
    }

    /** The `except` clause. */
    method RollBack(chunks: seq<ChunkRecord>, documentId: nat, failure: Failure)
      requires OnFile(ChunkId(), store.chunksById, chunks) && documentId in store.documents
      modifies vectorStore, chunks, store.documents[documentId]
      ensures vectorStore.vectors == old(vectorStore.vectors) - (set k | 0 <= k < |chunks| :: chunks[k].id)
      ensures forall k :: 0 <= k < |chunks| ==> chunks[k].signature == None
      ensures store.documents[documentId].status == Failed && store.documents[documentId].error == Some(failure)
    {
      var ids := seq(|chunks|, k requires 0 <= k < |chunks| => chunks[k].id);
      vectorStore.Delete(ids);
      assert forall k :: 0 <= k < |chunks| ==> chunks[k].id == ids[k];
      assert (set k | 0 <= k < |ids| :: ids[k]) == (set k | 0 <= k < |chunks| :: chunks[k].id);
      for k := 0 to |chunks|
        invariant vectorStore.vectors == old(vectorStore.vectors) - (set j | 0 <= j < |ids| :: ids[j])
        invariant forall j :: 0 <= j < k ==> chunks[j].signature == None
      {
        store.SetChunkEmbeddingProvider(chunks[k].id, None);
      }
      store.SetDocumentIndexStatus(documentId, Failed, Some(failure));
    }

    /** File a new document as pending, with its records. */
    method AddPending(content: string) returns (document: DocumentRecord, chunks: seq<ChunkRecord>)
      requires Valid()
      modifies this, store
      ensures Valid() && documentCount == old(documentCount) + 1 && nextChunk == old(nextChunk) + |chunks|
      ensures fresh(document) && document.content == content && document.error == None
      ensures store.documents == old(store.documents)[old(documentCount) := document]
      ensures store.chunksByDocument == old(store.chunksByDocument)[old(documentCount) := chunks]
      ensures |chunks| == |split(content)|
      ensures forall k :: 0 <= k < |chunks| ==>
                fresh(chunks[k]) && chunks[k].View() == Chunk(old(nextChunk) + k, split(content)[k], None)
    {
      var pieces, blocks := split(content), parents(content);
      chunks := BuildChunks(pieces, nextChunk);
      var parentRecords := BuildParents(blocks, nextParent);
      document := new DocumentRecord(documentCount, content, Pending);
      DrawnIsNew(ChunkId(), store.chunksById, chunks, nextChunk);
      DrawnIsNew(ParentId(), store.parentsById, parentRecords, nextParent);
      store.AddDocument(document, chunks, parentRecords);
      BelowGrows(ChunkId(), old(store.chunksById), store.chunksById, chunks, nextChunk);
      BelowGrows(ParentId(), old(store.parentsById), store.parentsById, parentRecords, nextParent);
      nextChunk, nextParent, documentCount := nextChunk + |pieces|, nextParent + |blocks|, documentCount + 1;
    }

    /** Records that nothing wrote to show what they showed. */
    twostate lemma EarlierDocumentsStay(ix: Index)
      requires old(Valid()) && Valid() && old(Shows(ix)) && documentCount >= old(documentCount)
      requires forall d: nat :: d < old(documentCount) ==>
                 store.documents[d] == old(store.documents)[d]
                     && store.chunksByDocument[d] == old(store.chunksByDocument)[d]
      requires forall r <- old(store.documents.Values) :: unchanged(r)
      requires forall c <- old(store.Listed()) :: unchanged(c)
      ensures forall d: nat {:trigger DocumentIs(d, ix.documents[d])} :: d < |ix.documents| ==>
                DocumentIs(d, ix.documents[d])
    {
      forall d: nat {:trigger DocumentIs(d, ix.documents[d])} | d < |ix.documents|
        ensures DocumentIs(d, ix.documents[d]) {
        assert old(DocumentIs(d, ix.documents[d]));
        assert store.documents[d] in old(store.documents.Values);
        forall k | 0 <= k < |ix.documents[d].chunks|
          ensures store.chunksByDocument[d][k].View() == ix.documents[d].chunks[k]
        {
          assert store.chunksByDocument[d][k] in old(store.Listed());
        }
      }
    }

    /** The `try` statement: the new document ends as the specification says, and so does the vector store. */
    method IndexPending(documentId: nat, chunks: seq<ChunkRecord>, ghost records: seq<Chunk>, a: Attempt)
      requires documentId in store.documents && store.documents[documentId].error == None
      requires OnFile(ChunkId(), store.chunksById, chunks) && |records| == |chunks|
      requires forall k :: 0 <= k < |chunks| ==> chunks[k].View() == records[k]
      requires forall j, k :: 0 <= j < k < |chunks| ==> chunks[j].id != chunks[k].id
      modifies vectorStore, chunks, store.documents[documentId]
      ensures var failure := CreateFailure(a, |records|);
              var written := Upserted(old(vectorStore.vectors), records, Embeddings(a), Written(a, |records|));
              && store.documents[documentId].status == (if failure == None then Ready else Failed)
              && store.documents[documentId].error == failure
              && vectorStore.vectors == (if failure == None then written else written - Ids(records))
              && forall k :: 0 <= k < |chunks| ==>
                   chunks[k].View() == records[k].(signature := if failure == None then Some(a.signature) else None)
    {
      var failure := IndexChunks(chunks, records, a);
      if failure == None {
        store.SetDocumentIndexStatus(documentId, Ready, None);
      } else {
        RollBack(chunks, documentId, failure.value);
        assert (set k | 0 <= k < |chunks| :: chunks[k].id) == Ids(records);
      }
    }

    /** The new document and the vector store, when it is filed and indexed. */
    method FileAndIndex(content: string, a: Attempt, ghost records: seq<Chunk>, ghost after: Index,
                        ghost created: Document)
      requires Valid() && records == NewChunks(split(content), nextChunk)
      requires CreateLeaves(vectorStore.vectors, nextChunk, content, a, records, after, created)
      modifies this, store, vectorStore
      ensures Valid() && documentCount == old(documentCount) + 1
      ensures nextChunk == after.nextId && vectorStore.vectors == after.vectors
      ensures forall d: nat :: d < old(documentCount) ==>
                store.documents[d] == old(store.documents)[d]
                    && store.chunksByDocument[d] == old(store.chunksByDocument)[d]
      ensures DocumentIs(old(documentCount), created)
    {
      var documentId := documentCount;
      var document, chunks := AddPending(content);
      FiledIsOnFile(ChunkId(), store.chunksByDocument, store.chunksById, documentId);
      IndexPending(documentId, chunks, records, a);
    }

    method CreateDocument(content: string, a: Attempt, ghost ix: Index) returns (documentId: nat)
      requires Valid() && Shows(ix)
      modifies this, store, vectorStore
      ensures Valid() && Shows(Create(ix, content, split, a)) && documentId == old(documentCount)
    {
      documentId := documentCount;
      ghost var records, after := NewChunks(split(content), nextChunk), Create(ix, content, split, a);
      CreatedFields(ix, content, split, a, records, after);
      FileAndIndex(content, a, records, after, after.documents[|ix.documents|]);
      EarlierDocumentsStay(ix);
      ShowsOneMore(ix, after);
    }

    lemma ShowsOneMore(ix: Index, more: Index)
      requires Valid() && documentCount == |more.documents| == |ix.documents| + 1
      requires more.documents[..|ix.documents|] == ix.documents
      requires vectorStore.vectors == more.vectors && nextChunk == more.nextId
      requires forall d: nat {:trigger DocumentIs(d, ix.documents[d])} :: d < |ix.documents| ==>
                 DocumentIs(d, ix.documents[d])
      requires DocumentIs(|ix.documents|, more.documents[|ix.documents|])
      ensures Shows(more)
    {
      forall d: nat {:trigger DocumentIs(d, more.documents[d])} | d < |ix.documents|
        ensures DocumentIs(d, more.documents[d]) {
        assert more.documents[d] == ix.documents[d] && DocumentIs(d, ix.documents[d]);
      }
    }

    // ---- reindex_documents ----

    method Sign(list: seq<ChunkRecord>, signature: string)
      modifies list
      ensures forall k :: 0 <= k < |list| ==> list[k].signature == Some(signature)
    {
      for k := 0 to |list|
        invariant forall j :: 0 <= j < k ==> list[j].signature == Some(signature)
      {
        list[k].signature := Some(signature);
      }
    }

    /** The new list of document d, its chunks signed, on file under a ready copy of its record. */
    method RefileOne(original: DocumentRecord, d: nat, list: seq<ChunkRecord>, parentList: seq<ParentRecord>,
                     signature: string,
                     ghost next: nat, ghost parentNext: nat) returns (ready: DocumentRecord)
      requires Valid() && d < documentCount
      requires Below(store.chunksById, next) && Drawn(ChunkId(), list, next) && next + |list| <= nextChunk
      requires Below(store.parentsById, parentNext) && Drawn(ParentId(), parentList, parentNext)
      requires parentNext + |parentList| <= nextParent
      modifies store, list
      ensures Valid() && Below(store.chunksById, next + |list|) && Below(store.parentsById, parentNext + |parentList|)
      ensures ready.content == original.content && ready.status == Ready && ready.error == None
      ensures store.documents == old(store.documents)[d := ready]
      ensures store.chunksByDocument == old(store.chunksByDocument)[d := list]
    {
      ready := new DocumentRecord(d, original.content, Ready);
      Sign(list, signature);
      DrawnIsNew(ChunkId(), store.chunksById, list, next);
      DrawnIsNew(ParentId(), store.parentsById, parentList, parentNext);
      store.AddDocument(ready, list, parentList);
      BelowGrows(ChunkId(), old(store.chunksById), store.chunksById, list, next);
      BelowGrows(ParentId(), old(store.parentsById), store.parentsById, parentList, parentNext);
    }

    /** The drawn records are those the specification prepares, not yet signed. */
    ghost predicate Prepare(lists: seq<seq<ChunkRecord>>, prepared: seq<seq<Chunk>>) {
      |lists| == |prepared| && forall d {:trigger lists[d]} :: 0 <= d < |lists| ==> SameRecords(lists[d], prepared[d])
    }

    ghost predicate SameRecords(list: seq<ChunkRecord>, chunks: seq<Chunk>) {
      |list| == |chunks| && forall k ::
        0 <= k < |list| ==> list[k].id == chunks[k].id && list[k].piece == chunks[k].piece
    }

    lemma PreparedMore(documents: seq<Document>, d: nat, first: nat)
      requires d < |documents|
      ensures var before := Prepared(documents[..d], split, first);
              Prepared(documents[..d + 1], split, first)
              == before + [NewChunks(split(documents[d].content), first + |Concat(before)|)]
    {
      assert documents[..d + 1][..d] == documents[..d];
    }

    /** The records prepared for the first d documents, from the given next ids on. */
    ghost predicate PreparedUpTo(d: nat, lists: seq<seq<ChunkRecord>>, parentLists: seq<seq<ParentRecord>>,
                                 ix: Index, first: nat, parentFirst: nat)
    {
      && ChunksUpTo(d, lists, ix, first) && DrawnInTurn(ChunkId(), lists, first)
      && |parentLists| == d && DrawnInTurn(ParentId(), parentLists, parentFirst)
    }

    ghost predicate ChunksUpTo(d: nat, lists: seq<seq<ChunkRecord>>, ix: Index, first: nat) {
      && d <= |ix.documents| && |lists| == d
      && Prepare(lists, Prepared(ix.documents[..d], split, first))
      && |Concat(lists)| == |Concat(Prepared(ix.documents[..d], split, first))|
    }

    lemma ChunksStep(d: nat, lists: seq<seq<ChunkRecord>>, ix: Index, first: nat, content: string, next: nat,
                     list: seq<ChunkRecord>)
      requires ChunksUpTo(d, lists, ix, first) && d < |ix.documents| && content == ix.documents[d].content
      requires next == first + |Concat(lists)| && SameRecords(list, NewChunks(split(content), next))
      ensures ChunksUpTo(d + 1, lists + [list], ix, first)
    {
      PreparedMore(ix.documents, d, first);
      ConcatMore(Prepared(ix.documents[..d], split, first), NewChunks(split(content), next));
      ConcatMore(lists, list);
    }

    lemma PreparedStep(d: nat, lists: seq<seq<ChunkRecord>>, parentLists: seq<seq<ParentRecord>>, ix: Index,
                       first: nat, parentFirst: nat, content: string, next: nat, parentNext: nat,
                       list: seq<ChunkRecord>, parentList: seq<ParentRecord>)
      requires PreparedUpTo(d, lists, parentLists, ix, first, parentFirst)
      requires d < |ix.documents| && content == ix.documents[d].content
      requires next == first + |Concat(lists)| && parentNext == parentFirst + |Concat(parentLists)|
      requires SameRecords(list, NewChunks(split(content), next)) && Drawn(ParentId(), parentList, parentNext)
      ensures PreparedUpTo(d + 1, lists + [list], parentLists + [parentList], ix, first, parentFirst)
      ensures Concat(lists + [list]) == Concat(lists) + list
      ensures |Concat(parentLists + [parentList])| == |Concat(parentLists)| + |parentList|
    {
      ChunksStep(d, lists, ix, first, content, next, list);
      ConcatMore(lists, list);
      ConcatMore(parentLists, parentList);
      DrawnInTurnMore(ChunkId(), lists, list, first);
      DrawnInTurnMore(ParentId(), parentLists, parentList, parentFirst);
    }

    /** `_build_index_records` with the ids it draws. */
    method BuildRecords(content: string) returns (chunks: seq<ChunkRecord>, parentRecords: seq<ParentRecord>)
      requires Valid()
      modifies `nextChunk, `nextParent
      ensures Valid() && nextChunk == old(nextChunk) + |chunks| && nextParent == old(nextParent) + |parentRecords|
      ensures SameRecords(chunks, NewChunks(split(content), old(nextChunk))) && fresh(chunks)
      ensures forall k :: 0 <= k < |chunks| ==> chunks[k].signature == None
      ensures Drawn(ParentId(), parentRecords, old(nextParent))
    {
      chunks := BuildChunks(split(content), nextChunk);
      parentRecords := BuildParents(parents(content), nextParent);
      nextChunk, nextParent := nextChunk + |chunks|, nextParent + |parentRecords|;
    }

    ghost predicate Originals(originals: seq<DocumentRecord>, ix: Index) {
      |originals| <= |ix.documents| && forall d ::
        0 <= d < |originals| ==> originals[d].content == ix.documents[d].content
    }

    /** Everything prepared for the first d documents, and the ids drawn for it. */
    ghost predicate PreparedSoFar(d: nat, originals: seq<DocumentRecord>, lists: seq<seq<ChunkRecord>>,
                                  parentLists: seq<seq<ParentRecord>>, all: seq<ChunkRecord>,
                                  ix: Index, first: nat, parentFirst: nat, next: nat, parentNext: nat)
    {
      && PreparedUpTo(d, lists, parentLists, ix, first, parentFirst) && Originals(originals, ix) && |originals| == d
      && all == Concat(lists) && next == first + |all| && parentNext == parentFirst + |Concat(parentLists)|
    }

    /** `_prepare_reindex_document` */
    lemma NothingPrepared(originals: seq<DocumentRecord>, lists: seq<seq<ChunkRecord>>,
                          parentLists: seq<seq<ParentRecord>>, all: seq<ChunkRecord>,
                          ix: Index, first: nat, parentFirst: nat)
      requires originals == [] && lists == [] && parentLists == [] && all == []
      ensures PreparedSoFar(0, originals, lists, parentLists, all, ix, first, parentFirst, first, parentFirst)
    {
    }

    method PrepareOne(d: nat, original: DocumentRecord, originals: seq<DocumentRecord>, lists: seq<seq<ChunkRecord>>,
                      parentLists: seq<seq<ParentRecord>>, all: seq<ChunkRecord>,
                      ghost ix: Index, ghost first: nat, ghost parentFirst: nat)
      returns (list: seq<ChunkRecord>, parentList: seq<ParentRecord>)
      requires Valid() && d < |ix.documents| && original.content == ix.documents[d].content
      requires PreparedSoFar(d, originals, lists, parentLists, all, ix, first, parentFirst, nextChunk, nextParent)
      modifies `nextChunk, `nextParent
      ensures Valid() && fresh(list)
      ensures PreparedSoFar(d + 1, originals + [original], lists + [list], parentLists + [parentList], all + list,
                            ix, first, parentFirst, nextChunk, nextParent)
    {
      ghost var next, parentNext := nextChunk, nextParent;
      list, parentList := BuildRecords(original.content);
      PreparedStep(d, lists, parentLists, ix, first, parentFirst, original.content, next, parentNext, list, parentList);
    }

    /** `_prepare_reindex_document` for every document, with its ids drawn. */
    method PrepareAll(ghost ix: Index)
      returns (originals: seq<DocumentRecord>, lists: seq<seq<ChunkRecord>>, parentLists: seq<seq<ParentRecord>>,
               all: seq<ChunkRecord>)
      requires Valid() && Shows(ix)
      modifies `nextChunk, `nextParent
      ensures Valid() && fresh(all)
      ensures PreparedSoFar(documentCount, originals, lists, parentLists, all,
                            ix, old(nextChunk), old(nextParent), nextChunk, nextParent)
    {
      originals, lists, parentLists, all := [], [], [], [];
      NothingPrepared(originals, lists, parentLists, all, ix, nextChunk, nextParent);
      var d := 0;
      while d < documentCount
        invariant d <= documentCount && Valid() && fresh(all)
        invariant PreparedSoFar(d, originals, lists, parentLists, all,
                                ix, old(nextChunk), old(nextParent), nextChunk, nextParent)
      {
        assert old(DocumentIs(d, ix.documents[d]));
        var original := store.documents[d];
        var list, parentList := PrepareOne(d, original, originals, lists, parentLists, all, ix, old(nextChunk),
                                           old(nextParent));
        originals, lists, parentLists, all :=
          originals + [original], lists + [list], parentLists + [parentList], all + list;
        d := d + 1;
      }
    }

    /** Embed all chunks, then replace the vectors at once or upsert them one by one. */
    method WriteAll(all: seq<ChunkRecord>, clear: bool, a: Attempt, ghost records: seq<Chunk>)
      returns (failure: Option<Failure>)
      requires |records| == |all| && forall k :: 0 <= k < |all| ==> records[k].id == all[k].id
      modifies vectorStore
      ensures failure == ReindexFailure(a, |all|, clear)
      ensures vectorStore.vectors ==
              if failure == None then
                Upserted(if clear then map[] else old(vectorStore.vectors), records, Embeddings(a), |all|)
              else if clear then old(vectorStore.vectors)
              else Upserted(old(vectorStore.vectors), records, Embeddings(a), Written(a, |all|))
    {
      if a.embeddings == None {
        return Some(EmbeddingFailed);
      }
      var embeddings := a.embeddings.value;
      if |embeddings| != |all| {
        return Some(WrongCount(|embeddings|, |all|));
      }
      if clear {
        var vectors: map<nat, Vector> := map[];
        for k := 0 to |all|
          invariant vectors == Upserted(map[], records, embeddings, k)
        {
          vectors := vectors[all[k].id := embeddings[k]];
        }
        if a.failAt.Some? {
          return Some(ReplaceFailed);
        }
        vectorStore.ReplaceAll(vectors);
      } else {
        for k := 0 to |all|
          invariant vectorStore.vectors == Upserted(old(vectorStore.vectors), records, embeddings, k)
          invariant a.failAt.Some? ==> k <= a.failAt.value
        {
          if a.failAt == Some(k) {
            return Some(UpsertFailed(k));
          }
          vectorStore.Upsert(all[k].id, embeddings[k]);
        }
      }
      failure := None;
    }

    ghost predicate RefiledAt(d: nat, record: DocumentRecord, list: seq<ChunkRecord>, content: string)
      reads store, record
    {
      && d in store.documents && store.documents[d] == record
      && d in store.chunksByDocument && store.chunksByDocument[d] == list
      && record.content == content && record.status == Ready && record.error == None
    }

    /** The first e documents have their new records and lists. */
    ghost predicate RefiledUpTo(e: nat, records: seq<DocumentRecord>, lists: seq<seq<ChunkRecord>>, ix: Index)
      reads store, records
    {
      && |records| == e && e <= |lists| && e <= |ix.documents|
      && forall d: nat :: d < e ==> RefiledAt(d, records[d], lists[d], ix.documents[d].content)
    }

    method RefileNext(original: DocumentRecord, e: nat, records: seq<DocumentRecord>, lists: seq<seq<ChunkRecord>>,
                      parentList: seq<ParentRecord>, signature: string, ghost ix: Index, ghost next: nat,
                          ghost parentNext: nat)
      returns (ready: DocumentRecord)
      requires Valid() && e < documentCount && RefiledUpTo(e, records, lists, ix) && e < |lists|
      requires e < |ix.documents| && original.content == ix.documents[e].content
      requires Below(store.chunksById, next) && Drawn(ChunkId(), lists[e], next) && next + |lists[e]| <= nextChunk
      requires Below(store.parentsById, parentNext) && Drawn(ParentId(), parentList, parentNext)
      requires parentNext + |parentList| <= nextParent
      modifies store, lists[e]
      ensures Valid() && RefiledUpTo(e + 1, records + [ready], lists, ix)
      ensures Below(store.chunksById, next + |lists[e]|) && Below(store.parentsById, parentNext + |parentList|)
    {
      ready := RefileOne(original, e, lists[e], parentList, signature, next, parentNext);
    }

    method RefileTurn(original: DocumentRecord, e: nat, records: seq<DocumentRecord>, lists: seq<seq<ChunkRecord>>,
                      parentLists: seq<seq<ParentRecord>>, signature: string, ghost ix: Index, ghost first: nat,
                      ghost parentFirst: nat)
      returns (ready: DocumentRecord)
      requires Valid() && |ix.documents| == documentCount && |lists| == documentCount && |parentLists| == documentCount
      requires e < documentCount && RefiledUpTo(e, records, lists, ix)
               && Room(e, lists, parentLists, first, parentFirst)
      requires original.content == ix.documents[e].content
      requires DrawnInTurn(ChunkId(), lists, first) && DrawnInTurn(ParentId(), parentLists, parentFirst)
      requires first + |Concat(lists)| <= nextChunk && parentFirst + |Concat(parentLists)| <= nextParent
      modifies store, Concat(lists)
      ensures Valid() && RefiledUpTo(e + 1, records + [ready], lists, ix)
      ensures Room(e + 1, lists, parentLists, first, parentFirst)
    {
      ghost var next, parentNext := first + |Concat(lists[..e])|, parentFirst + |Concat(parentLists[..e])|;
      Turn(ChunkId(), lists, e, first, next);
      Turn(ParentId(), parentLists, e, parentFirst, parentNext);
      var list := lists[e];
      assert forall k :: 0 <= k < |list| ==> list[k] in Concat(lists);
      ready := RefileNext(original, e, records, lists, parentLists[e], signature, ix, next, parentNext);
    }

    /** The ids on file are below those of the lists from the e-th on. */
    ghost predicate Room(e: nat, lists: seq<seq<ChunkRecord>>, parentLists: seq<seq<ParentRecord>>, first: nat,
                         parentFirst: nat)
      reads store
    {
      && e <= |lists| && e <= |parentLists|
      && Below(store.chunksById, first + |Concat(lists[..e])|)
      && Below(store.parentsById, parentFirst + |Concat(parentLists[..e])|)
    }

    /** Every document gets its new list, under a ready copy of its record. */
    method RefileAll(originals: seq<DocumentRecord>, lists: seq<seq<ChunkRecord>>, parentLists: seq<seq<ParentRecord>>,
                     signature: string,
                     ghost ix: Index, ghost first: nat, ghost parentFirst: nat) returns (records: seq<DocumentRecord>)
      requires Valid() && |ix.documents| == documentCount && |lists| == documentCount && |parentLists| == documentCount
      requires Originals(originals, ix) && |originals| == documentCount
               && Room(0, lists, parentLists, first, parentFirst)
      requires DrawnInTurn(ChunkId(), lists, first) && DrawnInTurn(ParentId(), parentLists, parentFirst)
      requires first + |Concat(lists)| <= nextChunk && parentFirst + |Concat(parentLists)| <= nextParent
      modifies store, Concat(lists)
      ensures Valid() && RefiledUpTo(documentCount, records, lists, ix)
    {
      records := [];
      for e := 0 to documentCount
        invariant Valid() && RefiledUpTo(e, records, lists, ix)
        invariant Room(e, lists, parentLists, first, parentFirst)
      {
        var ready := RefileTurn(originals[e], e, records, lists, parentLists, signature, ix, first, parentFirst);
        records := records + [ready];
      }
    }

    /** The second pass over all chunks: each is signed through the dictionary by id. */
    method SignAll(all: seq<ChunkRecord>, signature: string)
      requires OnFile(ChunkId(), store.chunksById, all)
      modifies all
      ensures forall k :: 0 <= k < |all| ==> all[k].signature == Some(signature)
    {
      for k := 0 to |all|
        invariant forall j :: 0 <= j < k ==> all[j].signature == Some(signature)
      {
        store.SetChunkEmbeddingProvider(all[k].id, Some(signature));
      }
    }

    lemma ListsOnFile(lists: seq<seq<ChunkRecord>>, records: seq<DocumentRecord>, ix: Index)
      requires store.Valid() && RefiledUpTo(|lists|, records, lists, ix)
      ensures OnFile(ChunkId(), store.chunksById, Concat(lists))
    {
      forall d {:trigger lists[d]} | 0 <= d < |lists| ensures OnFile(ChunkId(), store.chunksById, lists[d]) {
        assert RefiledAt(d, records[d], lists[d], ix.documents[d].content);
        FiledIsOnFile(ChunkId(), store.chunksByDocument, store.chunksById, d);
      }
      AllOnFile(ChunkId(), store.chunksById, lists);
    }

    lemma ReindexedIsShown(
      records: seq<DocumentRecord>, lists: seq<seq<ChunkRecord>>, ix: Index, prepared: seq<seq<Chunk>>,
          signature: string)
      requires Valid() && |ix.documents| == documentCount && |lists| == documentCount
      requires RefiledUpTo(documentCount, records, lists, ix) && Prepare(lists, prepared)
      requires forall c <- Concat(lists) :: c.signature == Some(signature)
      ensures var documents := Reindexed(ix.documents, prepared, signature);
              forall d: nat {:trigger DocumentIs(d, documents[d])} :: d < documentCount ==> DocumentIs(d, documents[d])
    {
      var documents := Reindexed(ix.documents, prepared, signature);
      forall d: nat {:trigger DocumentIs(d, documents[d])} | d < documentCount ensures DocumentIs(d, documents[d]) {
        InConcat(lists, d);
        assert SameRecords(lists[d], prepared[d]);
      }
    }

    /** With the records on file, the second pass makes every document what the specification says. */
    method Resign(records: seq<DocumentRecord>, lists: seq<seq<ChunkRecord>>, all: seq<ChunkRecord>, signature: string,
                  ghost ix: Index, ghost prepared: seq<seq<Chunk>>)
      requires Valid() && |ix.documents| == documentCount && |lists| == documentCount && all == Concat(lists)
      requires RefiledUpTo(documentCount, records, lists, ix) && Prepare(lists, prepared)
      modifies all
      ensures Valid()
      ensures var documents := Reindexed(ix.documents, prepared, signature);
              forall d: nat {:trigger DocumentIs(d, documents[d])} :: d < documentCount ==> DocumentIs(d, documents[d])
    {
      ListsOnFile(lists, records, ix);
      SignAll(all, signature);
      ReindexedIsShown(records, lists, ix, prepared, signature);
    }

    /** What is prepared for all documents. */
    ghost predicate PreparedAll(lists: seq<seq<ChunkRecord>>, parentLists: seq<seq<ParentRecord>>, ix: Index,
                                prepared: seq<seq<Chunk>>, first: nat, parentFirst: nat)
    {
      && Prepare(lists, prepared) && |Concat(lists)| == |Concat(prepared)| && DrawnInTurn(ChunkId(), lists, first)
      && |lists| == |ix.documents| && |parentLists| == |ix.documents|
         && DrawnInTurn(ParentId(), parentLists, parentFirst)
    }

    lemma PreparedWhole(lists: seq<seq<ChunkRecord>>, parentLists: seq<seq<ParentRecord>>, ix: Index, first: nat,
                        parentFirst: nat)
      requires PreparedUpTo(|ix.documents|, lists, parentLists, ix, first, parentFirst)
      ensures PreparedAll(lists, parentLists, ix, Prepared(ix.documents, split, first), first, parentFirst)
    {
      assert ix.documents[..|ix.documents|] == ix.documents;
    }

    lemma SameIds(lists: seq<seq<ChunkRecord>>, documents: seq<Document>, first: nat)
      requires DrawnInTurn(ChunkId(), lists, first)
      requires |Concat(lists)| == |Concat(Prepared(documents, split, first))|
      ensures var records := Concat(Prepared(documents, split, first));
              forall k :: 0 <= k < |records| ==> records[k].id == Concat(lists)[k].id
    {
      PreparedIds(documents, split, first);
      DrawnTogether(ChunkId(), lists, first);
    }

    /** The documents are as given; only the chunk counter is ahead, by the records prepared. */
    ghost predicate Drew(ix: Index, n: nat)
      requires Valid()
      reads this, store, vectorStore, store.documents.Values, store.Listed()
    {
      && documentCount == |ix.documents| && vectorStore.vectors == ix.vectors && nextChunk == ix.nextId + n
      && forall d: nat {:trigger DocumentIs(d, ix.documents[d])} :: d < documentCount ==> DocumentIs(d, ix.documents[d])
    }

    /** The vectors are written as the specification says, and no document changes. */
    method WriteVectors(all: seq<ChunkRecord>, clear: bool, a: Attempt, ghost ix: Index)
      returns (failure: Option<Failure>)
      requires Valid() && Drew(ix, |all|) && all != []
      requires |all| == |Concat(Prepared(ix.documents, split, ix.nextId))|
      requires forall k :: 0 <= k < |all| ==> Concat(Prepared(ix.documents, split, ix.nextId))[k].id == all[k].id
      modifies vectorStore
      ensures failure == ReindexFailure(a, |all|, clear)
      ensures vectorStore.vectors == Reindex(ix, split, clear, a).vectors
      ensures forall d: nat {:trigger DocumentIs(d, ix.documents[d])} :: d < documentCount ==>
                DocumentIs(d, ix.documents[d])
    {
      failure := WriteAll(all, clear, a, Concat(Prepared(ix.documents, split, ix.nextId)));
      forall d: nat {:trigger DocumentIs(d, ix.documents[d])} | d < documentCount
        ensures DocumentIs(d, ix.documents[d]) {
        assert old(DocumentIs(d, ix.documents[d]));
      }
    }

    /** The prepared records go on file, ready and signed. */
    method Refresh(originals: seq<DocumentRecord>, lists: seq<seq<ChunkRecord>>, parentLists: seq<seq<ParentRecord>>,
                   all: seq<ChunkRecord>, signature: string, ghost ix: Index, ghost prepared: seq<seq<Chunk>>,
                   ghost first: nat, ghost parentFirst: nat)
      requires Valid() && documentCount == |ix.documents|
      requires Originals(originals, ix) && |originals| == documentCount && all == Concat(lists)
      requires PreparedAll(lists, parentLists, ix, prepared, first, parentFirst)
      requires Below(store.chunksById, first) && first + |all| <= nextChunk
      requires Below(store.parentsById, parentFirst) && parentFirst + |Concat(parentLists)| <= nextParent
      modifies store, all
      ensures Valid()
      ensures var documents := Reindexed(ix.documents, prepared, signature);
              forall d: nat {:trigger DocumentIs(d, documents[d])} :: d < documentCount ==> DocumentIs(d, documents[d])
    {
      var records := RefileAll(originals, lists, parentLists, signature, ix, first, parentFirst);
      Resign(records, lists, all, signature, ix, prepared);
    }

    /** All records prepared; the documents and the vectors are still as given. */
    method PrepareReindex(ghost ix: Index, ghost parentFirst: nat)
      returns (originals: seq<DocumentRecord>, lists: seq<seq<ChunkRecord>>, parentLists: seq<seq<ParentRecord>>,
               all: seq<ChunkRecord>)
      requires Valid() && Shows(ix) && parentFirst == nextParent
      modifies `nextChunk, `nextParent
      ensures Valid() && Drew(ix, |all|) && fresh(all) && all == Concat(lists)
      ensures Originals(originals, ix) && |originals| == documentCount
      ensures PreparedAll(lists, parentLists, ix, Prepared(ix.documents, split, ix.nextId), ix.nextId, parentFirst)
      ensures Below(store.chunksById, ix.nextId) && Below(store.parentsById, parentFirst)
      ensures nextParent == parentFirst + |Concat(parentLists)|
    {
      originals, lists, parentLists, all := PrepareAll(ix);
      PreparedWhole(lists, parentLists, ix, ix.nextId, parentFirst);
      EarlierDocumentsStay(ix);
    }

    method ReindexDocuments(clear: bool, a: Attempt, ghost ix: Index) returns (failure: Option<Failure>)
      requires Valid() && Shows(ix)
      modifies this, store, vectorStore
      ensures Valid() && Shows(Reindex(ix, split, clear, a))
      ensures var n := |Concat(Prepared(ix.documents, split, ix.nextId))|;
              failure == if n == 0 then None else ReindexFailure(a, n, clear)
    {
      ghost var parentFirst := nextParent;
      var originals, lists, parentLists, all := PrepareReindex(ix, parentFirst);
      if all == [] {
        return None;
      }
      SameIds(lists, ix.documents, ix.nextId);
      failure := WriteVectors(all, clear, a, ix);
      if failure == None {
        Refresh(originals, lists, parentLists, all, a.signature, ix, Prepared(ix.documents, split, ix.nextId),
                ix.nextId, parentFirst);
      }
    }
  }
}
