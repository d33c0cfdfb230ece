/** app/rag/store.py and app/rag/vector_store.py: the in-memory stores. Chunk records are objects that the list of their
    document and the dictionary of all chunks share. */
module KnowledgeStore {
  import opened Common
  import opened Indexing
  import HierarchicalChunking

  class ChunkRecord {
    const id: nat
    const piece: Piece
    var signature: Option<string>

    constructor (id: nat, piece: Piece)
      ensures this.id == id && this.piece == piece && signature == None
    {
      this.id, this.piece, signature := id, piece, None;
    }

    ghost function View(): Chunk
      reads this
    {
      Chunk(id, piece, signature)
    }
  }

  class DocumentRecord {
    const id: nat
    const content: string
    var status: Status
    var error: Option<Failure>

    constructor (id: nat, content: string, status: Status)
      ensures this.id == id && this.content == content && this.status == status && error == None
    {
      this.id, this.content, this.status, error := id, content, status, None;
    }
  }

  datatype ParentRecord = ParentRecord(id: nat, block: HierarchicalChunking.TextBlock)

  // ---- Two dictionaries of records: by owner and by id ----

  /** Record k of owner d. */
  predicate At<T>(lists: map<nat, seq<T>>, d: nat, k: nat) { d in lists && k < |lists[d]| }

  ghost predicate Listed<T>(id: T -> nat, lists: map<nat, seq<T>>, byId: map<nat, T>) {
    forall d: nat, k: nat {:trigger At(lists, d, k)} ::
      At(lists, d, k) ==> id(lists[d][k]) in byId && byId[id(lists[d][k])] == lists[d][k]
  }

  ghost predicate Held<T>(id: T -> nat, lists: map<nat, seq<T>>, byId: map<nat, T>) {
    forall i {:trigger i in byId} :: i in byId ==> id(byId[i]) == i && Owned(lists, byId[i])
  }

  ghost predicate Owned<T>(lists: map<nat, seq<T>>, record: T) {
    exists d: nat, k: nat :: At(lists, d, k) && lists[d][k] == record
  }

  ghost predicate ListedOnce<T>(id: T -> nat, lists: map<nat, seq<T>>) {
    forall d: nat, k: nat, e: nat, j: nat {:trigger At(lists, d, k), At(lists, e, j)} ::
      At(lists, d, k) && At(lists, e, j) && id(lists[d][k]) == id(lists[e][j]) ==> d == e && k == j
  }

  /** The dictionary by id holds exactly the listed records, and each id is listed once. */
  ghost predicate Filed<T>(id: T -> nat, lists: map<nat, seq<T>>, byId: map<nat, T>) {
    Listed(id, lists, byId) && Held(id, lists, byId) && ListedOnce(id, lists)
  }

  /** Records with distinct ids that no record on file has. */
  ghost predicate New<T>(id: T -> nat, byId: map<nat, T>, records: seq<T>) {
    && (forall k :: 0 <= k < |records| ==> id(records[k]) !in byId)
    && (forall j, k :: 0 <= j < k < |records| ==> id(records[j]) != id(records[k]))
  }

  function Removed<T>(id: T -> nat, byId: map<nat, T>, records: seq<T>): (r: map<nat, T>)
    ensures forall i :: i in r <==> i in byId && forall k :: 0 <= k < |records| ==> id(records[k]) != i
    ensures forall i :: i in r ==> r[i] == byId[i]
  {
    if records == [] then byId
    else Removed(id, byId, records[..|records| - 1]) - {id(records[|records| - 1])}
  }

  function Added<T>(id: T -> nat, byId: map<nat, T>, records: seq<T>): map<nat, T> {
    if records == [] then byId
    else
      var last := records[|records| - 1];
      Added(id, byId, records[..|records| - 1])[id(last) := last]
  }

  lemma {:induction false} AddedHolds<T>(id: T -> nat, byId: map<nat, T>, records: seq<T>)
    requires New(id, byId, records)
    ensures var r := Added(id, byId, records);
            && (forall i :: i in byId ==> i in r && r[i] == byId[i])
            && (forall k :: 0 <= k < |records| ==> id(records[k]) in r && r[id(records[k])] == records[k])
            && (forall i :: i in r ==>
                  i in byId || exists k :: 0 <= k < |records| && r[i] == records[k] && id(records[k]) == i)
  {
    if records != [] {
      AddedHolds(id, byId, records[..|records| - 1]);
    }
  }

  function OfOwner<T>(lists: map<nat, seq<T>>, d: nat): seq<T> { if d in lists then lists[d] else [] }

  lemma StillThere<T>(id: T -> nat, lists: map<nat, seq<T>>, byId: map<nat, T>, d: nat, e: nat, j: nat)
    requires Filed(id, lists, byId) && e != d && At(lists, e, j)
    ensures id(lists[e][j]) in Removed(id, byId, OfOwner(lists, d))
  {
    var held := OfOwner(lists, d);
    forall k: nat | k < |held| ensures id(held[k]) != id(lists[e][j]) {
      assert At(lists, d, k);
    }
  }

  lemma RefiledListed<T>(id: T -> nat, lists: map<nat, seq<T>>, byId: map<nat, T>, d: nat, records: seq<T>)
    requires Filed(id, lists, byId) && New(id, byId, records)
    ensures Listed(id, lists[d := records], Added(id, Removed(id, byId, OfOwner(lists, d)), records))
  {
    var kept, now := Removed(id, byId, OfOwner(lists, d)), lists[d := records];
    AddedHolds(id, kept, records);
    var filed := Added(id, kept, records);
    forall e: nat, j: nat | At(now, e, j) ensures id(now[e][j]) in filed && filed[id(now[e][j])] == now[e][j] {
      if e != d {
        assert At(lists, e, j);
        StillThere(id, lists, byId, d, e, j);
      }
    }
  }

  lemma RefiledHeld<T>(id: T -> nat, lists: map<nat, seq<T>>, byId: map<nat, T>, d: nat, records: seq<T>)
    requires Filed(id, lists, byId) && New(id, byId, records)
    ensures Held(id, lists[d := records], Added(id, Removed(id, byId, OfOwner(lists, d)), records))
  {
    var kept, now := Removed(id, byId, OfOwner(lists, d)), lists[d := records];
    AddedHolds(id, kept, records);
    var filed := Added(id, kept, records);
    forall i | i in filed ensures id(filed[i]) == i && Owned(now, filed[i]) {
      if i in kept {
        assert Owned(lists, byId[i]);
        var e: nat, j: nat :| At(lists, e, j) && lists[e][j] == byId[i];
        assert At(now, e, j);
      } else {
        var k: nat :| k < |records| && filed[i] == records[k] && id(records[k]) == i;
        assert At(now, d, k);
      }
    }
  }

  lemma RefiledOnce<T>(id: T -> nat, lists: map<nat, seq<T>>, byId: map<nat, T>, d: nat, records: seq<T>)
    requires Filed(id, lists, byId) && New(id, byId, records)
    ensures ListedOnce(id, lists[d := records])
  {
    var now := lists[d := records];
    forall c: nat, k: nat, e: nat, j: nat | At(now, c, k) && At(now, e, j) && id(now[c][k]) == id(now[e][j])
      ensures c == e && k == j
    {
      if c != d {
        assert At(lists, c, k);
      }
      if e != d {
        assert At(lists, e, j);
      }
    }
  }

  /** Replacing the records of one owner by new ones keeps the two dictionaries in agreement. */
  lemma RefiledAgree<T>(id: T -> nat, lists: map<nat, seq<T>>, byId: map<nat, T>, d: nat, records: seq<T>)
    requires Filed(id, lists, byId) && New(id, byId, records)
    ensures Filed(id, lists[d := records], Added(id, Removed(id, byId, OfOwner(lists, d)), records))
  {
    RefiledListed(id, lists, byId, d, records);
    RefiledHeld(id, lists, byId, d, records);
    RefiledOnce(id, lists, byId, d, records);
  }

  ghost predicate OnlyNew<T>(id: T -> nat, before: map<nat, T>, after: map<nat, T>, records: seq<T>) {
    forall i :: i in after ==> i in before || exists k :: 0 <= k < |records| && id(records[k]) == i
  }

  /** What `add_document` does to a pair of dictionaries; by `Filed`, the lists determine the dictionary by id. */
  method Refile<T>(id: T -> nat, lists: map<nat, seq<T>>, byId: map<nat, T>, d: nat, records: seq<T>)
    returns (newLists: map<nat, seq<T>>, newById: map<nat, T>)
    requires Filed(id, lists, byId) && New(id, byId, records)
    ensures newLists == lists[d := records]
    ensures Filed(id, newLists, newById) && OnlyNew(id, byId, newById, records)
  {
    var existing := OfOwner(lists, d);
    newById := byId;
    for k := 0 to |existing|
      invariant newById == Removed(id, byId, existing[..k])
    {
      assert existing[..k + 1][..k] == existing[..k];
      newById := newById - {id(existing[k])};
    }
    assert existing[..|existing|] == existing;
    newLists := lists[d := records];
    for k := 0 to |records|
      invariant newById == Added(id, Removed(id, byId, existing), records[..k])
    {
      assert records[..k + 1][..k] == records[..k];
      newById := newById[id(records[k]) := records[k]];
    }
    assert records[..|records|] == records;
    AddedHolds(id, Removed(id, byId, existing), records);
    RefiledAgree(id, lists, byId, d, records);
  }

  // ---- Ids drawn from a counter ----

  ghost predicate Below<T>(byId: map<nat, T>, next: nat) { forall i {:trigger i in byId} :: i in byId ==> i < next }

  /** The records carry the next ids. */
  ghost predicate Drawn<T>(id: T -> nat, records: seq<T>, next: nat) {
    forall k {:trigger records[k]} :: 0 <= k < |records| ==> id(records[k]) == next + k
  }

  lemma DrawnIsNew<T>(id: T -> nat, byId: map<nat, T>, records: seq<T>, next: nat)
    requires Below(byId, next) && Drawn(id, records, next)
    ensures New(id, byId, records)
  {
  }

  lemma BelowGrows<T>(id: T -> nat, before: map<nat, T>, after: map<nat, T>, records: seq<T>, next: nat)
    requires Below(before, next) && Drawn(id, records, next) && OnlyNew(id, before, after, records)
    ensures Below(after, next + |records|)
  {
  }

  // ---- Lists of lists ----

  lemma ConcatMore<T>(lists: seq<seq<T>>, list: seq<T>)
    ensures Concat(lists + [list]) == Concat(lists) + list
  {
    assert (lists + [list])[..|lists|] == lists;
  }

  lemma {:induction false} InConcat<T>(lists: seq<seq<T>>, d: nat)
    requires d < |lists|
    ensures forall x <- lists[d] :: x in Concat(lists)
    ensures |Concat(lists[..d])| + |lists[d]| <= |Concat(lists)|
  {
    if d < |lists| - 1 {
      InConcat(lists[..|lists| - 1], d);
      assert lists[..|lists| - 1][..d] == lists[..d];
    } else {
      assert lists[..d] == lists[..|lists| - 1];
    }
  }

  /** Each list carries the ids that follow those of the lists before it. */
  ghost predicate DrawnInTurn<T>(id: T -> nat, lists: seq<seq<T>>, first: nat) {
    forall d {:trigger lists[d]} :: 0 <= d < |lists| ==> Drawn(id, lists[d], first + |Concat(lists[..d])|)
  }

  /** The turn of list d: `next` is the id its records start with. */
  lemma Turn<T>(id: T -> nat, lists: seq<seq<T>>, d: nat, first: nat, next: nat)
    requires DrawnInTurn(id, lists, first) && d < |lists| && next == first + |Concat(lists[..d])|
    ensures Drawn(id, lists[d], next)
    ensures next + |lists[d]| == first + |Concat(lists[..d + 1])| <= first + |Concat(lists)|
    ensures forall x <- lists[d] :: x in Concat(lists)
  {
    InConcat(lists, d);
    ConcatMore(lists[..d], lists[d]);
    assert lists[..d + 1] == lists[..d] + [lists[d]];
  }

  lemma {:induction false} DrawnTogether<T>(id: T -> nat, lists: seq<seq<T>>, first: nat)
    requires DrawnInTurn(id, lists, first)
    ensures Drawn(id, Concat(lists), first)
  {
    if lists != [] {
      var init := lists[..|lists| - 1];
      forall d {:trigger init[d]} | 0 <= d < |init| ensures Drawn(id, init[d], first + |Concat(init[..d])|) {
        assert init[d] == lists[d] && init[..d] == lists[..d];
      }
      DrawnTogether(id, init, first);
      assert Drawn(id, lists[|init|], first + |Concat(lists[..|init|])|);
    }
  }

  lemma DrawnInTurnMore<T>(id: T -> nat, lists: seq<seq<T>>, list: seq<T>, first: nat)
    requires DrawnInTurn(id, lists, first) && Drawn(id, list, first + |Concat(lists)|)
    ensures DrawnInTurn(id, lists + [list], first)
  {
    var more := lists + [list];
    forall d {:trigger more[d]} | 0 <= d < |more| ensures Drawn(id, more[d], first + |Concat(more[..d])|) {
      assert more[..d] == lists[..d];
      assert lists[..|lists|] == lists;
    }
  }

  /** What is on file under the ids of these records is they. */
  ghost predicate OnFile<T>(id: T -> nat, byId: map<nat, T>, records: seq<T>) {
    forall k {:trigger records[k]} :: 0 <= k < |records|
        ==> id(records[k]) in byId && byId[id(records[k])] == records[k]
  }

  lemma {:induction false} AllOnFile<T>(id: T -> nat, byId: map<nat, T>, lists: seq<seq<T>>)
    requires forall d {:trigger lists[d]} :: 0 <= d < |lists| ==> OnFile(id, byId, lists[d])
    ensures OnFile(id, byId, Concat(lists))
  {
    if lists != [] {
      AllOnFile(id, byId, lists[..|lists| - 1]);
      assert OnFile(id, byId, lists[|lists| - 1]);
    }
  }

  lemma FiledIsOnFile<T>(id: T -> nat, lists: map<nat, seq<T>>, byId: map<nat, T>, d: nat)
    requires Filed(id, lists, byId) && d in lists
    ensures OnFile(id, byId, lists[d])
  {
    forall k | 0 <= k < |lists[d]| ensures id(lists[d][k]) in byId && byId[id(lists[d][k])] == lists[d][k] {
      assert At(lists, d, k);
    }
  }

  // ---- The stores ----

  class InMemoryVectorStore {
    var vectors: map<nat, Vector>

    constructor ()
      ensures vectors == map[]
    {
      vectors := map[];
    }

    method Upsert(chunkId: nat, vector: Vector)
      modifies this
      ensures vectors == old(vectors)[chunkId := vector]
    {
      vectors := vectors[chunkId := vector];
    }

    method Delete(chunkIds: seq<nat>)
      modifies this
      ensures vectors == old(vectors) - (set k | 0 <= k < |chunkIds| :: chunkIds[k])
    {
      for k := 0 to |chunkIds|
        invariant vectors == old(vectors) - (set j | 0 <= j < k :: chunkIds[j])
      {
        vectors := vectors - {chunkIds[k]};
      }
    }

    method ReplaceAll(entries: map<nat, Vector>)
      modifies this
      ensures vectors == entries
    {
      vectors := entries;
    }
  }

  function ChunkId(): ChunkRecord -> nat { (c: ChunkRecord) => c.id }

  function ParentId(): ParentRecord -> nat { (p: ParentRecord) => p.id }

  class InMemoryKnowledgeStore {
    var documents: map<nat, DocumentRecord>
    var chunksByDocument: map<nat, seq<ChunkRecord>>
    var chunksById: map<nat, ChunkRecord>
    var parentsByDocument: map<nat, seq<ParentRecord>>
    var parentsById: map<nat, ParentRecord>

    /** The chunk objects in the lists. */
    ghost function Listed(): set<ChunkRecord>
      reads this
    {
      set d, k | d in chunksByDocument && 0 <= k < |chunksByDocument[d]| :: chunksByDocument[d][k]
    }

    /** The five dictionaries agree: each document has its lists, and the dictionaries by id are exactly the union of
        the lists, holding the very same chunk objects. */
    ghost predicate Valid()
      reads this
    {
      && chunksByDocument.Keys == documents.Keys && parentsByDocument.Keys == documents.Keys
      && (forall d :: d in documents ==> documents[d].id == d)
      && Filed(ChunkId(), chunksByDocument, chunksById) && Filed(ParentId(), parentsByDocument, parentsById)
    }

    constructor ()
      ensures Valid() && documents == map[] && chunksById == map[] && parentsById == map[]
    {
      documents, chunksByDocument, chunksById, parentsByDocument, parentsById := map[], map[], map[], map[], map[];
    }

    method AddDocument(document: DocumentRecord, chunks: seq<ChunkRecord>, parents: seq<ParentRecord>)
      requires Valid() && New(ChunkId(), chunksById, chunks) && New(ParentId(), parentsById, parents)
      modifies this
      ensures Valid() && documents == old(documents)[document.id := document]
      ensures chunksByDocument == old(chunksByDocument)[document.id := chunks]
      ensures parentsByDocument == old(parentsByDocument)[document.id := parents]
      ensures OnlyNew(ChunkId(), old(chunksById), chunksById, chunks)
      ensures OnlyNew(ParentId(), old(parentsById), parentsById, parents)
    {
      documents := documents[document.id := document];
      chunksByDocument, chunksById := Refile(ChunkId(), chunksByDocument, chunksById, document.id, chunks);
      parentsByDocument, parentsById := Refile(ParentId(), parentsByDocument, parentsById, document.id, parents);
    }

    method SetChunkEmbeddingProvider(chunkId: nat, signature: Option<string>)
      modifies if chunkId in chunksById then {chunksById[chunkId]} else {}
      ensures chunkId in chunksById ==> chunksById[chunkId].signature == signature
    {
      if chunkId in chunksById {
        chunksById[chunkId].signature := signature;
      }
    }

    method SetDocumentIndexStatus(documentId: nat, status: Status, error: Option<Failure>)
      modifies if documentId in documents then {documents[documentId]} else {}
      ensures documentId in documents ==> documents[documentId].status == status && documents[documentId].error == error
    {
      if documentId in documents {
        documents[documentId].status := status;
        documents[documentId].error := error;
      }
    }
  }
}
