/** What the index keeps of a document besides its text: which parent a chunk record names, and why an attempt failed.
    */
module IndexRecords {
  import opened Common
  import opened HierarchicalChunking
  import opened ChunkingCoverage
  import opened Indexing

  /** The record of child m of parent j: its text, its parent's position and its offsets. */
  predicate RecordOf(piece: Piece, parents: seq<TextBlock>, children: ChildSplitter, j: nat, m: nat) {
    && j < |parents| && m < |children(parents[j])|
    && var child := children(parents[j])[m];
       piece == Piece(child.content, Some(parents[j].index), Some(child.start), Some(child.end))
  }

  lemma {:induction false} ChildPieceIs(parents: seq<TextBlock>, children: ChildSplitter, k: nat)
    returns (j: nat, m: nat)
    requires k < |ChildPieces(parents, children)|
    ensures RecordOf(ChildPieces(parents, children)[k], parents, children, j, m)
  {
    var init := parents[..|parents| - 1];
    var n := |ChildPieces(init, children)|;
    if k < n {
      j, m := ChildPieceIs(init, children, k);
      assert parents[j] == init[j];
    } else {
      j, m := |init|, k - n;
    }
  }

  /** In hierarchical mode every chunk record is that of a child of some parent block, and names the parent's position.
      */
  lemma RecordsNameTheirParents(content: string, mode: Mode, k: nat) returns (j: nat, m: nat)
    requires mode.Hierarchical? && k < |Pieces(content, mode)|
    ensures var parents := Parents(content, mode.parentSize, mode.parentOverlap);
            && RecordOf(Pieces(content, mode)[k], parents, ChildSplitting(mode.childSize, mode.childOverlap), j, m)
            && parents[j].index == j
  {
    var parents := Parents(content, mode.parentSize, mode.parentOverlap);
    j, m := ChildPieceIs(parents, ChildSplitting(mode.childSize, mode.childOverlap), k);
    BlocksKeepTheText(content, mode.parentSize, mode.parentOverlap, 0);
  }

  /** What went wrong, if something did: the provider raised, or returned another number of vectors than there are
      chunks, or the upsert at the named position failed; in this order. */
  predicate WentWrong(a: Attempt, n: nat, error: Option<Failure>) {
    match error
    case None => a.embeddings.Some? && |a.embeddings.value| == n && (a.failAt.Some? ==> a.failAt.value >= n)
    case Some(EmbeddingFailed) => a.embeddings.None?
    case Some(WrongCount(got, want)) => a.embeddings.Some? && |a.embeddings.value| == got && want == n && got != want
    case Some(UpsertFailed(at)) => a.embeddings.Some? && |a.embeddings.value| == n && a.failAt == Some(at) && at < n
    case Some(ReplaceFailed) => false
  }

  /** The document of a create holds its text and one record for each of its pieces, in order; it is ready if nothing
      went wrong, and otherwise failed with the reason. */
  lemma CreatedDocument(ix: Index, content: string, split: Splitter, a: Attempt)
    ensures var d := Create(ix, content, split, a).documents[|ix.documents|];
            && d.content == content && |d.chunks| == |split(content)| && WentWrong(a, |split(content)|, d.error)
            && (d.status == Ready <==> d.error == None) && (d.status == Failed <==> d.error.Some?)
            && forall k :: 0 <= k < |d.chunks| ==>
                 d.chunks[k].id == ix.nextId + k && d.chunks[k].piece == split(content)[k]
  {
  }
}
