/** What a candidate shows, and in which order the candidates and their evidence are found: read off the signals. */
module RankingFacts {
  import opened Common
  import opened ParentAggregation

  function Added<T(==)>(xs: seq<T>, x: T): seq<T> { if x in xs then xs else xs + [x] }

  /** Each element where it first occurs. */
  function Distinct<T(==)>(xs: seq<T>): seq<T> {
    if xs == [] then [] else Added(Distinct(xs[..|xs| - 1]), xs[|xs| - 1])
  }

  lemma DistinctMore<T>(init: seq<T>, last: T, whole: seq<T>)
    requires whole == init + [last]
    ensures Distinct(whole) == Added(Distinct(init), last)
  {
    assert whole[..|whole| - 1] == init;
  }

  /** The parent a chunk names, if that is on file; otherwise the chunk stands for itself. */
  function Belongs(store: Lookup, chunk: nat): Owner
    requires chunk in store.chunks
  {
    match store.chunks[chunk].parent
    case Some(id) => if id in store.parents then Parent(id) else Orphan(chunk)
    case None => Orphan(chunk)
  }

  /** The owners of the live signals, in order. */
  function OwnersOf(store: Lookup, signals: seq<Signal>): seq<Owner> {
    if signals == [] then []
    else
      var s := signals[|signals| - 1];
      OwnersOf(store, signals[..|signals| - 1]) + if s.chunk in store.chunks then [Belongs(store, s.chunk)] else []
  }

  /** The chunks of the live signals that belong to the owner, in order. */
  function ChunksOf(store: Lookup, signals: seq<Signal>, owner: Owner): seq<nat> {
    if signals == [] then []
    else
      var s := signals[|signals| - 1];
      ChunksOf(store, signals[..|signals| - 1], owner)
      + if s.chunk in store.chunks && Belongs(store, s.chunk) == owner then [s.chunk] else []
  }

  /** A parent's own card, or that of a chunk without a parent. */
  predicate ShowsItself(store: Lookup, owner: Owner, card: Card) {
    match owner
    case Parent(id) => id in store.parents && card == store.parents[id]
    case Orphan(id) => id in store.chunks && card == store.chunks[id].card
  }

  /** What the loops have found after these signals. */
  ghost predicate Found(store: Lookup, acc: Accumulators, signals: seq<Signal>) {
    && acc.order == Distinct(OwnersOf(store, signals)) && (forall o :: o in acc.order <==> o in acc.of)
    && forall o <- acc.of :: FoundFor(store, acc.of[o], signals, o)
  }

  predicate FoundFor(store: Lookup, a: Accumulator, signals: seq<Signal>, o: Owner) {
    a.evidence == Distinct(ChunksOf(store, signals, o)) && ShowsItself(store, o, a.card)
  }

  lemma OwnersMore(store: Lookup, init: seq<Signal>, s: Signal, whole: seq<Signal>)
    requires whole == init + [s]
    ensures Distinct(OwnersOf(store, whole)) ==
            if s.chunk !in store.chunks then Distinct(OwnersOf(store, init))
            else Added(Distinct(OwnersOf(store, init)), Belongs(store, s.chunk))
  {
    assert whole[..|init|] == init;
    if s.chunk in store.chunks {
      DistinctMore(OwnersOf(store, init), Belongs(store, s.chunk), OwnersOf(store, whole));
    } else {
      assert OwnersOf(store, init) + [] == OwnersOf(store, init);
    }
  }

  lemma MoreChunks(store: Lookup, init: seq<Signal>, s: Signal, whole: seq<Signal>, owner: Owner)
    requires whole == init + [s]
    ensures Distinct(ChunksOf(store, whole, owner)) ==
            if s.chunk in store.chunks && Belongs(store, s.chunk) == owner
            then Added(Distinct(ChunksOf(store, init, owner)), s.chunk)
            else Distinct(ChunksOf(store, init, owner))
  {
    assert whole[..|init|] == init;
    if s.chunk in store.chunks && Belongs(store, s.chunk) == owner {
      DistinctMore(ChunksOf(store, init, owner), s.chunk, ChunksOf(store, whole, owner));
    } else {
      assert ChunksOf(store, init, owner) + [] == ChunksOf(store, init, owner);
    }
  }

  lemma {:induction false} NothingOfOthers(store: Lookup, signals: seq<Signal>, owner: Owner, none: seq<nat>)
    requires owner !in Distinct(OwnersOf(store, signals)) && none == []
    ensures ChunksOf(store, signals, owner) == none
  {
    if signals != [] {
      var init, s := signals[..|signals| - 1], signals[|signals| - 1];
      OwnersMore(store, init, s, signals);
      NothingOfOthers(store, init, owner, none);
    }
  }

  /** What one signal does to the order, the evidence and the cards; its scores are not looked at. */
  ghost predicate Observed(store: Lookup, acc: Accumulators, s: Signal, r: Accumulators) {
    if s.chunk !in store.chunks then r == acc
    else
      var owner := Belongs(store, s.chunk);
      && r.order == (if owner in acc.of then acc.order else acc.order + [owner])
      && r.of.Keys == acc.of.Keys + {owner} && (forall o <- acc.of :: o != owner ==> r.of[o] == acc.of[o])
      && (owner in acc.of ==> r.of[owner].evidence == Added(acc.of[owner].evidence, s.chunk))
      && (owner in acc.of ==> r.of[owner].card == acc.of[owner].card)
      && (owner !in acc.of ==> r.of[owner].evidence == [s.chunk] && ShowsItself(store, owner, r.of[owner].card))
  }

  lemma ObserveIs(store: Lookup, acc: Accumulators, side: Side, s: Signal, constant: nat)
    requires constant > 0
    ensures Observed(store, acc, s, Observe(store, acc, side, s, constant))
  {
  }

  /** What is found for an owner after one more signal. */
  lemma OneMoreFoundFor(store: Lookup, acc: Accumulators, init: seq<Signal>, s: Signal, whole: seq<Signal>,
                        r: Accumulators, o: Owner)
    requires Found(store, acc, init) && whole == init + [s] && Observed(store, acc, s, r) && o in r.of
    ensures FoundFor(store, r.of[o], whole, o)
  {
    MoreChunks(store, init, s, whole, o);
    if o in acc.of {
      assert FoundFor(store, acc.of[o], init, o);
    } else {
      NothingOfOthers(store, init, o, []);
    }
  }

  lemma OneMoreFound(store: Lookup, acc: Accumulators, init: seq<Signal>, s: Signal, whole: seq<Signal>,
                     r: Accumulators)
    requires Found(store, acc, init) && whole == init + [s] && Observed(store, acc, s, r)
    ensures Found(store, r, whole)
  {
    OwnersMore(store, init, s, whole);
    OneMoreInOrder(store, acc, init, s, r);
    forall o | o in r.of ensures FoundFor(store, r.of[o], whole, o) {
      OneMoreFoundFor(store, acc, init, s, whole, r, o);
    }
  }

  lemma OneMoreInOrder(store: Lookup, acc: Accumulators, init: seq<Signal>, s: Signal, r: Accumulators)
    requires Found(store, acc, init) && Observed(store, acc, s, r)
    ensures r.order == if s.chunk !in store.chunks then acc.order else Added(acc.order, Belongs(store, s.chunk))
    ensures forall o :: o in r.order <==> o in r.of
  {
    if s.chunk in store.chunks {
      var owner := Belongs(store, s.chunk);
      assert forall o :: o in acc.order + [owner] <==> o in acc.order || o == owner;
    }
  }

  lemma {:induction false} AllFound(store: Lookup, acc: Accumulators, before: seq<Signal>, side: Side,
                                    signals: seq<Signal>, constant: nat, whole: seq<Signal>)
    requires constant > 0 && Found(store, acc, before) && whole == before + signals
    ensures Found(store, ObserveAll(store, acc, side, signals, constant), whole)
  {
    if signals == [] {
      assert whole == before;
    } else {
      var init, s := signals[..|signals| - 1], signals[|signals| - 1];
      AllFound(store, acc, before, side, init, constant, before + init);
      var found := ObserveAll(store, acc, side, init, constant);
      ObserveIs(store, found, side, s, constant);
      OneMoreFound(store, found, before + init, s, whole, Observe(store, found, side, s, constant));
    }
  }

  lemma GatheredFound(store: Lookup, vector: seq<Signal>, bm25: seq<Signal>, constant: nat, none: seq<Signal>)
    requires constant > 0 && none == []
    ensures Found(store, Gather(store, vector, bm25, constant), vector + bm25)
  {
    AllFound(store, NONE, none, Vector, vector, constant, none + vector);
    assert none + vector == vector;
    AllFound(store, ObserveAll(store, NONE, Vector, vector, constant), vector, Bm25, bm25, constant, vector + bm25);
  }

  lemma EvidenceFound(store: Lookup, vector: seq<Signal>, bm25: seq<Signal>, constant: nat, o: Owner,
                      none: seq<Signal>)
    requires constant > 0 && none == [] && o in Gather(store, vector, bm25, constant).of
    ensures Gather(store, vector, bm25, constant).of[o].evidence == Distinct(ChunksOf(store, vector + bm25, o))
  {
    GatheredFound(store, vector, bm25, constant, none);
    assert FoundFor(store, Gather(store, vector, bm25, constant).of[o], vector + bm25, o);
  }

  /** The candidates come in the order in which their owners were first seen, vector signals before BM25 signals; each
      shows its parent, or itself without one, and the first chunks of its evidence in the order in which they were
      seen. */
  lemma CandidatesShow(store: Lookup, vector: seq<Signal>, bm25: seq<Signal>, settings: Settings, none: seq<Signal>)
    requires settings.constant > 0 && Owned(Gather(store, vector, bm25, settings.constant)) && none == []
    ensures var cs := Candidates(Gather(store, vector, bm25, settings.constant), settings);
            var owners := Distinct(OwnersOf(store, vector + bm25));
            && |cs| == |owners|
            && forall k :: 0 <= k < |cs| ==>
                 && cs[k].owner == owners[k] && ShowsItself(store, owners[k], cs[k].card)
                 && cs[k].evidence == Take(Distinct(ChunksOf(store, vector + bm25, owners[k])), settings.maxEvidence)
  {
    var acc := Gather(store, vector, bm25, settings.constant);
    GatheredFound(store, vector, bm25, settings.constant, none);
    forall k | 0 <= k < |acc.order| ensures FoundFor(store, acc.of[acc.order[k]], vector + bm25, acc.order[k]) {
    }
  }

  // ---- The score ----

  /** The least rank among the signals that reach the owner, if any do. */
  ghost predicate IsLeast(store: Lookup, signals: seq<Signal>, owner: Owner, rank: Option<nat>) {
    match rank
    case None => !Reached(store, signals, owner)
    case Some(r) => exists k: nat :: LeastRank(store, signals, owner, k) && signals[k].rank == r
  }

  /** A weight over the constant plus the rank; nothing without one. */
  function Share(weight: real, constant: nat, rank: Option<nat>): real
    requires constant > 0
  {
    if rank.None? then 0.0 else weight / (constant + rank.value) as real
  }

  function Bonus(settings: Settings, evidence: nat): real {
    settings.bonus * (if evidence <= settings.maxEvidence then evidence else settings.maxEvidence) as real
  }

  lemma BestRank(store: Lookup, signals: seq<Signal>, owner: Owner, constant: nat, best: real)
    returns (rank: Option<nat>)
    requires constant > 0 && IsBest(store, signals, owner, constant, best)
    ensures IsLeast(store, signals, owner, rank) && best == Share(1.0, constant, rank)
  {
    if Reached(store, signals, owner) {
      var k: nat :| LeastRank(store, signals, owner, k) && best == Rrf(signals[k].rank, constant);
      rank := Some(signals[k].rank);
      RrfIsShare(signals[k].rank, constant, rank);
    } else {
      rank := None;
    }
  }

  lemma RrfIsShare(r: nat, constant: nat, rank: Option<nat>)
    requires constant > 0 && rank == Some(r)
    ensures Rrf(r, constant) == Share(1.0, constant, rank)
  {
  }

  lemma ShareOf(weight: real, constant: nat, rank: Option<nat>)
    requires constant > 0
    ensures weight * Share(1.0, constant, rank) == Share(weight, constant, rank)
  {
  }

  /** Each candidate's score is the vector weight over the constant plus the least rank of the vector signals that reach
      its owner, the BM25 weight likewise, and the bonus for each distinct chunk of evidence up to the maximum. */
  lemma CandidateScoreIs(store: Lookup, vector: seq<Signal>, bm25: seq<Signal>, settings: Settings, k: nat)
    returns (v: Option<nat>, b: Option<nat>)
    requires settings.constant > 0 && Owned(Gather(store, vector, bm25, settings.constant))
    requires k < |Gather(store, vector, bm25, settings.constant).order|
    ensures var c := Candidates(Gather(store, vector, bm25, settings.constant), settings)[k];
            && IsLeast(store, vector, c.owner, v) && IsLeast(store, bm25, c.owner, b)
            && c.score ==
               Share(settings.vectorWeight, settings.constant, v) + Share(settings.bm25Weight, settings.constant, b)
               + Bonus(settings, |Distinct(ChunksOf(store, vector + bm25, c.owner))|)
  {
    var acc := Gather(store, vector, bm25, settings.constant);
    var o := acc.order[k];
    GatheredFigures(store, vector, bm25, settings.constant, o);
    v := BestRank(store, vector, o, settings.constant, Best(acc, o, Vector));
    b := BestRank(store, bm25, o, settings.constant, Best(acc, o, Bm25));
    EvidenceFound(store, vector, bm25, settings.constant, o, []);
    ScoreIs(settings, acc.of[o], v, b, |acc.of[o].evidence|);
  }

  lemma ScoreIs(settings: Settings, a: Accumulator, v: Option<nat>, b: Option<nat>, evidence: nat)
    requires settings.constant > 0 && evidence == |a.evidence|
    requires a.bestVector == Share(1.0, settings.constant, v) && a.bestBm25 == Share(1.0, settings.constant, b)
    ensures Score(a, settings) ==
            Share(settings.vectorWeight, settings.constant, v) + Share(settings.bm25Weight, settings.constant, b)
            + Bonus(settings, evidence)
  {
    ShareOf(settings.vectorWeight, settings.constant, v);
    ShareOf(settings.bm25Weight, settings.constant, b);
  }
}
