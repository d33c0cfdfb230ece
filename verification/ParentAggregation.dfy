/** app/rag/parent_aggregation.py: child signals gathered into ranked parents. Scores are exact numbers: floating point
    and the final rounding are not part of this model. */
module ParentAggregation {
  import opened Common

  // ---- Data ----

  /** What a candidate shows: it comes from the parent block, or from the chunk if there is none. */
  datatype Card = Card(documentId: string, title: string, index: nat, content: string)

  datatype ChunkInfo = ChunkInfo(parent: Option<nat>, card: Card)

  /** The store's lookups. */
  datatype Lookup = Lookup(chunks: map<nat, ChunkInfo>, parents: map<nat, Card>)

  datatype Signal = Signal(chunk: nat, score: real, rank: nat)

  datatype Settings = Settings(vectorWeight: real, bm25Weight: real, bonus: real, constant: nat, maxEvidence: nat)

  /** The key of an accumulator: a parent id, or a chunk id that has no parent. The two never clash. */
  datatype Owner = Parent(id: nat) | Orphan(id: nat)

  datatype Accumulator = Accumulator(
    card: Card, evidence: seq<nat>, bestVector: real, bestBm25: real, vectorScore: Option<real>,
        bm25Score: Option<real>)

  datatype Candidate = Candidate(
    owner: Owner, card: Card, score: real, evidence: seq<nat>, vectorScore: Option<real>, bm25Score: Option<real>)

  /** Accumulators in order of insertion. */
  datatype Accumulators = Accumulators(order: seq<Owner>, of: map<Owner, Accumulator>)

  datatype Side = Vector | Bm25

  // ---- The computation ----

  function OwnerOf(store: Lookup, chunk: nat): Owner
    requires chunk in store.chunks
  {
    var parent := store.chunks[chunk].parent;
    if parent.Some? && parent.value in store.parents then Parent(parent.value) else Orphan(chunk)
  }

  function CardOf(store: Lookup, chunk: nat): Card
    requires chunk in store.chunks
  {
    var owner := OwnerOf(store, chunk);
    if owner.Parent? then store.parents[owner.id] else store.chunks[chunk].card
  }

  function Rrf(rank: nat, constant: nat): real
    requires constant > 0
  {
    1.0 / (constant + rank) as real
  }

  function MaxReal(a: real, b: real): real { if a >= b then a else b }

  /** `max(best or score, score)`: a best of zero counts as none. */
  function Better(best: Option<real>, score: real): real {
    MaxReal(if best == None || best.value == 0.0 then score else best.value, score)
  }

  function AddEvidence(evidence: seq<nat>, chunk: nat): seq<nat> {
    if chunk in evidence then evidence else evidence + [chunk]
  }

  function Fresh(card: Card): Accumulator { Accumulator(card, [], 0.0, 0.0, None, None) }

  function Improved(a: Accumulator, side: Side, s: Signal, constant: nat): Accumulator
    requires constant > 0
  {
    var b := a.(evidence := AddEvidence(a.evidence, s.chunk));
    match side
    case Vector => b.(bestVector := MaxReal(a.bestVector, Rrf(s.rank, constant)),
                      vectorScore := Some(Better(a.vectorScore, s.score)))
    case Bm25 => b.(bestBm25 := MaxReal(a.bestBm25, Rrf(s.rank, constant)),
                    bm25Score := Some(Better(a.bm25Score, s.score)))
  }

  function GetOrCreate(acc: Accumulators, owner: Owner, card: Card): Accumulators {
    if owner in acc.of then acc else Accumulators(acc.order + [owner], acc.of[owner := Fresh(card)])
  }

  function Observe(store: Lookup, acc: Accumulators, side: Side, s: Signal, constant: nat): Accumulators
    requires constant > 0
  {
    if s.chunk !in store.chunks then acc
    else
      var owner := OwnerOf(store, s.chunk);
      var more := GetOrCreate(acc, owner, CardOf(store, s.chunk));
      more.(of := more.of[owner := Improved(more.of[owner], side, s, constant)])
  }

  function ObserveAll(store: Lookup, acc: Accumulators, side: Side, signals: seq<Signal>, constant: nat): Accumulators
    requires constant > 0
  {
    if signals == [] then acc
    else
      Observe(store, ObserveAll(store, acc, side, signals[..|signals| - 1], constant), side, signals[|signals| - 1],
              constant)
  }

  const NONE := Accumulators([], map[])

  function Gather(store: Lookup, vector: seq<Signal>, bm25: seq<Signal>, constant: nat): Accumulators
    requires constant > 0
  {
    ObserveAll(store, ObserveAll(store, NONE, Vector, vector, constant), Bm25, bm25, constant)
  }

  function Weighed(settings: Settings, bestVector: real, bestBm25: real, evidence: nat): real {
    settings.vectorWeight * bestVector + settings.bm25Weight * bestBm25
    + settings.bonus * (Min(evidence, settings.maxEvidence) as real)
  }

  function Score(a: Accumulator, settings: Settings): real {
    Weighed(settings, a.bestVector, a.bestBm25, |a.evidence|)
  }

  function CandidateOf(owner: Owner, a: Accumulator, settings: Settings): Candidate {
    Candidate(owner, a.card, Score(a, settings),
              if |a.evidence| <= settings.maxEvidence then a.evidence else a.evidence[..settings.maxEvidence],
              a.vectorScore, a.bm25Score)
  }

  /** A stable sort by score, best first. */
  function Ranked(candidates: seq<Candidate>): seq<Candidate> {
    if candidates == [] then [] else Place(Ranked(candidates[..|candidates| - 1]), candidates[|candidates| - 1])
  }

  function Place(ranked: seq<Candidate>, c: Candidate): seq<Candidate> {
    if ranked == [] || ranked[|ranked| - 1].score >= c.score then ranked + [c]
    else Place(ranked[..|ranked| - 1], c) + [ranked[|ranked| - 1]]
  }

  ghost predicate Owned(acc: Accumulators) {
    NoDuplicates(acc.order) && forall o :: o in acc.order <==> o in acc.of
  }

  function Candidates(acc: Accumulators, settings: Settings): (r: seq<Candidate>)
    requires forall o <- acc.order :: o in acc.of
    ensures |r| == |acc.order|
    ensures forall k :: 0 <= k < |r| ==> r[k] == CandidateOf(acc.order[k], acc.of[acc.order[k]], settings)
  {
    seq(|acc.order|, k requires 0 <= k < |acc.order| => CandidateOf(acc.order[k], acc.of[acc.order[k]], settings))
  }

  lemma {:induction false} GatheringOwns(store: Lookup, acc: Accumulators, side: Side, signals: seq<Signal>,
                                         constant: nat)
    requires constant > 0 && Owned(acc)
    ensures Owned(ObserveAll(store, acc, side, signals, constant))
  {
    if signals != [] {
      GatheringOwns(store, acc, side, signals[..|signals| - 1], constant);
    }
  }

  // ---- The loops of the program ----

  method ObserveSignals(store: Lookup, accumulators: Accumulators, side: Side, signals: seq<Signal>, constant: nat)
    returns (acc: Accumulators)
    requires constant > 0
    ensures acc == ObserveAll(store, accumulators, side, signals, constant)
  {
    acc := accumulators;
    for k := 0 to |signals|
      invariant acc == ObserveAll(store, accumulators, side, signals[..k], constant)
    {
      assert signals[..k + 1][..k] == signals[..k];
      var signal := signals[k];
      if signal.chunk !in store.chunks {
        continue;
      }
      var owner := OwnerOf(store, signal.chunk);
      if owner !in acc.of {
        acc := Accumulators(acc.order + [owner], acc.of[owner := Fresh(CardOf(store, signal.chunk))]);
      }
      var a := acc.of[owner];
      if signal.chunk !in a.evidence {
        a := a.(evidence := a.evidence + [signal.chunk]);
      }
      var rrf := Rrf(signal.rank, constant);
      if side == Vector {
        a := a.(bestVector := MaxReal(a.bestVector, rrf), vectorScore := Some(Better(a.vectorScore, signal.score)));
      } else {
        a := a.(bestBm25 := MaxReal(a.bestBm25, rrf), bm25Score := Some(Better(a.bm25Score, signal.score)));
      }
      acc := acc.(of := acc.of[owner := a]);
    }
    assert signals[..|signals|] == signals;
  }

  method AggregateParentCandidates(store: Lookup, vector: seq<Signal>, bm25: seq<Signal>, settings: Settings)
    returns (candidates: seq<Candidate>)
    requires settings.constant > 0
    ensures Owned(Gather(store, vector, bm25, settings.constant))
    ensures candidates == Ranked(Candidates(Gather(store, vector, bm25, settings.constant), settings))
  {
    GatheringOwns(store, NONE, Vector, vector, settings.constant);
    var acc := ObserveSignals(store, NONE, Vector, vector, settings.constant);
    GatheringOwns(store, acc, Bm25, bm25, settings.constant);
    acc := ObserveSignals(store, acc, Bm25, bm25, settings.constant);
    candidates := Ranked(Candidates(acc, settings));
  }

  // ---- What is computed, declaratively ----

  /** Signal k reaches the owner: its chunk is on file and belongs to it. */
  predicate Reaches(store: Lookup, signals: seq<Signal>, k: nat, owner: Owner) {
    k < |signals| && signals[k].chunk in store.chunks && OwnerOf(store, signals[k].chunk) == owner
  }

  ghost predicate Reached(store: Lookup, signals: seq<Signal>, owner: Owner) {
    exists k: nat :: Reaches(store, signals, k, owner)
  }

  /** The reciprocal of the constant plus the least rank among the signals that reach the owner; zero without any. */
  ghost predicate IsBest(store: Lookup, signals: seq<Signal>, owner: Owner, constant: nat, best: real)
    requires constant > 0
  {
    if Reached(store, signals, owner) then
      exists k: nat :: LeastRank(store, signals, owner, k) && best == Rrf(signals[k].rank, constant)
    else best == 0.0
  }

  ghost predicate LeastRank(store: Lookup, signals: seq<Signal>, owner: Owner, k: nat) {
    && Reaches(store, signals, k, owner)
    && forall j: nat :: Reaches(store, signals, j, owner) ==> signals[k].rank <= signals[j].rank
  }

  /** A signal that reaches the owner is about this chunk. */
  ghost predicate Shown(store: Lookup, signals: seq<Signal>, owner: Owner, c: nat) {
    exists k: nat :: Reaches(store, signals, k, owner) && signals[k].chunk == c
  }

  /** The distinct chunks of the signals of both lists that reach the owner. */
  ghost predicate IsEvidence(store: Lookup, vector: seq<Signal>, bm25: seq<Signal>, owner: Owner, evidence: seq<nat>) {
    && NoDuplicates(evidence)
    && forall c: nat :: c in evidence <==> Shown(store, vector, owner, c) || Shown(store, bm25, owner, c)
  }

  // ---- The loops compute it ----

  function Best(acc: Accumulators, owner: Owner, side: Side): real {
    if owner !in acc.of then 0.0 else if side == Vector then acc.of[owner].bestVector else acc.of[owner].bestBm25
  }

  function Evidence(acc: Accumulators, owner: Owner): seq<nat> {
    if owner in acc.of then acc.of[owner].evidence else []
  }

  lemma RrfOrder(a: nat, b: nat, constant: nat)
    requires constant > 0
    ensures Rrf(a, constant) > 0.0 && (a <= b <==> Rrf(a, constant) >= Rrf(b, constant))
  {
    var x, y := (constant + a) as real, (constant + b) as real;
    assert Rrf(a, constant) * x == 1.0 && Rrf(b, constant) * y == 1.0;
    if a <= b {
      Reciprocal(x, y);
    } else {
      Reciprocal(y, x);
    }
  }

  lemma Reciprocal(x: real, y: real)
    requires 0.0 < x <= y
    ensures 1.0 / x >= 1.0 / y > 0.0 && (x < y ==> 1.0 / x > 1.0 / y)
  {
    assert 1.0 / x == y / (x * y) && 1.0 / y == x / (x * y);
  }

  lemma ReachesMore(store: Lookup, signals: seq<Signal>, s: Signal, owner: Owner, k: nat)
    ensures Reaches(store, signals + [s], k, owner)
            <==> Reaches(store, signals, k, owner)
                 || (k == |signals| && s.chunk in store.chunks && OwnerOf(store, s.chunk) == owner)
  {
  }

  /** An owner has an accumulator exactly if it had one or a live signal reaches it. */
  lemma {:induction false} OwnersAreReached(
    store: Lookup, acc: Accumulators, side: Side, signals: seq<Signal>, constant: nat, owner: Owner)
    requires constant > 0
    ensures owner in ObserveAll(store, acc, side, signals, constant).of
       <==> owner in acc.of || Reached(store, signals, owner)
  {
    if signals != [] {
      var init, s := signals[..|signals| - 1], signals[|signals| - 1];
      OwnersAreReached(store, acc, side, init, constant, owner);
      ReachedMore(store, init, s, owner);
      assert init + [s] == signals;
    }
  }

  lemma ReachedMore(store: Lookup, signals: seq<Signal>, s: Signal, owner: Owner)
    ensures Reached(store, signals + [s], owner)
       <==> Reached(store, signals, owner) || (s.chunk in store.chunks && OwnerOf(store, s.chunk) == owner)
  {
    if Reached(store, signals, owner) {
      var k: nat :| Reaches(store, signals, k, owner);
      assert Reaches(store, signals + [s], k, owner);
    }
    if s.chunk in store.chunks && OwnerOf(store, s.chunk) == owner {
      assert Reaches(store, signals + [s], |signals|, owner);
    }
    if Reached(store, signals + [s], owner) {
      var k: nat :| Reaches(store, signals + [s], k, owner);
      ReachesMore(store, signals, s, owner, k);
    }
  }

  /** Each loop leaves the other side's figures, and a side that starts at zero ends at its best. */
  lemma {:induction false} BestIsComputed(
    store: Lookup, acc: Accumulators, side: Side, signals: seq<Signal>, constant: nat, owner: Owner)
    requires constant > 0 && Best(acc, owner, side) == 0.0
    ensures var r := ObserveAll(store, acc, side, signals, constant);
            IsBest(store, signals, owner, constant, Best(r, owner, side))
    ensures var r, other := ObserveAll(store, acc, side, signals, constant), if side == Vector then Bm25 else Vector;
            Best(r, owner, other) == Best(acc, owner, other)
  {
    if signals == [] {
      assert !Reached(store, signals, owner);
    } else {
      var init, s := signals[..|signals| - 1], signals[|signals| - 1];
      BestIsComputed(store, acc, side, init, constant, owner);
      var before := ObserveAll(store, acc, side, init, constant);
      assert init + [s] == signals;
      BestMore(store, init, s, owner, constant, Best(before, owner, side));
    }
  }

  lemma BestMore(store: Lookup, signals: seq<Signal>, s: Signal, owner: Owner, constant: nat, best: real)
    requires constant > 0 && IsBest(store, signals, owner, constant, best)
    ensures var live := s.chunk in store.chunks && OwnerOf(store, s.chunk) == owner;
            IsBest(store, signals + [s], owner, constant, if live then MaxReal(best, Rrf(s.rank, constant)) else best)
  {
    var more := signals + [s];
    var live := s.chunk in store.chunks && OwnerOf(store, s.chunk) == owner;
    ReachedMore(store, signals, s, owner);
    forall k: nat
      ensures Reaches(store, more, k, owner) <==> Reaches(store, signals, k, owner) || (k == |signals| && live) {
      ReachesMore(store, signals, s, owner, k);
    }
    if Reached(store, signals, owner) {
      var k: nat :| LeastRank(store, signals, owner, k) && best == Rrf(signals[k].rank, constant);
      RrfOrder(s.rank, signals[k].rank, constant);
      RrfOrder(signals[k].rank, s.rank, constant);
      if live && s.rank <= signals[k].rank {
        assert LeastRank(store, more, owner, |signals|);
      } else {
        assert LeastRank(store, more, owner, k);
      }
    } else if live {
      RrfOrder(s.rank, s.rank, constant);
      assert LeastRank(store, more, owner, |signals|);
    }
  }

  /** The evidence is what was there and the distinct chunks of the signals that reach the owner. */
  lemma {:induction false} EvidenceIsComputed(
    store: Lookup, acc: Accumulators, side: Side, signals: seq<Signal>, constant: nat, owner: Owner, c: nat)
    requires constant > 0 && NoDuplicates(Evidence(acc, owner))
    ensures var e := Evidence(ObserveAll(store, acc, side, signals, constant), owner);
            && NoDuplicates(e)
            && (c in e <==> c in Evidence(acc, owner) || Shown(store, signals, owner, c))
  {
    if signals != [] {
      var init, s := signals[..|signals| - 1], signals[|signals| - 1];
      EvidenceIsComputed(store, acc, side, init, constant, owner, c);
      assert init + [s] == signals;
      ShownMore(store, init, s, owner, c);
    }
  }

  lemma ShownMore(store: Lookup, signals: seq<Signal>, s: Signal, owner: Owner, c: nat)
    ensures Shown(store, signals + [s], owner, c)
       <==> Shown(store, signals, owner, c) || (s.chunk == c && c in store.chunks && OwnerOf(store, c) == owner)
  {
    var more := signals + [s];
    if Shown(store, signals, owner, c) {
      var k: nat :| Reaches(store, signals, k, owner) && signals[k].chunk == c;
      assert Reaches(store, more, k, owner) && more[k].chunk == c;
    }
    if s.chunk == c && c in store.chunks && OwnerOf(store, c) == owner {
      assert Reaches(store, more, |signals|, owner) && more[|signals|].chunk == c;
    }
  }

  // ---- The ranking ----

  /** The score of an owner, from its least ranks and its evidence. */
  ghost predicate IsScore(
    store: Lookup, vector: seq<Signal>, bm25: seq<Signal>, settings: Settings, owner: Owner, score: real)
    requires settings.constant > 0
  {
    exists v, b, e :: IsScoreOf(store, vector, bm25, settings, owner, score, v, b, e)
  }

  ghost predicate IsScoreOf(store: Lookup, vector: seq<Signal>, bm25: seq<Signal>, settings: Settings, owner: Owner,
                            score: real, v: real, b: real, evidence: seq<nat>)
    requires settings.constant > 0
  {
    && IsBest(store, vector, owner, settings.constant, v) && IsBest(store, bm25, owner, settings.constant, b)
    && IsEvidence(store, vector, bm25, owner, evidence)
    && score == Weighed(settings, v, b, |evidence|)
  }

  lemma GatheredFigures(store: Lookup, vector: seq<Signal>, bm25: seq<Signal>, constant: nat, owner: Owner)
    requires constant > 0
    ensures var acc := Gather(store, vector, bm25, constant);
            && IsBest(store, vector, owner, constant, Best(acc, owner, Vector))
            && IsBest(store, bm25, owner, constant, Best(acc, owner, Bm25))
            && IsEvidence(store, vector, bm25, owner, Evidence(acc, owner))
  {
    var first := ObserveAll(store, NONE, Vector, vector, constant);
    BestIsComputed(store, NONE, Vector, vector, constant, owner);
    BestIsComputed(store, first, Bm25, bm25, constant, owner);
    EvidenceIsComputed(store, NONE, Vector, vector, constant, owner, 0);
    forall c: nat ensures
      var e := Evidence(Gather(store, vector, bm25, constant), owner);
      NoDuplicates(e) && (c in e <==> Shown(store, vector, owner, c) || Shown(store, bm25, owner, c))
    {
      EvidenceIsComputed(store, NONE, Vector, vector, constant, owner, c);
      EvidenceIsComputed(store, first, Bm25, bm25, constant, owner, c);
    }
  }

  /** Exactly one candidate for each owner that a live signal of either list reaches. */
  lemma OneCandidatePerOwner(store: Lookup, vector: seq<Signal>, bm25: seq<Signal>, constant: nat)
    requires constant > 0
    ensures var acc := Gather(store, vector, bm25, constant);
            && Owned(acc)
            && forall o: Owner :: o in acc.order <==> Reached(store, vector, o) || Reached(store, bm25, o)
  {
    var first := ObserveAll(store, NONE, Vector, vector, constant);
    GatheringOwns(store, NONE, Vector, vector, constant);
    GatheringOwns(store, first, Bm25, bm25, constant);
    forall o: Owner ensures
      o in Gather(store, vector, bm25, constant).of <==> Reached(store, vector, o) || Reached(store, bm25, o)
    {
      OwnersAreReached(store, NONE, Vector, vector, constant, o);
      OwnersAreReached(store, first, Bm25, bm25, constant, o);
    }
  }

  /** Each candidate's score is the declared one. */
  lemma CandidateScores(store: Lookup, vector: seq<Signal>, bm25: seq<Signal>, settings: Settings, k: nat)
    requires settings.constant > 0 && Owned(Gather(store, vector, bm25, settings.constant))
    requires k < |Gather(store, vector, bm25, settings.constant).order|
    ensures var c := Candidates(Gather(store, vector, bm25, settings.constant), settings)[k];
            IsScore(store, vector, bm25, settings, c.owner, c.score)
  {
    var acc := Gather(store, vector, bm25, settings.constant);
    var o := acc.order[k];
    GatheredFigures(store, vector, bm25, settings.constant, o);
    assert IsScoreOf(store, vector, bm25, settings, o, Score(acc.of[o], settings),
                     Best(acc, o, Vector), Best(acc, o, Bm25), Evidence(acc, o));
  }

  // ---- Sorting ----

  ghost predicate Descending(cs: seq<Candidate>) { forall i, j :: 0 <= i < j < |cs| ==> cs[i].score >= cs[j].score }

  lemma {:induction false} PlacedMembers(ranked: seq<Candidate>, c: Candidate)
    ensures multiset(Place(ranked, c)) == multiset(ranked) + multiset{c}
  {
    if ranked != [] && ranked[|ranked| - 1].score < c.score {
      var init, last := ranked[..|ranked| - 1], ranked[|ranked| - 1];
      PlacedMembers(init, c);
      assert ranked == init + [last];
    }
  }

  predicate AllAtLeast(cs: seq<Candidate>, score: real) { forall i :: 0 <= i < |cs| ==> cs[i].score >= score }

  lemma {:induction false} PlacedDescends(ranked: seq<Candidate>, c: Candidate, least: real)
    requires Descending(ranked) && AllAtLeast(ranked, least) && c.score >= least
    ensures Descending(Place(ranked, c)) && AllAtLeast(Place(ranked, c), least)
  {
    if ranked != [] && ranked[|ranked| - 1].score < c.score {
      PlacedDescends(ranked[..|ranked| - 1], c, ranked[|ranked| - 1].score);
    }
  }

  lemma Placed(ranked: seq<Candidate>, c: Candidate)
    requires Descending(ranked)
    ensures Descending(Place(ranked, c)) && multiset(Place(ranked, c)) == multiset(ranked) + multiset{c}
  {
    PlacedMembers(ranked, c);
    PlacedDescends(ranked, c, if ranked == [] then c.score else -MaxReal(-c.score, -ranked[|ranked| - 1].score));
  }

  /** The result is the candidates, best first. */
  lemma {:induction false} RankedIsSorted(cs: seq<Candidate>)
    ensures Descending(Ranked(cs)) && multiset(Ranked(cs)) == multiset(cs)
  {
    if cs != [] {
      var init, last := cs[..|cs| - 1], cs[|cs| - 1];
      RankedIsSorted(init);
      Placed(Ranked(init), last);
      assert cs == init + [last];
    }
  }

  /** Candidates with equal scores keep the order in which their owners were first seen. */
  lemma {:induction false} RankedIsStable(cs: seq<Candidate>, score: real)
    ensures WithScore(Ranked(cs), score) == WithScore(cs, score)
  {
    if cs != [] {
      var init, last := cs[..|cs| - 1], cs[|cs| - 1];
      RankedIsStable(init, score);
      RankedIsSorted(init);
      PlacedIsStable(Ranked(init), last, score);
    }
  }

  function WithScore(cs: seq<Candidate>, score: real): seq<Candidate> {
    if cs == [] then []
    else WithScore(cs[..|cs| - 1], score) + if cs[|cs| - 1].score == score then [cs[|cs| - 1]] else []
  }

  lemma {:induction false} PlacedIsStable(ranked: seq<Candidate>, c: Candidate, score: real)
    requires Descending(ranked)
    ensures WithScore(Place(ranked, c), score) == WithScore(ranked, score) + if c.score == score then [c] else []
  {
    var placed := Place(ranked, c);
    if ranked != [] && ranked[|ranked| - 1].score < c.score {
      var init, last := ranked[..|ranked| - 1], ranked[|ranked| - 1];
      PlacedIsStable(init, c, score);
      assert placed[..|placed| - 1] == Place(init, c);
    } else {
      assert placed[..|placed| - 1] == ranked;
    }
  }

  // ---- The order of the signals ----

  lemma FoundAgain(a: seq<Signal>, b: seq<Signal>, k: nat) returns (j: nat)
    requires multiset(a) == multiset(b) && k < |a|
    ensures j < |b| && b[j] == a[k]
  {
    assert a[k] in multiset(a);
    assert a[k] in b;
    j :| 0 <= j < |b| && b[j] == a[k];
  }

  lemma BestIgnoresOrder(store: Lookup, a: seq<Signal>, b: seq<Signal>, owner: Owner, constant: nat, x: real, y: real)
    requires constant > 0 && multiset(a) == multiset(b)
    requires IsBest(store, a, owner, constant, x) && IsBest(store, b, owner, constant, y)
    ensures x == y
  {
    ReachedIgnoresOrder(store, a, b, owner);
    ReachedIgnoresOrder(store, b, a, owner);
    if Reached(store, a, owner) {
      var i: nat :| LeastRank(store, a, owner, i) && x == Rrf(a[i].rank, constant);
      var j: nat :| LeastRank(store, b, owner, j) && y == Rrf(b[j].rank, constant);
      var i' := FoundAgain(a, b, i);
      var j' := FoundAgain(b, a, j);
      assert Reaches(store, b, i', owner) && Reaches(store, a, j', owner);
      assert a[i].rank == b[j].rank;
    }
  }

  lemma ReachedIgnoresOrder(store: Lookup, a: seq<Signal>, b: seq<Signal>, owner: Owner)
    requires multiset(a) == multiset(b)
    ensures Reached(store, a, owner) ==> Reached(store, b, owner)
  {
    if Reached(store, a, owner) {
      var k: nat :| Reaches(store, a, k, owner);
      var j := FoundAgain(a, b, k);
      assert Reaches(store, b, j, owner);
    }
  }

  lemma ShownIgnoresOrder(store: Lookup, a: seq<Signal>, b: seq<Signal>, owner: Owner, c: nat)
    requires multiset(a) == multiset(b)
    ensures Shown(store, a, owner, c) ==> Shown(store, b, owner, c)
  {
    if Shown(store, a, owner, c) {
      var k: nat :| Reaches(store, a, k, owner) && a[k].chunk == c;
      var j := FoundAgain(a, b, k);
      assert Reaches(store, b, j, owner) && b[j].chunk == c;
    }
  }

  lemma EvidenceIgnoresOrder(
    store: Lookup, vector: seq<Signal>, bm25: seq<Signal>, vector': seq<Signal>, bm25': seq<Signal>, owner: Owner,
    e: seq<nat>, e': seq<nat>)
    requires multiset(vector) == multiset(vector') && multiset(bm25) == multiset(bm25')
    requires IsEvidence(store, vector, bm25, owner, e) && IsEvidence(store, vector', bm25', owner, e')
    ensures |e| == |e'| && forall c: nat :: c in e <==> c in e'
  {
    forall c: nat ensures c in e <==> c in e' {
      ShownIgnoresOrder(store, vector, vector', owner, c);
      ShownIgnoresOrder(store, vector', vector, owner, c);
      ShownIgnoresOrder(store, bm25, bm25', owner, c);
      ShownIgnoresOrder(store, bm25', bm25, owner, c);
    }
    SameSize(e, e');
  }

  /** An owner's score does not depend on the order of either signal list. */
  lemma ScoresIgnoreOrder(
    store: Lookup, vector: seq<Signal>, bm25: seq<Signal>, vector': seq<Signal>, bm25': seq<Signal>, settings: Settings,
    owner: Owner, score: real, score': real)
    requires settings.constant > 0 && multiset(vector) == multiset(vector') && multiset(bm25) == multiset(bm25')
    requires IsScore(store, vector, bm25, settings, owner, score)
             && IsScore(store, vector', bm25', settings, owner, score')
    ensures score == score'
  {
    var v, b, e :| IsScoreOf(store, vector, bm25, settings, owner, score, v, b, e);
    var v', b', e' :| IsScoreOf(store, vector', bm25', settings, owner, score', v', b', e');
    BestIgnoresOrder(store, vector, vector', owner, settings.constant, v, v');
    BestIgnoresOrder(store, bm25, bm25', owner, settings.constant, b, b');
    EvidenceIgnoresOrder(store, vector, bm25, vector', bm25', owner, e, e');
  }

  // ---- The raw scores ----

  function RunningScore(scores: seq<real>): Option<real> {
    if scores == [] then None else Some(Better(RunningScore(scores[..|scores| - 1]), scores[|scores| - 1]))
  }

  ghost predicate IsMaximum(x: real, scores: seq<real>) { x in scores && forall s <- scores :: s <= x }

  /** What the fold returns: one of the scores; the greatest if none is zero or some are positive; and zero, when none
      is positive, exactly if the last one is. */
  lemma {:induction false} RunningScoreShape(scores: seq<real>)
    requires scores != []
    ensures RunningScore(scores).Some?
    ensures var r := RunningScore(scores).value;
      && r in scores && (0.0 !in scores || r > 0.0 ==> IsMaximum(r, scores))
      && (r > 0.0 <==> exists s <- scores :: s > 0.0)
      && (r <= 0.0 ==> (r == 0.0 <==> scores[|scores| - 1] == 0.0))
  {
    var init, last := scores[..|scores| - 1], scores[|scores| - 1];
    assert forall s <- init :: s in scores;
    assert forall s <- scores :: s in init || s == last;
    if init != [] {
      RunningScoreShape(init);
    }
  }

  /** No score is zero, or some are positive, or the last is zero. */
  predicate Unmixed(scores: seq<real>)
    requires scores != []
  {
    0.0 !in scores || (exists s <- scores :: s > 0.0) || scores[|scores| - 1] == 0.0
  }

  /** It is the greatest score under exactly that condition. */
  lemma RunningScoreIsMaximumIff(scores: seq<real>)
    requires scores != []
    ensures RunningScore(scores).Some? && (IsMaximum(RunningScore(scores).value, scores) <==> Unmixed(scores))
  {
    RunningScoreShape(scores);
    var r := RunningScore(scores).value;
    if r <= 0.0 && 0.0 in scores && scores[|scores| - 1] == 0.0 {
      forall s <- scores ensures s <= 0.0 {}
    }
  }

  /** The scores of the signals that reach the owner, in order. */
  function ScoresOf(store: Lookup, signals: seq<Signal>, owner: Owner): seq<real> {
    if signals == [] then []
    else
      var s := signals[|signals| - 1];
      ScoresOf(store, signals[..|signals| - 1], owner)
      + if s.chunk in store.chunks && OwnerOf(store, s.chunk) == owner then [s.score] else []
  }

  function SideScore(acc: Accumulators, owner: Owner, side: Side): Option<real> {
    if owner !in acc.of then None else if side == Vector then acc.of[owner].vectorScore else acc.of[owner].bm25Score
  }

  lemma RunningMore(scores: seq<real>, score: real, whole: seq<real>)
    requires whole == scores + [score]
    ensures RunningScore(whole) == Some(Better(RunningScore(scores), score))
  {
    assert whole[..|scores|] == scores;
  }

  predicate Live(store: Lookup, s: Signal, owner: Owner) {
    s.chunk in store.chunks && OwnerOf(store, s.chunk) == owner
  }

  lemma ObservedScore(store: Lookup, acc: Accumulators, side: Side, s: Signal, constant: nat, owner: Owner)
    requires constant > 0
    ensures SideScore(Observe(store, acc, side, s, constant), owner, side)
         == if Live(store, s, owner) then Some(Better(SideScore(acc, owner, side), s.score))
            else SideScore(acc, owner, side)
  {
  }

  /** A side's reported score is folded from the scores of the signals that reach the owner. */
  lemma {:induction false} SideScoreIsRunning(
    store: Lookup, acc: Accumulators, side: Side, signals: seq<Signal>, constant: nat, owner: Owner)
    requires constant > 0 && SideScore(acc, owner, side) == None
    ensures var r := ObserveAll(store, acc, side, signals, constant);
            SideScore(r, owner, side) == RunningScore(ScoresOf(store, signals, owner))
  {
    if signals != [] {
      var init, s := signals[..|signals| - 1], signals[|signals| - 1];
      SideScoreIsRunning(store, acc, side, init, constant, owner);
      ObservedScore(store, ObserveAll(store, acc, side, init, constant), side, s, constant, owner);
      if Live(store, s, owner) {
        RunningMore(ScoresOf(store, init, owner), s.score, ScoresOf(store, signals, owner));
      } else {
        assert ScoresOf(store, signals, owner) == ScoresOf(store, init, owner);
      }
    }
  }

  lemma {:induction false} OtherSideStays(
    store: Lookup, acc: Accumulators, side: Side, signals: seq<Signal>, constant: nat, owner: Owner, other: Side)
    requires constant > 0 && other != side
    ensures SideScore(ObserveAll(store, acc, side, signals, constant), owner, other) == SideScore(acc, owner, other)
  {
    if signals != [] {
      OtherSideStays(store, acc, side, signals[..|signals| - 1], constant, owner, other);
    }
  }

  function Reported(c: Candidate, side: Side): Option<real> {
    if side == Vector then c.vectorScore else c.bm25Score
  }

  function OfSide(vector: seq<Signal>, bm25: seq<Signal>, side: Side): seq<Signal> {
    if side == Vector then vector else bm25
  }

  lemma ReportedIsRunning(
    store: Lookup, vector: seq<Signal>, bm25: seq<Signal>, settings: Settings, k: nat, side: Side)
    requires settings.constant > 0 && Owned(Gather(store, vector, bm25, settings.constant))
    requires k < |Gather(store, vector, bm25, settings.constant).order|
    ensures var c := Candidates(Gather(store, vector, bm25, settings.constant), settings)[k];
            Reported(c, side) == RunningScore(ScoresOf(store, OfSide(vector, bm25, side), c.owner))
  {
    var owner := Gather(store, vector, bm25, settings.constant).order[k];
    var seen := ObserveAll(store, NONE, Vector, vector, settings.constant);
    SideScoreIsRunning(store, NONE, Vector, vector, settings.constant, owner);
    OtherSideStays(store, NONE, Vector, vector, settings.constant, owner, Bm25);
    OtherSideStays(store, seen, Bm25, bm25, settings.constant, owner, Vector);
    SideScoreIsRunning(store, seen, Bm25, bm25, settings.constant, owner);
  }

  /** A candidate's reported score of a side is the greatest of the scores of the signals that reach it exactly when
      none of them is zero, or some are positive, or the last is zero; without signals there is none. */
  lemma ReportedScoreIsMaximumIff(
    store: Lookup, vector: seq<Signal>, bm25: seq<Signal>, settings: Settings, k: nat, side: Side)
    requires settings.constant > 0 && Owned(Gather(store, vector, bm25, settings.constant))
    requires k < |Gather(store, vector, bm25, settings.constant).order|
    ensures var c := Candidates(Gather(store, vector, bm25, settings.constant), settings)[k];
            var r, scores := Reported(c, side), ScoresOf(store, OfSide(vector, bm25, side), c.owner);
            if scores == [] then r == None else r.Some? && (IsMaximum(r.value, scores) <==> Unmixed(scores))
  {
    ReportedIsRunning(store, vector, bm25, settings, k, side);
    var owner := Gather(store, vector, bm25, settings.constant).order[k];
    var scores := ScoresOf(store, OfSide(vector, bm25, side), owner);
    if scores != [] {
      RunningScoreIsMaximumIff(scores);
    }
  }

  // ---- An input on which it is not ----

  const FAMILY := Lookup(map[1 := ChunkInfo(Some(7), Card("d", "", 0, "a")),
                             2 := ChunkInfo(Some(7), Card("d", "", 1, "b"))],
                         map[7 := Card("d", "", 0, "a b")])

  function Outcome(signals: seq<Signal>, settings: Settings): seq<Candidate>
    requires settings.constant > 0 && Owned(Gather(FAMILY, signals, [], settings.constant))
  {
    Ranked(Candidates(Gather(FAMILY, signals, [], settings.constant), settings))
  }

  lemma ObserveMore(
    store: Lookup, acc: Accumulators, side: Side, init: seq<Signal>, last: Signal, whole: seq<Signal>, constant: nat)
    requires constant > 0 && whole == init + [last]
    ensures ObserveAll(store, acc, side, whole, constant)
         == Observe(store, ObserveAll(store, acc, side, init, constant), side, last, constant)
  {
    assert whole[..|init|] == init;
  }

  lemma FirstOfFamily(s: Signal, constant: nat)
    requires constant > 0 && s.chunk in {1, 2}
    ensures var acc := Observe(FAMILY, NONE, Vector, s, constant);
            && acc.order == [Parent(7)] && acc.of.Keys == {Parent(7)} && acc.of[Parent(7)].vectorScore == Some(s.score)
  {
    assert OwnerOf(FAMILY, s.chunk) == Parent(7);
  }

  lemma NextOfFamily(acc: Accumulators, s: Signal, constant: nat)
    requires constant > 0 && s.chunk in {1, 2} && acc.order == [Parent(7)] && acc.of.Keys == {Parent(7)}
    ensures var more := Observe(FAMILY, acc, Vector, s, constant);
            && more.order == [Parent(7)] && more.of.Keys == {Parent(7)}
            && more.of[Parent(7)].vectorScore == Some(Better(acc.of[Parent(7)].vectorScore, s.score))
  {
    assert OwnerOf(FAMILY, s.chunk) == Parent(7);
  }

  lemma OneCandidate(acc: Accumulators, settings: Settings, owner: Owner)
    requires acc.order == [owner] && acc.of.Keys == {owner}
    ensures Owned(acc) && Ranked(Candidates(acc, settings)) == [CandidateOf(owner, acc.of[owner], settings)]
  {
    var cs := Candidates(acc, settings);
    assert cs == [cs[0]] && cs[..0] == [];
  }

  lemma TwoSignals(x: Signal, y: Signal, signals: seq<Signal>, settings: Settings)
    requires settings.constant > 0 && x.chunk in {1, 2} && y.chunk in {1, 2} && signals == [x, y]
    ensures Owned(Gather(FAMILY, signals, [], settings.constant))
    ensures var r := Outcome(signals, settings); |r| == 1 && r[0].vectorScore == Some(Better(Some(x.score), y.score))
  {
    var constant, none := settings.constant, signals[..0];
    ObserveMore(FAMILY, NONE, Vector, none, x, [x], constant);
    ObserveMore(FAMILY, NONE, Vector, [x], y, signals, constant);
    FirstOfFamily(x, constant);
    NextOfFamily(Observe(FAMILY, NONE, Vector, x, constant), y, constant);
    OneCandidate(Gather(FAMILY, signals, [], constant), settings, Parent(7));
  }

  /** A parent whose two children score 0 and -1 is reported with -1 or with 0, depending on their order. */
  lemma ReportedScoreDependsOnOrder(settings: Settings)
    requires settings.constant > 0
    ensures Owned(Gather(FAMILY, [Signal(1, 0.0, 1), Signal(2, -1.0, 2)], [], settings.constant))
    ensures Owned(Gather(FAMILY, [Signal(2, -1.0, 2), Signal(1, 0.0, 1)], [], settings.constant))
    ensures var r := Outcome([Signal(1, 0.0, 1), Signal(2, -1.0, 2)], settings);
            |r| == 1 && r[0].vectorScore == Some(-1.0)
    ensures var r := Outcome([Signal(2, -1.0, 2), Signal(1, 0.0, 1)], settings);
            |r| == 1 && r[0].vectorScore == Some(0.0)
  {
    var x, y := Signal(1, 0.0, 1), Signal(2, -1.0, 2);
    TwoSignals(x, y, [x, y], settings);
    TwoSignals(y, x, [y, x], settings);
  }
}
