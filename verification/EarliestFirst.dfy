/** Selecting the first elements of a list by time: what ORDER BY a time and LIMIT may return, and when it is bound to
    return the first by position. */
module EarliestFirst {
  import opened Common

  // ---- Picking the first by time ----

  /** These are first by time among u, in order of time, and no more than the limit. */
  ghost predicate Picks<K>(u: seq<K>, time: K -> int, limit: nat, keys: seq<K>) {
    && NoDuplicates(keys) && |keys| <= limit && (forall k <- keys :: k in u) && Rising(keys, time)
    && forall k <- u :: k !in keys ==> |keys| == limit && forall j <- keys :: time(j) <= time(k)
  }

  predicate Rising<K>(keys: seq<K>, time: K -> int) {
    forall i, j :: 0 <= i < j < |keys| ==> time(keys[i]) <= time(keys[j])
  }

  /** Each of the first ones is earlier than all that come after it. */
  predicate InTime<K>(u: seq<K>, time: K -> int, limit: nat) {
    forall i, j :: 0 <= i < j < |u| && i < limit ==> time(u[i]) < time(u[j])
  }

  predicate SameUpTo<K(==)>(a: seq<K>, b: seq<K>, k: nat) {
    k <= |a| && k <= |b| && forall n :: 0 <= n < k ==> a[n] == b[n]
  }

  /** The earliest of those left cannot be passed over. */
  lemma PassedOver<K>(u: seq<K>, time: K -> int, limit: nat, keys: seq<K>, k: nat, m: nat)
    requires NoDuplicates(u) && InTime(u, time, limit) && SameUpTo(keys, u, k)
    requires k < |keys| <= limit && k < m < |u| && keys[k] == u[m]
    ensures !Picks(u, time, limit, keys)
  {
    assert time(u[k]) < time(u[m]);
    if u[k] in keys {
      var n :| 0 <= n < |keys| && keys[n] == u[k];
      assert n > k;
    } else {
      assert u[k] in u;
    }
  }

  lemma Located<K>(u: seq<K>, key: K) returns (m: nat)
    requires key in u
    ensures m < |u| && u[m] == key
  {
    m :| m < |u| && u[m] == key;
  }

  /** The next one picked is the next one inserted. */
  lemma NextPicked<K>(u: seq<K>, time: K -> int, limit: nat, keys: seq<K>, k: nat)
    requires NoDuplicates(u) && InTime(u, time, limit) && Picks(u, time, limit, keys)
    requires k < |keys| && SameUpTo(keys, u, k) && keys[k] in u
    ensures SameUpTo(keys, u, k + 1)
  {
    var m := Located(u, keys[k]);
    if m > k {
      PassedOver(u, time, limit, keys, k, m);
    }
  }

  lemma {:induction false} PickedInOrder<K>(u: seq<K>, time: K -> int, limit: nat, keys: seq<K>, k: nat)
    requires NoDuplicates(u) && InTime(u, time, limit) && Picks(u, time, limit, keys) && k <= |keys|
    ensures SameUpTo(keys, u, k)
  {
    if k > 0 {
      PickedInOrder(u, time, limit, keys, k - 1);
      NextPicked(u, time, limit, keys, k - 1);
    }
  }

  lemma InTimeForces<K>(u: seq<K>, time: K -> int, limit: nat, keys: seq<K>)
    requires NoDuplicates(u) && InTime(u, time, limit) && Picks(u, time, limit, keys)
    ensures keys == Take(u, limit)
  {
    var n := |keys|;
    PickedInOrder(u, time, limit, keys, n);
    if n < |u| {
      assert forall i :: 0 <= i < n ==> keys[i] == u[i] && u[i] != u[n];
      assert u[n] in u && u[n] !in keys;
    }
  }

  // ---- Otherwise something else can be picked ----

  /** Into its place by time, behind those of the same time. */
  function Put<K>(sorted: seq<K>, key: K, time: K -> int): seq<K> {
    if sorted == [] || time(sorted[|sorted| - 1]) <= time(key) then sorted + [key]
    else Put(sorted[..|sorted| - 1], key, time) + [sorted[|sorted| - 1]]
  }

  function Sorted<K>(u: seq<K>, time: K -> int): seq<K> {
    if u == [] then [] else Put(Sorted(u[..|u| - 1], time), u[|u| - 1], time)
  }

  predicate Precedes<K(==)>(s: seq<K>, a: K, b: K) { exists i, j :: 0 <= i < j < |s| && s[i] == a && s[j] == b }

  lemma PrecedesMore<K>(s: seq<K>, x: K, a: K, b: K)
    ensures Precedes(s, a, b) ==> Precedes(s + [x], a, b)
    ensures a in s ==> Precedes(s + [x], a, x)
  {
    var more := s + [x];
    if Precedes(s, a, b) {
      var i, j :| 0 <= i < j < |s| && s[i] == a && s[j] == b;
      assert more[i] == a && more[j] == b;
    }
    if a in s {
      var i :| 0 <= i < |s| && s[i] == a;
      assert more[i] == a && more[|s|] == x;
    }
  }

  lemma Snoc<K>(s: seq<K>, x: K, k: K)
    ensures k in s + [x] <==> k in s || k == x
  {
  }

  lemma Unsnoc<K>(s: seq<K>, k: K)
    requires s != []
    ensures k in s <==> k in s[..|s| - 1] || k == s[|s| - 1]
  {
    Snoc(s[..|s| - 1], s[|s| - 1], k);
    assert s == s[..|s| - 1] + [s[|s| - 1]];
  }

  /** Putting stops here. */
  predicate Fits<K>(sorted: seq<K>, key: K, time: K -> int) { sorted == [] || time(sorted[|sorted| - 1]) <= time(key) }

  lemma {:induction false} PutMember<K>(sorted: seq<K>, key: K, time: K -> int, k: K)
    ensures |Put(sorted, key, time)| == |sorted| + 1 && (k in Put(sorted, key, time) <==> k in sorted || k == key)
  {
    if Fits(sorted, key, time) {
      Snoc(sorted, key, k);
    } else {
      var init, last := sorted[..|sorted| - 1], sorted[|sorted| - 1];
      PutMember(init, key, time, k);
      Snoc(Put(init, key, time), last, k);
      Unsnoc(sorted, k);
    }
  }

  lemma DistinctMore<K>(s: seq<K>, x: K)
    requires NoDuplicates(s) && x !in s
    ensures NoDuplicates(s + [x])
  {
  }

  lemma {:induction false} PutDistinct<K>(sorted: seq<K>, key: K, time: K -> int)
    requires NoDuplicates(sorted) && key !in sorted
    ensures NoDuplicates(Put(sorted, key, time))
  {
    if Fits(sorted, key, time) {
      DistinctMore(sorted, key);
    } else {
      var init, last := sorted[..|sorted| - 1], sorted[|sorted| - 1];
      Unsnoc(sorted, key);
      PutDistinct(init, key, time);
      PutMember(init, key, time, last);
      DistinctMore(Put(init, key, time), last);
    }
  }

  predicate AtMost<K>(keys: seq<K>, time: K -> int, most: int) { forall i :: 0 <= i < |keys| ==> time(keys[i]) <= most }

  lemma RisingMore<K>(s: seq<K>, x: K, time: K -> int)
    requires Rising(s, time) && AtMost(s, time, time(x))
    ensures Rising(s + [x], time)
  {
  }

  lemma {:induction false} PutRises<K>(sorted: seq<K>, key: K, time: K -> int, most: int)
    requires Rising(sorted, time) && AtMost(sorted, time, most) && time(key) <= most
    ensures Rising(Put(sorted, key, time), time) && AtMost(Put(sorted, key, time), time, most)
  {
    if Fits(sorted, key, time) {
      RisingMore(sorted, key, time);
    } else {
      var init, last := sorted[..|sorted| - 1], sorted[|sorted| - 1];
      PutRises(init, key, time, time(last));
      RisingMore(Put(init, key, time), last, time);
    }
  }

  lemma {:induction false} PutKeepsOrder<K>(sorted: seq<K>, key: K, time: K -> int, a: K, b: K)
    requires Precedes(sorted, a, b)
    ensures Precedes(Put(sorted, key, time), a, b)
  {
    if Fits(sorted, key, time) {
      PrecedesMore(sorted, key, a, b);
    } else {
      var init, last := sorted[..|sorted| - 1], sorted[|sorted| - 1];
      var i, j :| 0 <= i < j < |sorted| && sorted[i] == a && sorted[j] == b;
      if j < |init| {
        assert init[i] == a && init[j] == b;
        PutKeepsOrder(init, key, time, a, b);
        PrecedesMore(Put(init, key, time), last, a, b);
      } else {
        assert init[i] == a;
        PutMember(init, key, time, a);
        PrecedesMore(Put(init, key, time), last, a, b);
      }
    }
  }

  lemma {:induction false} PutBehind<K>(sorted: seq<K>, key: K, time: K -> int, a: K)
    requires a in sorted && time(a) <= time(key)
    ensures Precedes(Put(sorted, key, time), a, key)
  {
    if Fits(sorted, key, time) {
      PrecedesMore(sorted, key, a, key);
    } else {
      var init, last := sorted[..|sorted| - 1], sorted[|sorted| - 1];
      Unsnoc(sorted, a);
      PutBehind(init, key, time, a);
      PrecedesMore(Put(init, key, time), last, a, key);
    }
  }

  function Latest<K>(u: seq<K>, time: K -> int): (most: int)
    ensures AtMost(u, time, most)
  {
    if u == [] then 0 else Max(Latest(u[..|u| - 1], time), time(u[|u| - 1]))
  }

  lemma {:induction false} SortedMember<K>(u: seq<K>, time: K -> int, k: K)
    ensures |Sorted(u, time)| == |u| && (k in Sorted(u, time) <==> k in u)
  {
    if u != [] {
      SortedMember(u[..|u| - 1], time, k);
      PutMember(Sorted(u[..|u| - 1], time), u[|u| - 1], time, k);
      Unsnoc(u, k);
    }
  }

  lemma {:induction false} SortedDistinct<K>(u: seq<K>, time: K -> int)
    requires NoDuplicates(u)
    ensures NoDuplicates(Sorted(u, time))
  {
    if u != [] {
      var init, last := u[..|u| - 1], u[|u| - 1];
      SortedDistinct(init, time);
      SortedMember(init, time, last);
      assert last !in init;
      PutDistinct(Sorted(init, time), last, time);
    }
  }

  lemma {:induction false} SortedRises<K>(u: seq<K>, time: K -> int)
    ensures Rising(Sorted(u, time), time)
  {
    if u != [] {
      var v, last := Sorted(u[..|u| - 1], time), u[|u| - 1];
      SortedRises(u[..|u| - 1], time);
      PutRises(v, last, time, Max(Latest(v, time), time(last)));
    }
  }

  lemma {:induction false} SortedKeepsOrder<K>(u: seq<K>, time: K -> int, a: K, b: K)
    requires Precedes(u, a, b) && time(a) <= time(b)
    ensures Precedes(Sorted(u, time), a, b)
  {
    var init, last := u[..|u| - 1], u[|u| - 1];
    var i, j :| 0 <= i < j < |u| && u[i] == a && u[j] == b;
    assert init[i] == a;
    if j < |init| {
      assert init[j] == b;
      SortedKeepsOrder(init, time, a, b);
      PutKeepsOrder(Sorted(init, time), last, time, a, b);
    } else {
      SortedMember(init, time, a);
      PutBehind(Sorted(init, time), last, time, a);
    }
  }

  /** The first of a sorted list of all of u are picked. */
  lemma FirstArePicked<K>(u: seq<K>, time: K -> int, limit: nat, v: seq<K>)
    requires NoDuplicates(v) && Rising(v, time) && forall k :: k in v <==> k in u
    ensures Picks(u, time, limit, Take(v, limit))
  {
    var keys := Take(v, limit);
    forall k | k in keys ensures k in u {
      assert k in v;
    }
    forall k <- u | k !in keys ensures |keys| == limit && forall j <- keys :: time(j) <= time(k) {
      assert k in v;
      var m :| 0 <= m < |v| && v[m] == k;
      assert forall n :: 0 <= n < |keys| ==> keys[n] == v[n];
    }
  }

  /** u with element j moved to the front. */
  function Moved<K>(u: seq<K>, j: nat): seq<K>
    requires j < |u|
  {
    [u[j]] + (u[..j] + u[j + 1..])
  }

  lemma MovedMember<K>(u: seq<K>, j: nat, k: K)
    requires j < |u|
    ensures k in Moved(u, j) <==> k in u
  {
    assert u == u[..j] + [u[j]] + u[j + 1..];
  }

  lemma MovedDistinct<K>(u: seq<K>, j: nat)
    requires j < |u| && NoDuplicates(u)
    ensures NoDuplicates(Moved(u, j))
  {
    var v := Moved(u, j);
    forall a, b | 0 <= a < b < |v| ensures v[a] != v[b] {
      assert v[b] == u[if b <= j then b - 1 else b];
      assert a > 0 ==> v[a] == u[if a <= j then a - 1 else a];
    }
  }

  lemma AnotherPick<K>(u: seq<K>, time: K -> int, limit: nat, i: nat, j: nat) returns (keys: seq<K>)
    requires NoDuplicates(u) && i < j < |u| && i < limit && time(u[j]) <= time(u[i])
    ensures Picks(u, time, limit, keys) && keys != Take(u, limit)
  {
    var w := Moved(u, j);
    var v := Sorted(w, time);
    assert w[0] == u[j] && w[i + 1] == u[i];
    MovedDistinct(u, j);
    SortedDistinct(w, time);
    SortedRises(w, time);
    SortedKeepsOrder(w, time, u[j], u[i]);
    forall k ensures k in v <==> k in u {
      MovedMember(u, j, k);
      SortedMember(w, time, k);
    }
    FirstArePicked(u, time, limit, v);
    SortedMember(w, time, u[j]);
    OutOfPlace(u, v, limit, i, j);
    keys := Take(v, limit);
  }

  lemma OutOfPlace<K>(u: seq<K>, v: seq<K>, limit: nat, i: nat, j: nat)
    requires NoDuplicates(u) && NoDuplicates(v) && i < j < |u| && i < limit && |v| == |u| && Precedes(v, u[j], u[i])
    ensures Take(v, limit) != Take(u, limit)
  {
    var m, n :| 0 <= m < n < |v| && v[m] == u[j] && v[n] == u[i];
    var x, y := Take(v, limit), Take(u, limit);
    assert x[i] == v[i] && y[i] == u[i];
    assert m < i ==> x[m] == v[m] && y[m] == u[m];
  }

  /** The first by insertion are all that can be picked exactly when each is earlier than all that come after it. */
  lemma ForcedIff<K(!new)>(u: seq<K>, time: K -> int, limit: nat)
    requires NoDuplicates(u)
    ensures (forall keys :: Picks(u, time, limit, keys) ==> keys == Take(u, limit)) <==> InTime(u, time, limit)
  {
    if InTime(u, time, limit) {
      forall keys | Picks(u, time, limit, keys) ensures keys == Take(u, limit) {
        InTimeForces(u, time, limit, keys);
      }
    } else {
      var i, j :| 0 <= i < j < |u| && i < limit && time(u[i]) >= time(u[j]);
      var keys := AnotherPick(u, time, limit, i, j);
    }
  }

  // ---- The same for what is picked, in whatever order ----

  /** Each of the first ones is earlier than each that the limit leaves out. */
  predicate Apart<K>(u: seq<K>, time: K -> int, limit: nat) {
    forall i, j :: 0 <= i < limit <= j < |u| ==> time(u[i]) < time(u[j])
  }

  lemma TakenAre<K>(u: seq<K>, limit: nat, k: K)
    ensures k in Take(u, limit) <==> exists i :: 0 <= i < |u| && i < limit && u[i] == k
  {
    var t := Take(u, limit);
    if k in t {
      var i :| 0 <= i < |t| && t[i] == k;
      assert u[i] == k;
    }
    if i :| 0 <= i < |u| && i < limit && u[i] == k {
      assert t[i] == k;
    }
  }

  lemma PicksAreMany<K>(u: seq<K>, time: K -> int, limit: nat, keys: seq<K>)
    requires NoDuplicates(u) && Picks(u, time, limit, keys)
    ensures |keys| == Min(limit, |u|)
  {
    SubsetIsShorter(keys, u);
    if |keys| < |u| && forall k <- u :: k in keys {
      SubsetIsShorter(u, keys);
    }
  }

  /** None of the first can be passed over. */
  lemma FirstIsPicked<K>(u: seq<K>, time: K -> int, limit: nat, keys: seq<K>, i: nat)
    requires NoDuplicates(u) && Apart(u, time, limit) && Picks(u, time, limit, keys) && i < |u| && i < limit
    ensures u[i] in keys
  {
    if u[i] !in keys {
      PicksAreMany(u, time, limit, keys);
      assert u[i] in u;
      TooFew(u, limit, keys, u[i], i);
      var k :| k in keys && k !in Take(u, limit);
      var j := Located(u, k);
      TakenAre(u, limit, k);
    }
  }

  lemma TooFew<K>(u: seq<K>, limit: nat, keys: seq<K>, missing: K, i: nat)
    requires NoDuplicates(keys) && |keys| == limit && i < |u| && i < limit && u[i] == missing && missing !in keys
    ensures exists k <- keys :: k !in Take(u, limit)
  {
    if forall k <- keys :: k in Take(u, limit) {
      assert Take(u, limit)[i] == missing;
      DistinctMore(keys, missing);
      SubsetIsShorter(keys + [missing], Take(u, limit));
    }
  }

  lemma ApartForces<K(!new)>(u: seq<K>, time: K -> int, limit: nat, keys: seq<K>)
    requires NoDuplicates(u) && Apart(u, time, limit) && Picks(u, time, limit, keys)
    ensures SameElements(keys, Take(u, limit))
  {
    var first := Take(u, limit);
    forall k | k in first ensures k in keys {
      var i := Located(first, k);
      FirstIsPicked(u, time, limit, keys, i);
    }
    PicksAreMany(u, time, limit, keys);
    forall k | k in keys ensures k in first {
      if k !in first {
        DistinctMore(first, k);
        SubsetIsShorter(first + [k], keys);
      }
    }
  }

  lemma PicksElsewhere<K(!new)>(u: seq<K>, time: K -> int, limit: nat, i: nat, j: nat) returns (keys: seq<K>)
    requires NoDuplicates(u) && i < limit <= j < |u| && time(u[j]) <= time(u[i])
    ensures Picks(u, time, limit, keys) && !SameElements(keys, Take(u, limit))
  {
    var w := Moved(u, j);
    var v := Sorted(w, time);
    assert w[0] == u[j] && w[i + 1] == u[i];
    MovedDistinct(u, j);
    SortedDistinct(w, time);
    SortedRises(w, time);
    SortedKeepsOrder(w, time, u[j], u[i]);
    forall k ensures k in v <==> k in u {
      MovedMember(u, j, k);
      SortedMember(w, time, k);
    }
    FirstArePicked(u, time, limit, v);
    keys := Take(v, limit);
    SwappedOut(u, v, limit, i, j);
  }

  lemma SwappedOut<K(!new)>(u: seq<K>, v: seq<K>, limit: nat, i: nat, j: nat)
    requires NoDuplicates(u) && NoDuplicates(v) && i < limit <= j < |u| && Precedes(v, u[j], u[i])
    ensures !SameElements(Take(v, limit), Take(u, limit))
  {
    var m, n :| 0 <= m < n < |v| && v[m] == u[j] && v[n] == u[i];
    TakenAre(u, limit, u[i]);
    TakenAre(u, limit, u[j]);
    TakenAre(v, limit, u[i]);
    TakenAre(v, limit, u[j]);
    assert n < limit ==> m < limit;
  }

  /** The first by insertion are all that can be picked, in whatever order, exactly when each of them is earlier than
      each that the limit leaves out. */
  lemma ForcedSetIff<K(!new)>(u: seq<K>, time: K -> int, limit: nat)
    requires NoDuplicates(u)
    ensures (forall keys :: Picks(u, time, limit, keys) ==> SameElements(keys, Take(u, limit)))
            <==> Apart(u, time, limit)
  {
    if Apart(u, time, limit) {
      forall keys | Picks(u, time, limit, keys) ensures SameElements(keys, Take(u, limit)) {
        ApartForces(u, time, limit, keys);
      }
    } else {
      var i, j :| 0 <= i < limit <= j < |u| && time(u[i]) >= time(u[j]);
      var keys := PicksElsewhere(u, time, limit, i, j);
    }
  }
}
