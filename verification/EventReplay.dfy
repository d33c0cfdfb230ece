/** Replaying an event log (app/services/event_stream_service.py): the cursor, what any number of resumed sessions
    deliver while events keep arriving, and the service itself. */
module EventReplay {
  import opened Common
  import opened Execution
  import opened RunRecords
  import opened StoreSpec

  // ---- One replay ----

  const REPLAY_LIMIT: nat := 200

  function Replayed(log: seq<StoredEvent>, cursor: int): seq<StoredEvent> {
    Take(Newer(log, cursor), REPLAY_LIMIT)
  }

  function CursorAfter(events: seq<StoredEvent>, cursor: int): int {
    if events == [] then cursor else events[|events| - 1].sequence
  }

  /** The first position that a cursor, from anywhere, leaves to be delivered. */
  function From(cursor: int, length: nat): (a: nat)
    ensures a <= length
  {
    Max(0, Min(cursor + 1, length))
  }

  lemma SuffixMore(init: seq<StoredEvent>, last: StoredEvent, whole: seq<StoredEvent>, a: nat)
    requires a <= |init| && whole == init + [last]
    ensures init[a..] + [last] == whole[a..] && whole[|whole|..] == []
  {
  }

  lemma {:induction false} NewerIsASuffix(log: seq<StoredEvent>, cursor: int)
    requires Numbered(log)
    ensures Newer(log, cursor) == log[From(cursor, |log|)..]
  {
    if log != [] {
      var init, last := log[..|log| - 1], log[|log| - 1];
      NewerIsASuffix(init, cursor);
      SuffixMore(init, last, log, From(cursor, |init|));
    }
  }

  /** One replay delivers the next events in order, at most 200 of them, and leaves the cursor on the last one; a
      cursor at or beyond the end of the log gets nothing and stays. */
  lemma ReplayIsASlice(log: seq<StoredEvent>, cursor: int)
    requires Numbered(log)
    ensures var events, a := Replayed(log, cursor), From(cursor, |log|);
      var b := if a + 200 <= |log| then a + 200 else |log|;
      events == log[a..b] && CursorAfter(events, cursor) == if a < b then b - 1 else cursor
  {
    NewerIsASuffix(log, cursor);
    var a := From(cursor, |log|);
    var rest := log[a..];
    if |rest| > REPLAY_LIMIT {
      assert rest[..REPLAY_LIMIT] == log[a..a + REPLAY_LIMIT];
    }
  }

  /** A replay leaves nothing behind exactly when no more than 200 events are newer than the cursor. */
  lemma ReplayCatchesUpIff(log: seq<StoredEvent>, cursor: int)
    requires Numbered(log)
    ensures Newer(log, CursorAfter(Replayed(log, cursor), cursor)) == [] <==> |Newer(log, cursor)| <= 200
  {
    ReplayIsASlice(log, cursor);
    NewerIsASuffix(log, cursor);
    NewerIsASuffix(log, CursorAfter(Replayed(log, cursor), cursor));
  }

  // ---- Sessions ----

  /** What a client receives that replays against these successive states of the log. */
  function Deliveries(logs: seq<seq<StoredEvent>>, cursor: int): seq<StoredEvent> {
    if logs == [] then []
    else
      var init := logs[..|logs| - 1];
      Deliveries(init, cursor) + Replayed(logs[|logs| - 1], FinalCursor(init, cursor))
  }

  function FinalCursor(logs: seq<seq<StoredEvent>>, cursor: int): int {
    if logs == [] then cursor
    else
      var before := FinalCursor(logs[..|logs| - 1], cursor);
      CursorAfter(Replayed(logs[|logs| - 1], before), before)
  }

  ghost predicate Growing(logs: seq<seq<StoredEvent>>) {
    && (forall i :: 0 <= i < |logs| ==> Numbered(logs[i]))
    && (forall i, j :: 0 <= i < j < |logs| ==> logs[i] <= logs[j])
  }

  /** What was delivered is the log from the cursor on, without gap, duplicate or reordering, and the cursor has moved
      to its end. */
  predicate SliceOf(log: seq<StoredEvent>, cursor: int, delivered: seq<StoredEvent>, after: int) {
    var a := From(cursor, |log|);
    && a + |delivered| <= |log| && delivered == log[a..a + |delivered|]
    && after == if delivered == [] then cursor else a + |delivered| - 1
  }

  lemma SliceGoesOn(
    seen: seq<StoredEvent>, log: seq<StoredEvent>, a: nat, delivered: seq<StoredEvent>, events: seq<StoredEvent>)
    requires seen <= log && a + |delivered| <= |seen| && delivered == seen[a..a + |delivered|]
    requires a + |delivered| + |events| <= |log| && events == log[a + |delivered|..a + |delivered| + |events|]
    ensures delivered + events == log[a..a + |delivered + events|]
  {
    forall k | 0 <= k < |delivered| ensures delivered[k] == log[a + k] {
      assert delivered[k] == seen[a + k];
    }
    forall k | 0 <= k < |events| ensures events[k] == log[a + |delivered| + k] {
    }
  }

  lemma FirstReplay(log: seq<StoredEvent>, cursor: int, events: seq<StoredEvent>)
    requires Numbered(log) && events == Replayed(log, cursor)
    ensures SliceOf(log, cursor, events, CursorAfter(events, cursor))
  {
    ReplayIsASlice(log, cursor);
  }

  lemma NextReplay(
    seen: seq<StoredEvent>, log: seq<StoredEvent>, delivered: seq<StoredEvent>, cursor: int, middle: int,
    events: seq<StoredEvent>)
    requires Numbered(log) && seen <= log && SliceOf(seen, cursor, delivered, middle) && delivered != []
    requires events == Replayed(log, middle)
    ensures SliceOf(log, cursor, delivered + events, CursorAfter(events, middle))
  {
    ReplayIsASlice(log, middle);
    SliceGoesOn(seen, log, From(cursor, |seen|), delivered, events);
  }

  lemma OneMoreReplay(seen: seq<StoredEvent>, log: seq<StoredEvent>, delivered: seq<StoredEvent>, cursor: int,
                      middle: int)
    requires Numbered(log) && seen <= log && SliceOf(seen, cursor, delivered, middle)
    ensures var events := Replayed(log, middle);
      SliceOf(log, cursor, delivered + events, CursorAfter(events, middle))
  {
    var events := Replayed(log, middle);
    if delivered == [] {
      FirstReplay(log, cursor, events);
      assert delivered + events == events;
    } else {
      NextReplay(seen, log, delivered, cursor, middle, events);
    }
  }

  /** All deliveries together are one contiguous slice of the log that starts after the cursor; while the log has not
      passed the cursor there are none. */
  lemma {:induction false} DeliveriesAreContiguous(logs: seq<seq<StoredEvent>>, cursor: int)
    requires Growing(logs) && logs != []
    ensures var log := logs[|logs| - 1];
      && SliceOf(log, cursor, Deliveries(logs, cursor), FinalCursor(logs, cursor))
      && (|log| <= cursor + 1 ==> Deliveries(logs, cursor) == [] && FinalCursor(logs, cursor) == cursor)
  {
    var init, log := logs[..|logs| - 1], logs[|logs| - 1];
    if init == [] {
      OneMoreReplay([], log, [], cursor, cursor);
    } else {
      DeliveriesAreContiguous(init, cursor);
      OneMoreReplay(logs[|logs| - 2], log, Deliveries(init, cursor), cursor, FinalCursor(init, cursor));
    }
  }

  /** What was delivered before and what is newer than the cursor then are together what is newer than the first
      cursor. */
  lemma CountsAddUp(seen: seq<StoredEvent>, log: seq<StoredEvent>, cursor: int, delivered: seq<StoredEvent>,
                    before: int)
    requires seen <= log && SliceOf(seen, cursor, delivered, before)
    ensures |delivered| + |log| - From(before, |log|) == |log| - From(cursor, |log|)
  {
  }

  /** The last replay leaves nothing of its log behind exactly when at most 200 events were waiting. */
  lemma LastReplayIff(seen: seq<StoredEvent>, log: seq<StoredEvent>, cursor: int, delivered: seq<StoredEvent>,
                      before: int)
    requires Numbered(log) && seen <= log && SliceOf(seen, cursor, delivered, before)
    ensures |delivered + Replayed(log, before)| == |Newer(log, cursor)| <==> |Newer(log, before)| <= REPLAY_LIMIT
  {
    ReplayIsASlice(log, before);
    NewerIsASuffix(log, before);
    NewerIsASuffix(log, cursor);
    CountsAddUp(seen, log, cursor, delivered, before);
  }

  /** A slice from the cursor on is all of a later log exactly when it is all of this one and nothing came after. */
  lemma AllOfLaterIff(log: seq<StoredEvent>, later: seq<StoredEvent>, cursor: int, delivered: seq<StoredEvent>,
                      after: int)
    requires Numbered(log) && Numbered(later) && log <= later && SliceOf(log, cursor, delivered, after)
    ensures delivered == Newer(later, cursor)
       <==> |delivered| == |Newer(log, cursor)| && Newer(later, cursor) == Newer(log, cursor)
  {
    NewerIsASuffix(log, cursor);
    NewerIsASuffix(later, cursor);
    var a := From(cursor, |log|);
    assert |delivered| == |log| - a ==> delivered == log[a..];
    assert |Newer(log, cursor)| <= |Newer(later, cursor)|;
  }

  /** Replays have delivered everything of a later log exactly when at most 200 events were waiting at the last of them
      and none was appended since. */
  lemma DeliveredAllIff(logs: seq<seq<StoredEvent>>, cursor: int, later: seq<StoredEvent>)
    requires Growing(logs) && logs != [] && Numbered(later) && logs[|logs| - 1] <= later
    ensures var init, log := logs[..|logs| - 1], logs[|logs| - 1];
      Deliveries(logs, cursor) == Newer(later, cursor)
      <==> |Newer(log, FinalCursor(init, cursor))| <= REPLAY_LIMIT && Newer(later, cursor) == Newer(log, cursor)
  {
    var init, log := logs[..|logs| - 1], logs[|logs| - 1];
    var before, delivered := FinalCursor(init, cursor), Deliveries(init, cursor);
    DeliveriesAreContiguous(logs, cursor);
    if init == [] {
      LastReplayIff([], log, cursor, delivered, before);
    } else {
      DeliveriesAreContiguous(init, cursor);
      LastReplayIff(init[|init| - 1], log, cursor, delivered, before);
    }
    AllOfLaterIff(log, later, cursor, Deliveries(logs, cursor), FinalCursor(logs, cursor));
  }

  lemma OneMoreLog(init: seq<seq<StoredEvent>>, last: seq<StoredEvent>, whole: seq<seq<StoredEvent>>, cursor: int)
    requires whole == init + [last]
    ensures var before := FinalCursor(init, cursor);
      && FinalCursor(whole, cursor) == CursorAfter(Replayed(last, before), before)
      && Deliveries(whole, cursor) == Deliveries(init, cursor) + Replayed(last, before)
  {
    assert whole[..|whole| - 1] == init;
  }

  ghost predicate CarriesOn(first: seq<seq<StoredEvent>>, second: seq<seq<StoredEvent>>, whole: seq<seq<StoredEvent>>,
                            cursor: int) {
    var middle := FinalCursor(first, cursor);
    && FinalCursor(whole, cursor) == FinalCursor(second, middle)
    && Deliveries(whole, cursor) == Deliveries(first, cursor) + Deliveries(second, middle)
  }

  lemma Associate(a: seq<StoredEvent>, b: seq<StoredEvent>, c: seq<StoredEvent>)
    ensures a + b + c == a + (b + c)
  {
  }

  lemma CarriesOnOneMore(first: seq<seq<StoredEvent>>, init: seq<seq<StoredEvent>>, last: seq<StoredEvent>,
                         second: seq<seq<StoredEvent>>, before: seq<seq<StoredEvent>>, whole: seq<seq<StoredEvent>>,
                             cursor: int)
    requires CarriesOn(first, init, before, cursor) && second == init + [last] && whole == before + [last]
    ensures CarriesOn(first, second, whole, cursor)
  {
    OneMoreLog(before, last, whole, cursor);
    OneMoreLog(init, last, second, FinalCursor(first, cursor));
    Associate(Deliveries(first, cursor), Deliveries(init, FinalCursor(first, cursor)),
              Replayed(last, FinalCursor(before, cursor)));
  }

  /** A session resumed from the last delivered id carries on as if it had never been interrupted. */
  lemma {:induction false} ResumedSession(first: seq<seq<StoredEvent>>, second: seq<seq<StoredEvent>>, cursor: int)
    ensures CarriesOn(first, second, first + second, cursor)
  {
    if second == [] {
      assert first + second == first;
    } else {
      var init, last := second[..|second| - 1], second[|second| - 1];
      ResumedSession(first, init, cursor);
      CarriesOnOneMore(first, init, last, second, first + init, first + second, cursor);
    }
  }

  // ---- The service ----

  /** What the service sees: the log at its n-th replay, the status at its n-th look at the run, and whether
      its n-th wait was notified. */
  datatype Surroundings = Surroundings(log: nat -> seq<StoredEvent>, status: nat -> RunStatus, notified: nat -> bool)

  function FirstLogs(log: nat -> seq<StoredEvent>, n: nat): (r: seq<seq<StoredEvent>>)
    ensures |r| == n && forall i :: 0 <= i < n ==> r[i] == log(i)
  {
    if n == 0 then [] else FirstLogs(log, n - 1) + [log(n - 1)]
  }

  /** The events among the items a client was sent; None is a keep-alive. */
  function EventsIn(items: seq<Option<StoredEvent>>): seq<StoredEvent> {
    if items == [] then []
    else EventsIn(items[..|items| - 1]) + if items[|items| - 1].Some? then [items[|items| - 1].value] else []
  }

  function Items(events: seq<StoredEvent>): seq<Option<StoredEvent>> {
    if events == [] then [] else Items(events[..|events| - 1]) + [Some(events[|events| - 1])]
  }

  /** The keep-alive before replay number n: a wait precedes all but the first two, and this one timed out. */
  function Pause(around: Surroundings, n: nat): seq<Option<StoredEvent>> {
    if n >= 2 && !around.notified(n - 2) then [None] else []
  }

  /** The cursor after n replays. */
  function CursorAt(around: Surroundings, after: int, n: nat): int {
    if n == 0 then after
    else
      var before := CursorAt(around, after, n - 1);
      CursorAfter(Replayed(around.log(n - 1), before), before)
  }

  /** Everything a session has sent by the end of its n-th replay. */
  function Sent(around: Surroundings, after: int, n: nat): seq<Option<StoredEvent>> {
    if n == 0 then []
    else
      Sent(around, after, n - 1) + Pause(around, n - 1)
      + Items(Replayed(around.log(n - 1), CursorAt(around, after, n - 1)))
  }

  function KeepAlives(items: seq<Option<StoredEvent>>): nat {
    if items == [] then 0
    else KeepAlives(items[..|items| - 1]) + if items[|items| - 1].None? then 1 else 0
  }

  /** The waits before the first n replays that ended without news: one precedes each replay but the first two. */
  function TimedOut(around: Surroundings, n: nat): nat {
    if n <= 2 then 0 else TimedOut(around, n - 1) + if around.notified(n - 3) then 0 else 1
  }

  lemma {:induction false} KeepAlivesSplit(a: seq<Option<StoredEvent>>, b: seq<Option<StoredEvent>>)
    ensures KeepAlives(a + b) == KeepAlives(a) + KeepAlives(b)
  {
    if b == [] {
      assert a + b == a;
    } else {
      var init, last := b[..|b| - 1], b[|b| - 1];
      KeepAlivesSplit(a, init);
      assert (a + b)[..|a + b| - 1] == a + init;
    }
  }

  lemma {:induction false} EventsAreNone(events: seq<StoredEvent>)
    ensures KeepAlives(Items(events)) == 0
  {
    if events != [] {
      var init := Items(events[..|events| - 1]);
      EventsAreNone(events[..|events| - 1]);
      assert Items(events)[..|Items(events)| - 1] == init;
    }
  }

  lemma KeepAlivesOfPause(around: Surroundings, n: nat, pause: seq<Option<StoredEvent>>)
    requires pause == Pause(around, n)
    ensures KeepAlives(pause) == if n >= 2 && !around.notified(n - 2) then 1 else 0
  {
    if pause != [] {
      assert pause[..0] == [];
    }
  }

  /** A session sends a keep-alive for every wait that ended without news, and no other. */
  lemma {:induction false} KeepAlivesAreTimeouts(around: Surroundings, after: int, n: nat)
    ensures KeepAlives(Sent(around, after, n)) == TimedOut(around, n)
  {
    if n > 0 {
      var m := n - 1;
      var events := Replayed(around.log(m), CursorAt(around, after, m));
      KeepAlivesAreTimeouts(around, after, m);
      KeepAlivesOfPause(around, m, Pause(around, m));
      EventsAreNone(events);
      KeepAlivesAdd(Sent(around, after, m), Pause(around, m), Items(events), Sent(around, after, n));
    }
  }

  lemma KeepAlivesAdd(a: seq<Option<StoredEvent>>, b: seq<Option<StoredEvent>>, c: seq<Option<StoredEvent>>,
                      whole: seq<Option<StoredEvent>>)
    requires whole == a + b + c
    ensures KeepAlives(whole) == KeepAlives(a) + KeepAlives(b) + KeepAlives(c)
  {
    KeepAlivesSplit(a, b);
    KeepAlivesSplit(a + b, c);
  }

  lemma {:induction false} EventsSplit(a: seq<Option<StoredEvent>>, b: seq<Option<StoredEvent>>)
    ensures EventsIn(a + b) == EventsIn(a) + EventsIn(b)
  {
    if b == [] {
      assert a + b == a;
    } else {
      EventsSplit(a, b[..|b| - 1]);
      assert (a + b)[..|a + b| - 1] == a + b[..|b| - 1];
    }
  }

  lemma EventsMore(init: seq<Option<StoredEvent>>, last: StoredEvent, whole: seq<Option<StoredEvent>>)
    requires whole == init + [Some(last)]
    ensures EventsIn(whole) == EventsIn(init) + [last]
  {
    assert whole[..|init|] == init;
  }

  lemma {:induction false} EventsOfItems(events: seq<StoredEvent>)
    ensures EventsIn(Items(events)) == events
  {
    if events != [] {
      var init, last := events[..|events| - 1], events[|events| - 1];
      EventsOfItems(init);
      EventsMore(Items(init), last, Items(events));
    }
  }

  lemma EventsOfPause(around: Surroundings, n: nat)
    ensures EventsIn(Pause(around, n)) == []
  {
    var none: seq<Option<StoredEvent>> := [None];
    assert none[..0] == [];
  }

  predicate DeliveredBy(around: Surroundings, after: int, n: nat, logs: seq<seq<StoredEvent>>) {
    EventsIn(Sent(around, after, n)) == Deliveries(logs, after)
        && CursorAt(around, after, n) == FinalCursor(logs, after)
  }

  lemma OneMoreSent(
    around: Surroundings, after: int, n: nat, m: nat, logs: seq<seq<StoredEvent>>, more: seq<seq<StoredEvent>>)
    requires DeliveredBy(around, after, n, logs) && m == n + 1 && more == logs + [around.log(n)]
    ensures DeliveredBy(around, after, m, more)
  {
    var events := Replayed(around.log(n), CursorAt(around, after, n));
    SentMore(around, after, n, m, CursorAt(around, after, n), events);
    OneMoreLog(logs, around.log(n), more, after);
    EventsSplit(Sent(around, after, n) + Pause(around, n), Items(events));
    EventsSplit(Sent(around, after, n), Pause(around, n));
    EventsOfPause(around, n);
    EventsOfItems(events);
  }

  /** Apart from the keep-alives, that is what replays against these logs deliver. */
  lemma {:induction false} SentIsDelivered(around: Surroundings, after: int, n: nat)
    ensures DeliveredBy(around, after, n, FirstLogs(around.log, n))
  {
    if n > 0 {
      SentIsDelivered(around, after, n - 1);
      OneMoreSent(around, after, n - 1, n, FirstLogs(around.log, n - 1), FirstLogs(around.log, n));
    }
  }

  /** In terms of the logs read, the last one apart. */
  lemma SentAfter(around: Surroundings, after: int, m: nat, init: seq<seq<StoredEvent>>, logs: seq<seq<StoredEvent>>)
    requires init == FirstLogs(around.log, m) && logs == init + [around.log(m)]
    ensures DeliveredBy(around, after, m + 1, logs) && FinalCursor(init, after) == CursorAt(around, after, m)
  {
    SentIsDelivered(around, after, m);
    OneMoreSent(around, after, m, m + 1, init, logs);
  }

  lemma SentMore(around: Surroundings, after: int, n: nat, m: nat, before: int, events: seq<StoredEvent>)
    requires m == n + 1 && before == CursorAt(around, after, n) && events == Replayed(around.log(n), before)
    ensures Sent(around, after, m) == Sent(around, after, n) + Pause(around, n) + Items(events)
    ensures CursorAt(around, after, m) == CursorAfter(events, before)
  {
  }

  lemma PauseAppended(sent: seq<Option<StoredEvent>>, all: seq<Option<StoredEvent>>, pause: seq<Option<StoredEvent>>)
    requires sent == all + [] || sent == all
    ensures sent + pause == all + pause && sent + [] == sent && all + [] == all
  {
  }

  lemma Sends(
    around: Surroundings, after: int, n: nat, cursor: int, sent: seq<Option<StoredEvent>>, events: seq<StoredEvent>)
    requires sent == Sent(around, after, n) + Pause(around, n) && cursor == CursorAt(around, after, n)
    requires events == Replayed(around.log(n), cursor)
    ensures sent + Items(events) == Sent(around, after, n + 1) + []
    ensures CursorAfter(events, cursor) == CursorAt(around, after, n + 1)
  {
    SentMore(around, after, n, n + 1, cursor, events);
    PauseAppended(sent + Items(events), Sent(around, after, n + 1), []);
  }

  lemma NothingSent(around: Surroundings, after: int, n: nat)
    requires n == 0
    ensures Sent(around, after, n) + Pause(around, n) == [] && CursorAt(around, after, n) == after
  {
  }

  /** One replay of a short log, from the start, sends all of it. */
  lemma OneReplay(around: Surroundings, log: seq<StoredEvent>)
    requires log == around.log(0) && Numbered(log) && |log| <= REPLAY_LIMIT
    ensures EventsIn(Sent(around, -1, 1)) == log
  {
    var none: seq<Option<StoredEvent>> := [];
    ReplayIsASlice(log, -1);
    SentMore(around, -1, 0, 1, -1, log);
    assert none + none + Items(log) == Items(log);
    EventsOfItems(log);
  }

  /** The session returns at its look number n: the first that finds a terminal status, or the first at all if the
      client does not want to follow. */
  ghost predicate ReturnsAt(around: Surroundings, follow: bool, n: nat) {
    if !follow then n == 0 else around.status(n).Terminal() && (n > 0 ==> NeverTerminal(around, n - 1))
  }

  /** None of the looks up to number n found a terminal status. */
  predicate NeverTerminal(around: Surroundings, n: nat) { forall k: nat :: k <= n ==> !around.status(k).Terminal() }

  class EventStreamService {
    const around: Surroundings
    var cursor: int
    var sent: seq<Option<StoredEvent>>
    var replays: nat

    /** What the session has sent: the items of its replays so far, and `pause` since the last one. */
    ghost predicate HasSent(after: int, pause: seq<Option<StoredEvent>>)
      reads this
    {
      && sent == Sent(around, after, replays) + pause
      && cursor == CursorAt(around, after, replays)
    }

    constructor (around: Surroundings)
      ensures this.around == around && cursor == -1 && sent == [] && replays == 0
    {
      this.around := around;
      cursor, sent, replays := -1, [], 0;
    }

    /** The events of a replay are yielded, and the cursor moves to the last of them. */
    method Yield(events: seq<StoredEvent>)
      modifies `sent, `cursor
      ensures sent == old(sent) + Items(events) && cursor == CursorAfter(events, old(cursor))
    {
      for i := 0 to |events|
        invariant sent == old(sent) + Items(events[..i]) && cursor == old(cursor)
      {
        assert events[..i + 1][..i] == events[..i];
        sent := sent + [Some(events[i])];
      }
      assert events[..|events|] == events;
      if events != [] {
        cursor := events[|events| - 1].sequence;
      }
    }

    /** The inner function `replay`, and the loop over its result. */
    method Replay(ghost after: int)
      requires HasSent(after, Pause(around, replays))
      modifies this
      ensures HasSent(after, []) && replays == old(replays) + 1
    {
      var events := Take(Newer(around.log(replays), cursor), REPLAY_LIMIT);
      Sends(around, after, replays, cursor, sent, events);
      Yield(events);
      replays := replays + 1;
      assert sent == Sent(around, after, replays) && cursor == CursorAt(around, after, replays);
    }

    /** A wait for news before the next replay. */
    method Wait(ghost after: int)
      requires replays >= 2 && HasSent(after, [])
      modifies `sent
      ensures HasSent(after, Pause(around, replays))
    {
      PauseAppended(sent, Sent(around, after, replays), Pause(around, replays));
      if !around.notified(replays - 2) {
        sent := sent + [None];
      }
    }

    /** `stream`, watched for at most `rounds` rounds of its waiting loop: it returns at its first look that finds a
        terminal status, and has then sent exactly what one replay more than the number of earlier looks sends. */
    method Stream(after: int, follow: bool, rounds: nat) returns (returned: bool)
      requires sent == [] && replays == 0
      modifies this
      ensures HasSent(after, [])
      ensures returned ==> replays > 0 && ReturnsAt(around, follow, replays - 1)
      ensures !returned ==> replays == rounds + 2 && follow && NeverTerminal(around, rounds)
    {
      cursor := after;
      NothingSent(around, after, replays);
      Replay(after);
      if !follow || around.status(0).Terminal() {
        return true;
      }
      Replay(after);
      for n := 0 to rounds
        invariant HasSent(after, []) && replays == n + 2 && NeverTerminal(around, n)
      {
        if around.status(n + 1).Terminal() {
          return true;
        }
        Wait(after);
        Replay(after);
      }
      return false;
    }
  }
}
