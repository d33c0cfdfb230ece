/** Leases and retries on the clock: when a recovery takes a run back, counted from the call that set the deadline. */
module Deadlines {
  import opened Common
  import opened Execution
  import opened StepMachine
  import opened RunRecords
  import opened StoreSpec
  import opened RunQueue
  import opened Protocol
  import opened DispatchInvariant
  import opened Guarantees

  /** The run that lost its worker is queued again for another attempt. */
  function TakenBack(run: StoredRun, now: int): StoredRun {
    run.(status := Queued, version := run.version + 1, attemptCount := run.attemptCount + 1, leaseOwner := None,
         leaseExpiresAt := None, updatedAt := now)
  }

  /** The run whose retry is due is queued again. */
  function TriedAgain(run: StoredRun, now: int): StoredRun {
    run.(status := Queued, version := run.version + 1, nextRetryAt := None, updatedAt := now)
  }

  function Recovered(kind: Recovery, run: StoredRun, now: int): StoredRun {
    if kind.ExpiredLeases? then TakenBack(run, now) else TriedAgain(run, now)
  }

  lemma {:induction false} RecoverEachAt(kind: Recovery, s: System, ids: seq<string>, id: string)
    requires NoDuplicates(ids) && id in s.store.runs
    ensures var t := RecoverEach(kind, s, ids);
      && t.now == s.now && id in t.store.runs
      && t.store.runs[id] == if id in ids then Recovered(kind, s.store.runs[id], s.now) else s.store.runs[id]
  {
    if ids != [] {
      var init, last := ids[..|ids| - 1], ids[|ids| - 1];
      RecoverEachAt(kind, s, init, id);
      RecoverOneAt(kind, RecoverEach(kind, s, init), last, id);
      assert id in ids <==> id in init || id == last;
    }
  }

  lemma RecoverOneAt(kind: Recovery, s: System, last: string, id: string)
    requires id in s.store.runs
    ensures var t := RecoverOne(kind, s, last);
      && t.now == s.now && id in t.store.runs
      && t.store.runs[id] == if id == last then Recovered(kind, s.store.runs[id], s.now) else s.store.runs[id]
  {
  }

  lemma {:induction false} AllRecoverable(kind: Recovery, s: Store, ids: seq<string>, now: int, id: string)
    ensures id in RecoverableIn(kind, s, ids, now) <==> id in ids && id in s.runs && Recoverable(kind, s.runs[id], now)
    ensures |RecoverableIn(kind, s, ids, now)| <= |ids|
  {
    if ids != [] {
      AllRecoverable(kind, s, ids[..|ids| - 1], now, id);
      assert id in ids <==> id in ids[..|ids| - 1] || id == ids[|ids| - 1];
    }
  }

  lemma DueIffCandidate(kind: Recovery, s: Store, limit: nat, now: int, id: string)
    requires Valid(s) && limit >= |s.order|
    ensures NoDuplicates(Candidates(kind, s, limit, now))
    ensures id in Candidates(kind, s, limit, now) <==> id in s.runs && Recoverable(kind, s.runs[id], now)
  {
    AllRecoverable(kind, s, s.order, now, id);
    RecoverableDistinct(kind, s, s.order, now);
    assert Candidates(kind, s, limit, now) == RecoverableIn(kind, s, s.order, now);
  }

  /** A recovery whose limit covers all runs takes a run exactly if it is due. */
  lemma TakenIff(p: Params, s: System, kind: Recovery, limit: nat, id: string)
    requires Valid(s.store) && id in s.store.runs && limit >= |s.store.order|
    ensures var t := Perform(p, s, RecoverBatch(kind, limit));
      && id in t.store.runs
      && t.store.runs[id] == if Recoverable(kind, s.store.runs[id], s.now)
                             then Recovered(kind, s.store.runs[id], s.now) else s.store.runs[id]
  {
    DueIffCandidate(kind, s.store, limit, s.now, id);
    RecoverEachAt(kind, s, Candidates(kind, s.store, limit, s.now), id);
  }

  /** The run is RUNNING under a lease of this worker that ends after so many seconds from now. */
  predicate Leased(s: System, id: string, w: string, seconds: int) {
    && id in s.store.runs && s.store.runs[id].status.Running?
    && s.store.runs[id].leaseOwner == Some(w) && s.store.runs[id].leaseExpiresAt == Some(s.now + seconds)
  }

  /** After d seconds a recovery takes the leased run back if more than the lease has passed, and leaves it otherwise.
      */
  ghost predicate TakenAfter(p: Params, s: System, id: string, d: nat, lease: int, limit: nat) {
    var later := Perform(p, s, Tick(d));
    var t := Perform(p, later, RecoverBatch(ExpiredLeases, limit));
    && id in s.store.runs && later.store == s.store && later.now == s.now + d && id in t.store.runs
    && t.store.runs[id] == if d > lease then TakenBack(s.store.runs[id], s.now + d) else s.store.runs[id]
  }

  lemma LeasedIsTaken(p: Params, s: System, id: string, w: string, lease: int, d: nat, limit: nat)
    requires Valid(s.store) && Leased(s, id, w, lease) && limit >= |s.store.order|
    ensures TakenAfter(p, s, id, d, lease, limit)
  {
    TakenIff(p, Perform(p, s, Tick(d)), ExpiredLeases, limit, id);
  }

  lemma ClaimLeases(s: System, id: string, w: string, lease: int)
    requires CanClaim(s.store, id, s.now)
    ensures var t := DoClaim(s, id, w, lease); Leased(t, id, w, lease) && t.store.order == s.store.order
  {
  }

  /** From any reachable state in which the run can be claimed: the worker has it for the seconds of the lease and no
      longer. A recovery d seconds after the claim takes the run back if and only if d is more than the lease. */
  lemma ClaimHoldsForTheLease(p: Params, actions: seq<Action>, id: string, w: string, lease: int, d: nat, limit: nat)
    requires CanClaim(Run(p, actions).store, id, Run(p, actions).now)
    requires limit >= |Run(p, actions).store.order|
    ensures var s := Run(p, actions + [Claim(id, w, lease)]);
      Leased(s, id, w, lease) && TakenAfter(p, s, id, d, lease, limit)
  {
    RunOneMore(p, actions, Claim(id, w, lease));
    Always(p, actions + [Claim(id, w, lease)]);
    ClaimLeases(Run(p, actions), id, w, lease);
    LeasedIsTaken(p, Run(p, actions + [Claim(id, w, lease)]), id, w, lease, d, limit);
  }

  predicate Owned(s: System, id: string, w: string) {
    id in s.store.runs && s.store.runs[id].status.Running? && s.store.runs[id].leaseOwner == Some(w)
  }

  lemma RenewalLeases(p: Params, s: System, id: string, w: string, lease: int)
    requires Owned(s, id, w)
    ensures var t := Perform(p, s, Renew(id, w, lease)); Leased(t, id, w, lease) && t.store.order == s.store.order
  {
  }

  /** A renewal by its owner starts the lease of a RUNNING run again. */
  lemma RenewalStartsAgain(p: Params, actions: seq<Action>, id: string, w: string, lease: int, d: nat, limit: nat)
    requires Owned(Run(p, actions), id, w) && limit >= |Run(p, actions).store.order|
    ensures var s := Run(p, actions + [Renew(id, w, lease)]);
      Leased(s, id, w, lease) && TakenAfter(p, s, id, d, lease, limit)
  {
    RunOneMore(p, actions, Renew(id, w, lease));
    Always(p, actions + [Renew(id, w, lease)]);
    RenewalLeases(p, Run(p, actions), id, w, lease);
    LeasedIsTaken(p, Run(p, actions + [Renew(id, w, lease)]), id, w, lease, d, limit);
  }

  /** The run waits for its retry with this error, and nobody holds it. */
  predicate WaitsUntil(s: System, id: string, at: int, code: string, message: string) {
    && id in s.store.runs
    && var run := s.store.runs[id];
       && run.status.RetryScheduled? && run.nextRetryAt == Some(at) && run.leaseOwner.None? && run.leaseExpiresAt.None?
       && run.errorCode == Some(code) && run.errorMessage == Some(message)
  }

  /** After d seconds a recovery queues the waiting run again if its time has come, and leaves it otherwise. */
  ghost predicate TriedAfter(p: Params, s: System, id: string, d: nat, at: int, limit: nat) {
    var later := Perform(p, s, Tick(d));
    var t := Perform(p, later, RecoverBatch(DueRetries, limit));
    && id in s.store.runs && later.store == s.store && later.now == s.now + d && id in t.store.runs
    && t.store.runs[id] == if s.now + d >= at then TriedAgain(s.store.runs[id], s.now + d) else s.store.runs[id]
  }

  lemma WaitingIsTried(p: Params, s: System, id: string, at: int, code: string, message: string, d: nat, limit: nat)
    requires Valid(s.store) && WaitsUntil(s, id, at, code, message) && limit >= |s.store.order|
    ensures TriedAfter(p, s, id, d, at, limit)
  {
    TakenIff(p, Perform(p, s, Tick(d)), DueRetries, limit, id);
  }

  lemma RetryWaits(p: Params, s: System, id: string, at: int, code: string, message: string)
    requires id in s.store.runs && (p.guardedRetry ==> s.store.runs[id].status.Running?)
    ensures var t := DoRetry(p, s, id, at, code, message);
      WaitsUntil(t, id, at, code, message) && t.store.order == s.store.order && t.now == s.now
  {
  }

  /** A retry scheduled for some time: the run waits with its error, and a recovery d seconds later queues it again if
      and only if that time has come. */
  lemma RetryWaitsForItsTime(p: Params, actions: seq<Action>, id: string, at: int, code: string, message: string,
                             d: nat, limit: nat)
    requires var s := Run(p, actions);
      && id in s.store.runs && (p.guardedRetry ==> s.store.runs[id].status.Running?) && limit >= |s.store.order|
    ensures var s := Run(p, actions + [Retry(id, at, code, message)]);
      WaitsUntil(s, id, at, code, message) && s.now == Run(p, actions).now && TriedAfter(p, s, id, d, at, limit)
  {
    RunOneMore(p, actions, Retry(id, at, code, message));
    Always(p, actions + [Retry(id, at, code, message)]);
    RetryWaits(p, Run(p, actions), id, at, code, message);
    WaitingIsTried(p, Run(p, actions + [Retry(id, at, code, message)]), id, at, code, message, d, limit);
  }
}
