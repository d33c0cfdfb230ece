/** Where the events of a run's log come from. Every save is an attempt, won or lost; its worker goes on to publish its
    events either way. The log is an interleaving of what the attempts have published so far. */
module EventLedger {
  import opened Common
  import opened Execution
  import opened StepMachine
  import opened RunRecords
  import opened StoreSpec
  import opened Protocol
  import opened ProgressInvariant
  import opened Guarantees
  import EventStream

  /** The save that was action number `at`: the step it tried to commit, and whether it did. */
  datatype Attempt = Attempt(runId: string, commit: Commit, at: nat, won: bool) {
    function Events(): seq<Event> { commit.outcome.events }
  }

  /** Event number `position` of an attempt. */
  datatype Tag = Tag(attempt: nat, position: nat)

  /** owners: the attempt of each worker that publishes. tags: for each run's log, whose each event is. */
  datatype Account = Account(attempts: seq<Attempt>, owners: map<string, nat>, tags: map<string, seq<Tag>>)

  function AttemptOf(s: System, w: string, at: nat): Attempt
    requires w in s.workers && s.workers[w].Computed?
  {
    var pc := s.workers[w];
    Attempt(pc.runId, Commit(pc.base, pc.reply, pc.outcome), at, Wins(s.store, pc.runId, pc.base))
  }

  /** What action number `at` adds to the account. */
  function Entered(c: Account, s: System, a: Action, at: nat): Account {
    match a
    case Create(run) =>
      if run.runId in s.store.runs then c else c.(tags := c.tags[run.runId := []])
    case Save(w, _) =>
      if w !in s.workers || !s.workers[w].Computed? then c
      else c.(attempts := c.attempts + [AttemptOf(s, w, at)], owners := c.owners[w := |c.attempts|])
    case Publish(w) =>
      if w !in s.workers || !s.workers[w].Publishing? || s.workers[w].events == [] then c
      else if w !in c.owners || |c.attempts| <= c.owners[w] || s.workers[w].runId !in c.tags then c
      else
        var id, k, left := s.workers[w].runId, c.owners[w], |s.workers[w].events|;
        if |c.attempts[k].Events()| < left then c
        else c.(tags := c.tags[id := c.tags[id] + [Tag(k, |c.attempts[k].Events()| - left)]])
    case _ => c
  }

  function AccountOf(p: Params, actions: seq<Action>): Account {
    if actions == [] then Account([], map[], map[])
    else
      var init := actions[..|actions| - 1];
      Entered(AccountOf(p, init), Run(p, init), actions[|actions| - 1], |init|)
  }

  // ---- The log and its tags ----

  /** The event is the one its tag names, of an attempt on this run. */
  predicate Names(attempts: seq<Attempt>, id: string, tag: Tag, event: Event) {
    && tag.attempt < |attempts| && attempts[tag.attempt].runId == id
    && tag.position < |attempts[tag.attempt].Events()| && event == attempts[tag.attempt].Events()[tag.position]
  }

  predicate Tagged(attempts: seq<Attempt>, id: string, tags: seq<Tag>, log: seq<StoredEvent>) {
    |tags| == |log| && forall i :: 0 <= i < |log| ==> Names(attempts, id, tags[i], log[i].event)
  }

  /** How many events of attempt k are among the tags. */
  function PublishedOf(tags: seq<Tag>, k: nat): nat {
    if tags == [] then 0
    else PublishedOf(tags[..|tags| - 1], k) + if tags[|tags| - 1].attempt == k then 1 else 0
  }

  /** Each attempt's events come in order, from its first, without gap or repetition. */
  predicate InOrder(tags: seq<Tag>) {
    tags == [] ||
    var init, last := tags[..|tags| - 1], tags[|tags| - 1];
    InOrder(init) && last.position == PublishedOf(init, last.attempt)
  }

  /** The steps of the attempts on this run that won. */
  function Won(attempts: seq<Attempt>, id: string): seq<Commit> {
    if attempts == [] then []
    else
      var last := attempts[|attempts| - 1];
      Won(attempts[..|attempts| - 1], id) + if last.runId == id && last.won then [last.commit] else []
  }

  ghost predicate LogsTagged(s: System, c: Account) {
    && c.tags.Keys == s.store.events.Keys
    && forall id {:trigger Tagged(c.attempts, id, c.tags[id], s.store.events[id])} :: id in s.store.events ==>
         Tagged(c.attempts, id, c.tags[id], s.store.events[id]) && InOrder(c.tags[id])
  }

  /** A publishing worker holds the events of its attempt that are not yet in the log. */
  predicate Owes(s: System, c: Account, w: string)
    requires w in s.workers
  {
    s.workers[w].Publishing? ==>
      var pc := s.workers[w];
      && w in c.owners && c.owners[w] < |c.attempts| && pc.runId in c.tags
      && var attempt, done := c.attempts[c.owners[w]], PublishedOf(c.tags[pc.runId], c.owners[w]);
         attempt.runId == pc.runId && done <= |attempt.Events()| && pc.events == attempt.Events()[done..]
  }

  predicate Shares(s: System, c: Account, v: string, w: string)
    requires v in s.workers && w in s.workers
  {
    && v != w && s.workers[v].Publishing? && s.workers[w].Publishing?
    && v in c.owners && w in c.owners && c.owners[v] == c.owners[w]
  }

  ghost predicate OwnersOk(s: System, c: Account) {
    && (forall w {:trigger Owes(s, c, w)} :: w in s.workers ==> Owes(s, c, w))
    && forall v, w {:trigger Shares(s, c, v, w)} :: v in s.workers && w in s.workers ==> !Shares(s, c, v, w)
  }

  ghost predicate WinnersOk(s: System, c: Account) {
    forall id {:trigger Won(c.attempts, id)} :: Won(c.attempts, id) == Commits(s.history, id)
  }

  ghost predicate Accounted(s: System, c: Account) {
    LogsTagged(s, c) && OwnersOk(s, c) && WinnersOk(s, c)
  }

  // ---- Saves ----

  lemma MoreAttempts(attempts: seq<Attempt>, more: seq<Attempt>, id: string, tags: seq<Tag>, log: seq<StoredEvent>)
    requires Tagged(attempts, id, tags, log) && attempts <= more
    ensures Tagged(more, id, tags, log)
  {
    forall i | 0 <= i < |log| ensures Names(more, id, tags[i], log[i].event) {
      assert Names(attempts, id, tags[i], log[i].event);
    }
  }

  lemma {:induction false} NonePublished(attempts: seq<Attempt>, id: string, tags: seq<Tag>, log: seq<StoredEvent>)
    requires Tagged(attempts, id, tags, log)
    ensures PublishedOf(tags, |attempts|) == 0
  {
    if tags != [] {
      var n := |tags| - 1;
      assert Names(attempts, id, tags[n], log[n].event);
      forall i | 0 <= i < n ensures Names(attempts, id, tags[..n][i], log[..n][i].event) {
        assert Names(attempts, id, tags[i], log[i].event);
      }
      NonePublished(attempts, id, tags[..n], log[..n]);
    }
  }

  lemma WonMore(attempts: seq<Attempt>, last: Attempt, id: string)
    ensures Won(attempts + [last], id) == Won(attempts, id) + if last.runId == id && last.won then [last.commit] else []
  {
    assert (attempts + [last])[..|attempts|] == attempts;
  }

  lemma SaveLogs(s: System, c: Account, w: string, stepId: string, at: nat)
    requires LogsTagged(s, c) && w in s.workers && s.workers[w].Computed?
    ensures LogsTagged(DoSave(s, w, stepId), Entered(c, s, Save(w, stepId), at))
  {
    var t, d := DoSave(s, w, stepId), Entered(c, s, Save(w, stepId), at);
    forall id | id in t.store.events
      ensures Tagged(d.attempts, id, d.tags[id], t.store.events[id]) && InOrder(d.tags[id]) {
      assert Tagged(c.attempts, id, c.tags[id], s.store.events[id]);
      MoreAttempts(c.attempts, d.attempts, id, c.tags[id], s.store.events[id]);
    }
  }

  lemma SaveOwners(config: Config, s: System, c: Account, w: string, stepId: string, at: nat)
    requires LogsTagged(s, c) && OwnersOk(s, c) && ProgressOk(config, s) && w in s.workers && s.workers[w].Computed?
    ensures OwnersOk(DoSave(s, w, stepId), Entered(c, s, Save(w, stepId), at))
  {
    var t, d, id := DoSave(s, w, stepId), Entered(c, s, Save(w, stepId), at), s.workers[w].runId;
    assert PcOk(config, s.store, s.workers[w]);
    assert Tagged(c.attempts, id, c.tags[id], s.store.events[id]);
    NonePublished(c.attempts, id, c.tags[id], s.store.events[id]);
    forall v | v in t.workers ensures Owes(t, d, v) {
      assert v != w ==> Owes(s, c, v);
    }
    forall u, v | u in t.workers && v in t.workers ensures !Shares(t, d, u, v) {
      assert u != w ==> Owes(s, c, u);
      assert v != w ==> Owes(s, c, v);
      assert u != w && v != w ==> !Shares(s, c, u, v);
    }
  }

  lemma SaveWinners(s: System, c: Account, w: string, stepId: string, at: nat)
    requires WinnersOk(s, c) && w in s.workers && s.workers[w].Computed?
    ensures WinnersOk(DoSave(s, w, stepId), Entered(c, s, Save(w, stepId), at))
  {
    var pc := s.workers[w];
    forall id
      ensures Won(Entered(c, s, Save(w, stepId), at).attempts, id) == Commits(DoSave(s, w, stepId).history, id) {
      WonMore(c.attempts, AttemptOf(s, w, at), id);
      CommitsGrow(s.history, Fact(pc.runId, Committed(Commit(pc.base, pc.reply, pc.outcome))), id);
    }
  }

  // ---- Publishing ----

  lemma PublishedMore(tags: seq<Tag>, tag: Tag, k: nat)
    ensures PublishedOf(tags + [tag], k) == PublishedOf(tags, k) + if tag.attempt == k then 1 else 0
  {
    assert (tags + [tag])[..|tags|] == tags;
  }

  lemma OneMoreTag(attempts: seq<Attempt>, id: string, tags: seq<Tag>, log: seq<StoredEvent>, tag: Tag,
                   stored: StoredEvent)
    requires Tagged(attempts, id, tags, log) && InOrder(tags)
    requires Names(attempts, id, tag, stored.event) && tag.position == PublishedOf(tags, tag.attempt)
    ensures Tagged(attempts, id, tags + [tag], log + [stored]) && InOrder(tags + [tag])
  {
    assert (tags + [tag])[..|tags|] == tags;
    forall i | 0 <= i < |log| ensures Names(attempts, id, tags[i], log[i].event) {
    }
  }

  /** What a publishing worker does next. */
  predicate Publishes(s: System, w: string) {
    w in s.workers && s.workers[w].Publishing? && s.workers[w].events != []
  }

  lemma PublishedNext(s: System, c: Account, w: string)
    requires LogsTagged(s, c) && OwnersOk(s, c) && Publishes(s, w)
    ensures w in c.owners && c.owners[w] < |c.attempts| && s.workers[w].runId in c.tags
            && s.workers[w].runId in s.store.events
    ensures var id, k := s.workers[w].runId, c.owners[w];
      var done := PublishedOf(c.tags[id], k);
      && |c.attempts[k].Events()| - |s.workers[w].events| == done
      && Names(c.attempts, id, Tag(k, done), s.workers[w].events[0])
      && s.workers[w].events[1..] == c.attempts[k].Events()[done + 1..]
  {
    assert Owes(s, c, w);
  }

  lemma PublishLogs(s: System, c: Account, w: string, at: nat)
    requires LogsTagged(s, c) && OwnersOk(s, c) && Publishes(s, w) && s.workers[w].runId in s.store.runs
    ensures LogsTagged(DoPublish(s, w), Entered(c, s, Publish(w), at))
  {
    var t, d, id := DoPublish(s, w), Entered(c, s, Publish(w), at), s.workers[w].runId;
    PublishedNext(s, c, w);
    var k := c.owners[w];
    var log := s.store.events[id];
    assert Tagged(c.attempts, id, c.tags[id], log);
    OneMoreTag(c.attempts, id, c.tags[id], log, Tag(k, PublishedOf(c.tags[id], k)),
               StoredEvent(|log|, s.workers[w].events[0], s.now));
    forall i | i in t.store.events ensures Tagged(d.attempts, i, d.tags[i], t.store.events[i]) && InOrder(d.tags[i]) {
      assert i != id ==> Tagged(c.attempts, i, c.tags[i], s.store.events[i]);
    }
  }

  lemma PublishOwners(s: System, c: Account, w: string, at: nat)
    requires LogsTagged(s, c) && OwnersOk(s, c) && Publishes(s, w)
    ensures OwnersOk(DoPublish(s, w), Entered(c, s, Publish(w), at))
  {
    var t, d, id := DoPublish(s, w), Entered(c, s, Publish(w), at), s.workers[w].runId;
    PublishedNext(s, c, w);
    var tag := Tag(c.owners[w], PublishedOf(c.tags[id], c.owners[w]));
    forall v | v in t.workers ensures Owes(t, d, v) {
      assert Owes(s, c, v) && !Shares(s, c, v, w);
      if v in c.owners {
        PublishedMore(c.tags[id], tag, c.owners[v]);
      }
    }
    forall u, v | u in t.workers && v in t.workers ensures !Shares(t, d, u, v) {
      assert !Shares(s, c, u, v);
    }
  }

  // ---- Everything else ----

  /** No worker has begun to publish or moved on with it. */
  ghost predicate NobodyPublishes(s: System, t: System) {
    forall w {:trigger w in t.workers} :: w in t.workers && t.workers[w].Publishing?
        ==> w in s.workers && t.workers[w] == s.workers[w]
  }

  lemma OwnersStay(s: System, t: System, c: Account)
    requires OwnersOk(s, c) && NobodyPublishes(s, t)
    ensures OwnersOk(t, c)
  {
    forall w | w in t.workers ensures Owes(t, c, w) {
      assert w in s.workers ==> Owes(s, c, w);
    }
    forall v, w | v in t.workers && w in t.workers ensures !Shares(t, c, v, w) {
      assert v in s.workers && w in s.workers ==> !Shares(s, c, v, w);
    }
  }

  lemma LogsStay(s: System, t: System, c: Account)
    requires LogsTagged(s, c) && t.store.events == s.store.events
    ensures LogsTagged(t, c)
  {
    forall id | id in t.store.events
      ensures Tagged(c.attempts, id, c.tags[id], t.store.events[id]) && InOrder(c.tags[id]) {
      assert Tagged(c.attempts, id, c.tags[id], s.store.events[id]);
    }
  }

  lemma WinnersStay(s: System, t: System, c: Account)
    requires WinnersOk(s, c)
    requires t.history == s.history || exists f: Fact :: !f.deed.Committed? && t.history == s.history + [f]
    ensures WinnersOk(t, c)
  {
    forall id ensures Won(c.attempts, id) == Commits(t.history, id) {
      LittleCommitsNothing(s.history, t.history, id);
    }
  }

  lemma {:induction false} WinnersThroughRecovery(kind: Recovery, s: System, ids: seq<string>, c: Account)
    requires WinnersOk(s, c)
    ensures WinnersOk(RecoverEach(kind, s, ids), c)
  {
    if ids != [] {
      var init, last := ids[..|ids| - 1], ids[|ids| - 1];
      WinnersThroughRecovery(kind, s, init, c);
      WinnersAfterOne(kind, RecoverEach(kind, s, init), last, c);
    }
  }

  lemma WinnersAfterOne(kind: Recovery, s: System, id: string, c: Account)
    requires WinnersOk(s, c)
    ensures WinnersOk(RecoverOne(kind, s, id), c)
  {
    var f := Fact(id, Recovered(kind));
    assert !f.deed.Committed? && (id in s.store.runs ==> RecoverOne(kind, s, id).history == s.history + [f]);
    WinnersStay(s, RecoverOne(kind, s, id), c);
  }

  lemma RecoveryEntered(kind: Recovery, s: System, ids: seq<string>, c: Account)
    requires Accounted(s, c) && forall id <- ids :: id in s.store.runs
    ensures Accounted(RecoverEach(kind, s, ids), c)
  {
    var t := RecoverEach(kind, s, ids);
    RecoverEachIsTheBatch(kind, s, ids);
    EventStream.RecoveryKeepsLogs(kind, s, ids);
    LogsStay(s, t, c);
    OwnersStay(s, t, c);
    WinnersThroughRecovery(kind, s, ids, c);
  }

  lemma CreateEntered(s: System, c: Account, run: NewRun, at: nat)
    requires Accounted(s, c) && Valid(s.store)
    ensures Accounted(DoCreate(s, run), Entered(c, s, Create(run), at))
  {
    var t, d := DoCreate(s, run), Entered(c, s, Create(run), at);
    if run.runId !in s.store.runs {
      var f := Fact(run.runId, Created);
      assert !f.deed.Committed? && t.history == s.history + [f];
      WinnersStay(s, t, c);
      CreateLogs(s, c, run, at);
      CreateOwners(s, c, run, at);
    }
  }

  lemma CreateLogs(s: System, c: Account, run: NewRun, at: nat)
    requires LogsTagged(s, c) && Valid(s.store) && run.runId !in s.store.runs
    ensures LogsTagged(DoCreate(s, run), Entered(c, s, Create(run), at))
  {
    var t, d := DoCreate(s, run), Entered(c, s, Create(run), at);
    forall id | id in t.store.events
      ensures Tagged(d.attempts, id, d.tags[id], t.store.events[id]) && InOrder(d.tags[id]) {
      assert id != run.runId ==> Tagged(c.attempts, id, c.tags[id], s.store.events[id]);
    }
  }

  lemma CreateOwners(s: System, c: Account, run: NewRun, at: nat)
    requires LogsTagged(s, c) && OwnersOk(s, c) && Valid(s.store) && run.runId !in s.store.runs
    ensures OwnersOk(DoCreate(s, run), Entered(c, s, Create(run), at))
  {
    var t, d := DoCreate(s, run), Entered(c, s, Create(run), at);
    assert run.runId !in c.tags;
    forall w | w in t.workers ensures Owes(t, d, w) {
      assert Owes(s, c, w);
    }
    forall v, w | v in t.workers && w in t.workers ensures !Shares(t, d, v, w) {
      assert !Shares(s, c, v, w);
    }
  }

  lemma OthersPublishNothing(p: Params, s: System, a: Action)
    requires !a.Save? && !a.RecoverBatch?
    requires a.Publish? ==> !Publishes(s, a.worker)
    ensures NobodyPublishes(s, Perform(p, s, a))
  {
  }

  lemma OthersReportNoCommit(p: Params, s: System, a: Action, c: Account)
    requires WinnersOk(s, c) && !a.Save? && !a.RecoverBatch?
    ensures WinnersOk(Perform(p, s, a), c)
  {
    OthersReportLittle(p, s, a);
    WinnersStay(s, Perform(p, s, a), c);
  }

  lemma PublishEntered(config: Config, s: System, c: Account, w: string, at: nat)
    requires Accounted(s, c) && ProgressOk(config, s) && Publishes(s, w)
    ensures Accounted(DoPublish(s, w), Entered(c, s, Publish(w), at))
  {
    assert PcOk(config, s.store, s.workers[w]);
    PublishLogs(s, c, w, at);
    PublishOwners(s, c, w, at);
    WinnersStay(s, DoPublish(s, w), c);
  }

  lemma SaveEntered(config: Config, s: System, c: Account, w: string, stepId: string, at: nat)
    requires Accounted(s, c) && ProgressOk(config, s)
    ensures Accounted(DoSave(s, w, stepId), Entered(c, s, Save(w, stepId), at))
  {
    if w in s.workers && s.workers[w].Computed? {
      SaveLogs(s, c, w, stepId, at);
      SaveOwners(config, s, c, w, stepId, at);
      SaveWinners(s, c, w, stepId, at);
    }
  }

  lemma OthersEntered(p: Params, s: System, a: Action, c: Account)
    requires Accounted(s, c) && !a.Save? && !a.RecoverBatch? && !a.Create? && (a.Publish? ==> !Publishes(s, a.worker))
    ensures Accounted(Perform(p, s, a), c)
  {
    var t := Perform(p, s, a);
    if !a.Publish? {
      EventStream.OthersKeepLogs(p, s, a);
    }
    LogsStay(s, t, c);
    OthersPublishNothing(p, s, a);
    OwnersStay(s, t, c);
    OthersReportNoCommit(p, s, a, c);
  }

  lemma ClientEntry(p: Params, s: System, a: Action, c: Account, at: nat)
    requires Accounted(s, c) && ProgressOk(p.config, s) && !a.Save? && (a.Publish? ==> !Publishes(s, a.worker))
    ensures Accounted(Perform(p, s, a), Entered(c, s, a, at))
  {
    var t, d := Perform(p, s, a), Entered(c, s, a, at);
    if a.Create? {
      CreateEntered(s, c, a.run, at);
      SameAccounted(DoCreate(s, a.run), Entered(c, s, Create(a.run), at), t, d);
    } else if a.RecoverBatch? {
      var ids := Candidates(a.kind, s.store, a.limit, s.now);
      RecoveryEntered(a.kind, s, ids, c);
      SameAccounted(RecoverEach(a.kind, s, ids), c, t, d);
    } else {
      OthersEntered(p, s, a, c);
      SameAccounted(t, c, t, d);
    }
  }

  lemma SameAccounted(s: System, c: Account, t: System, d: Account)
    requires Accounted(s, c) && t == s && d == c
    ensures Accounted(t, d)
  {
  }

  /** Every action keeps the account right. */
  lemma EntryStep(p: Params, s: System, a: Action, c: Account, at: nat)
    requires Accounted(s, c) && ProgressOk(p.config, s)
    ensures Accounted(Perform(p, s, a), Entered(c, s, a, at))
  {
    var t, d := Perform(p, s, a), Entered(c, s, a, at);
    if a.Save? {
      SaveEntered(p.config, s, c, a.worker, a.stepId, at);
      SameAccounted(DoSave(s, a.worker, a.stepId), Entered(c, s, Save(a.worker, a.stepId), at), t, d);
    } else if a.Publish? && Publishes(s, a.worker) {
      PublishEntered(p.config, s, c, a.worker, at);
      SameAccounted(DoPublish(s, a.worker), Entered(c, s, Publish(a.worker), at), t, d);
    } else {
      ClientEntry(p, s, a, c, at);
    }
  }

  lemma {:induction false} AlwaysAccounted(p: Params, actions: seq<Action>)
    ensures Accounted(Run(p, actions), AccountOf(p, actions))
  {
    if actions != [] {
      var init := actions[..|actions| - 1];
      AlwaysAccounted(p, init);
      Always(p, init);
      EntryStep(p, Run(p, init), actions[|actions| - 1], AccountOf(p, init), |init|);
    }
  }

  // ---- What the log holds ----

  /** The stored log of a run is, event for event, an interleaving of what its attempts have published: each attempt's
      events in order from the first on. The attempts that won are the committed steps, in order. */
  lemma LogIsItsAttempts(p: Params, actions: seq<Action>, id: string)
    requires id in Run(p, actions).store.runs
    ensures var s, c := Run(p, actions), AccountOf(p, actions);
      && id in s.store.events && id in c.tags
      && Tagged(c.attempts, id, c.tags[id], s.store.events[id]) && InOrder(c.tags[id])
      && Won(c.attempts, id) == Commits(s.history, id)
  {
    AlwaysAccounted(p, actions);
    Always(p, actions);
    var s, c := Run(p, actions), AccountOf(p, actions);
    assert Tagged(c.attempts, id, c.tags[id], s.store.events[id]);
  }

  /** Attempt k is the save that was action number `at`, by a worker that had computed this step. */
  predicate Saved(p: Params, actions: seq<Action>, attempt: Attempt) {
    && attempt.at < |actions| && actions[attempt.at].Save?
    && var s, w := Run(p, actions[..attempt.at]), actions[attempt.at].worker;
       w in s.workers && s.workers[w].Computed? && attempt == AttemptOf(s, w, attempt.at)
  }

  lemma SavedEarlier(p: Params, init: seq<Action>, actions: seq<Action>, attempt: Attempt)
    requires init <= actions && Saved(p, init, attempt)
    ensures Saved(p, actions, attempt)
  {
    assert init[..attempt.at] == actions[..attempt.at];
  }

  lemma {:induction false} AttemptsAreSaves(p: Params, actions: seq<Action>, k: nat)
    requires k < |AccountOf(p, actions).attempts|
    ensures Saved(p, actions, AccountOf(p, actions).attempts[k])
  {
    var init := actions[..|actions| - 1];
    if k < |AccountOf(p, init).attempts| {
      AttemptsAreSaves(p, init, k);
      SavedEarlier(p, init, actions, AccountOf(p, init).attempts[k]);
    }
  }

  lemma SavedWonIff(p: Params, actions: seq<Action>, attempt: Attempt)
    requires Saved(p, actions, attempt)
    ensures var before, id := Run(p, actions[..attempt.at]), attempt.runId;
      && id in before.store.runs
      && (attempt.won <==>
            attempt.commit.base == before.store.runs[id].Current() && !Stopped(Commits(before.history, id)))
  {
    var before, w := Run(p, actions[..attempt.at]), actions[attempt.at].worker;
    Always(p, actions[..attempt.at]);
    SaveIsCompareAndSwap(p.config, before, w);
    assert PcOk(p.config, before.store, before.workers[w]);
  }

  /** An event in the log is that of a step that was not committed exactly when, at the save of its attempt, the
      checkpoint the worker had started from was no longer the current one or the run had already stopped. */
  lemma UncommittedEventIff(p: Params, actions: seq<Action>, id: string, log: seq<StoredEvent>, i: nat)
    returns (attempt: Attempt, position: nat)
    requires EventStream.LogAfter(p, actions, id, log) && i < |log|
    ensures attempt in AccountOf(p, actions).attempts && attempt.runId == id && Saved(p, actions, attempt)
    ensures position < |attempt.Events()| && log[i].event == attempt.Events()[position]
    ensures var before := Run(p, actions[..attempt.at]);
      && id in before.store.runs
      && (!attempt.won <==>
            attempt.commit.base != before.store.runs[id].Current() || Stopped(Commits(before.history, id)))
    ensures attempt.won ==> attempt.commit in Commits(Run(p, actions).history, id)
  {
    Always(p, actions);
    LogIsItsAttempts(p, actions, id);
    var c := AccountOf(p, actions);
    var tag := c.tags[id][i];
    assert Names(c.attempts, id, tag, log[i].event);
    attempt, position := c.attempts[tag.attempt], tag.position;
    AttemptsAreSaves(p, actions, tag.attempt);
    SavedWonIff(p, actions, attempt);
    if attempt.won {
      WonIsThere(c.attempts, tag.attempt, id);
    }
  }

  lemma {:induction false} WonIsThere(attempts: seq<Attempt>, k: nat, id: string)
    requires k < |attempts| && attempts[k].won && attempts[k].runId == id
    ensures attempts[k].commit in Won(attempts, id)
  {
    if k < |attempts| - 1 {
      WonIsThere(attempts[..|attempts| - 1], k, id);
    }
  }
}
