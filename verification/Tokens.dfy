/** Claim tokens over whole runs: superseded tokens are powerless, executions of one
    incarnation exclude each other, and terminal commits happen once. */
module Tokens {
  import opened Coordination
  import opened Guard
  import opened TaskScripts
  import opened WorkflowScripts
  import opened Protocol
  import opened Fences
  import opened Conservation
  import opened Bookkeeping

  // ----- superseded tokens

  /** A token becomes current only by the claim that issues it. */
  lemma CurrentOnlyByClaim(w: World, e: Event, id: string, token: string)
    requires Enabled(w, e) && !Current(w.db, id, token)
    requires !(e.ClaimTask? && e.token == token)
    ensures !Current(Apply(w, e).db, id, token)
  {
    hide Entries, Copies, Submit, ForceRefresh, ClaimNext, Withdraw, WithdrawAll, DiscardParent, PushEntry;
    var db := Apply(w, e).db;
    if e.ClaimTask? {
      ClaimNextIssues(w.db, e.queue, e.worker, e.instance, e.token, e.limit);
    } else if e.SubmitTask? || e.RefreshTask? {
      assert e.id != id ==> SameSlot(w.db, db, id);
    } else if e.FinishParent? {
      FinishIsQuiet(w, e);
      assert id in db.tasks ==> Inherits(w.db, id, db.tasks[id]);
    } else if !e.DiscardFinished? {
      OtherEventsAreQuiet(w, e);
      assert id in db.tasks ==> Inherits(w.db, id, db.tasks[id]);
    }
  }

  predicate Superseded(w: World, token: string) {
    token in w.claims && !Current(w.db, w.claims[token].id, token)
  }

  lemma SupersededStays(w: World, e: Event, token: string)
    requires Enabled(w, e) && Superseded(w, token)
    ensures Superseded(Apply(w, e), token) && Apply(w, e).claims[token] == w.claims[token]
  {
    hide Reply;
    CurrentOnlyByClaim(w, e, w.claims[token].id, token);
  }

  /** A token once replaced or cleared never becomes current again. */
  lemma {:induction false} SupersededForGood(w: World, es: seq<Event>, token: string)
    requires CanRun(w, es) && Superseded(w, token)
    ensures Superseded(After(w, es), token) && After(w, es).claims[token] == w.claims[token]
    decreases |es|
  {
    hide Apply, Enabled, Superseded;
    if es != [] {
      SupersededStays(w, es[0], token);
      SupersededForGood(Apply(w, es[0]), es[1..], token);
    }
  }

  /** Whatever the holder of a superseded token calls, it can at most remove its own
      inflight entry. */
  lemma SupersededIsPowerless(w: World, e: Event)
    requires Enabled(w, e) && OnToken(e) && Superseded(w, e.token)
    ensures Apply(w, e).db == w.db
            || Apply(w, e).db == Forget(w.db, w.claims[e.token].id, w.claims[e.token].worker, e.token)
    ensures Apply(w, e).claims == w.claims && Apply(w, e).generations == w.generations && Apply(w, e).loose == w.loose
    ensures !e.ObserveCancelled? && !e.DropStale? && !(e.AckClaim? && w.claims[e.token].id !in w.db.tasks)
            ==> Reply(w, e).code <= 0
  {
    hide Apply, Reply, Enabled, Superseded;
    if e.RequeueClaim? {
      SupersededRequeue(w, e);
    } else if e.MarkProcessing? || e.ReturnClaim? {
      SupersededStart(w, e);
    } else if e.AckClaim? || e.FreezeClaim? {
      SupersededPause(w, e);
    } else {
      SupersededEnd(w, e);
    }
  }

  /** What a superseded holder's call comes to. */
  predicate Powerless(w: World, e: Event)
    requires Enabled(w, e) && OnToken(e)
  {
    && (|| Apply(w, e).db == w.db
        || Apply(w, e).db == Forget(w.db, w.claims[e.token].id, w.claims[e.token].worker, e.token))
    && Apply(w, e).claims == w.claims && Apply(w, e).generations == w.generations && Apply(w, e).loose == w.loose
    && (!e.ObserveCancelled? && !e.DropStale? && !(e.AckClaim? && w.claims[e.token].id !in w.db.tasks) ==>
          Reply(w, e).code <= 0)
  }

  lemma SupersededStart(w: World, e: Event)
    requires Enabled(w, e) && (e.MarkProcessing? || e.ReturnClaim?) && Superseded(w, e.token)
    ensures Powerless(w, e)
  {
    hide Forget, Entries, Copies;
  }

  lemma SupersededPause(w: World, e: Event)
    requires Enabled(w, e) && (e.AckClaim? || e.FreezeClaim?) && Superseded(w, e.token)
    ensures Powerless(w, e)
  {
    hide Forget, Entries, Copies;
  }

  lemma SupersededEnd(w: World, e: Event)
    requires Enabled(w, e) && (e.FinalizeClaim? || e.ObserveCancelled? || e.DropStale?) && Superseded(w, e.token)
    ensures Powerless(w, e)
  {
    hide Forget, Entries, Copies;
  }

  lemma SupersededRequeue(w: World, e: Event)
    requires Enabled(w, e) && e.RequeueClaim? && Superseded(w, e.token)
    ensures Powerless(w, e)
  {
    hide Forget, Entries, Copies;
  }

  // ----- exclusive execution

  /** A new incarnation of the id is stored. */
  predicate Creates(w: World, e: Event, id: string)
    requires Enabled(w, e)
  {
    (e.SubmitTask? || e.RefreshTask?) && e.id == id && Reply(w, e).code > 0
  }

  /** The attempt's own token is used to requeue it, with authority over its fence. */
  predicate ReleasedBy(w: World, e: Event, token: string)
    requires Enabled(w, e)
  {
    e.RequeueClaim? && e.token == token && e.mode != NoRelease && Reply(w, e).code == 1
  }

  predicate Dispatches(w: World, e: Event, id: string)
    requires Enabled(w, e)
  {
    (e.MarkProcessing? && w.claims[e.token].id == id && Reply(w, e).code == 1)
    || (e.MarkCpuTask? && e.id == id && Reply(w, e).code == 1)
  }

  /** The incarnation has been dispatched under `token` and cannot be dispatched again. */
  predicate Spent(db: Redis, id: string, token: string) {
    id in db.tasks ==>
      var t := db.tasks[id];
      || Terminal(t.status)
      || (t.status.Processing? && (t.claim.Some? ==> t.claim.value.token == token && !t.claim.value.recovery.Unfenced?))
  }

  lemma DispatchSpends(w: World, e: Event, token: string)
    requires Enabled(w, e) && e == MarkProcessing(token) && Dispatches(w, e, w.claims[token].id)
    ensures Spent(Apply(w, e).db, w.claims[token].id, token)
  {
    hide Entries, Copies, Admits, Forget;
  }

  lemma SpentIsNotDispatched(w: World, e: Event, id: string, token: string)
    requires Enabled(w, e) && Spent(w.db, id, token)
    ensures !Dispatches(w, e, id)
  {
    hide Entries, Copies, Admits, Forget;
  }

  lemma SpentHolder(w: World, e: Event, id: string, token: string)
    requires Enabled(w, e) && OnToken(e) && w.claims[e.token].id == id && Spent(w.db, id, token)
    requires !ReleasedBy(w, e, token)
    ensures Spent(Apply(w, e).db, id, token)
  {
    hide Apply, Reply, Enabled, Spent;
    if e.RequeueClaim? {
      SpentRequeue(w, e, id, token);
    } else if e.MarkProcessing? || e.ReturnClaim? {
      SpentStart(w, e, id, token);
    } else {
      SpentEnd(w, e, id, token);
    }
  }

  lemma SpentStart(w: World, e: Event, id: string, token: string)
    requires Enabled(w, e) && (e.MarkProcessing? || e.ReturnClaim?) && w.claims[e.token].id == id
    requires Spent(w.db, id, token)
    ensures Spent(Apply(w, e).db, id, token)
  {
    hide Entries, Copies, Admits, GiveBack, DropEntry;
  }

  lemma SpentEnd(w: World, e: Event, id: string, token: string)
    requires Enabled(w, e) && OnToken(e) && !e.RequeueClaim? && !e.MarkProcessing? && !e.ReturnClaim?
    requires w.claims[e.token].id == id && Spent(w.db, id, token)
    ensures Spent(Apply(w, e).db, id, token)
  {
    hide Entries, Copies, Admits, DropEntry;
  }

  lemma SpentRequeue(w: World, e: Event, id: string, token: string)
    requires Enabled(w, e) && e.RequeueClaim? && w.claims[e.token].id == id && Spent(w.db, id, token)
    requires !ReleasedBy(w, e, token)
    ensures Spent(Apply(w, e).db, id, token)
  {
    hide Entries, Copies, Admits, DropEntry, Repush;
  }

  lemma {:induction false} WithdrawAllKeepsSpent(db: Redis, order: seq<string>, id: string, token: string)
    requires Spent(db, id, token)
    ensures Spent(WithdrawAll(db, order), id, token)
    decreases |order|
  {
    hide Entries, Copies, Unqueue, Disarm;
    if order != [] {
      var d := Withdraw(db, order[0], ENDED);
      assert order[0] != id ==> SameSlot(db, d, id);
      WithdrawAllKeepsSpent(d, order[1..], id, token);
    }
  }

  lemma SpentElsewhere(w: World, e: Event, id: string, token: string)
    requires Enabled(w, e) && Spent(w.db, id, token)
    requires SingleTask(e) && !OnToken(e) && !Creates(w, e, id)
    ensures Spent(Apply(w, e).db, id, token)
  {
    hide Entries, Copies, Admits, Repush, TakeOne, Submit, ForceRefresh, NewTask;
    if id != Subject(w, e) {
      hide Reply, Subject;
      OthersKeepTheirSlot(w, e, id);
    }
  }

  lemma FinishKeepsSpent(db: Redis, e: Event, id: string, token: string)
    requires e.FinishParent? && Spent(db, id, token)
    ensures Spent(Finish(db, e.parent, e.generation, e.status, e.reason, e.body, e.order).db, id, token)
  {
    hide WithdrawAll, Close;
    if Finishable(db.life, e.parent, e.generation) {
      WithdrawAllKeepsSpent(db.(life := Close(db.life, e.parent, e.generation, e.status, e.reason, e.body)), e.order,
                            id, token);
    }
  }

  lemma SpentInBulk(w: World, e: Event, id: string, token: string)
    requires Enabled(w, e) && Spent(w.db, id, token) && !SingleTask(e)
    ensures Spent(Apply(w, e).db, id, token)
  {
    hide Spent;
    if e.ClaimTask? {
      ClaimKeepsSpent(w, e, id, token);
    } else if e.FinishParent? {
      FinishRuns(w, e);
      FinishKeepsSpent(w.db, e, id, token);
    } else if e.CancelId? {
      CancelRuns(w, e);
      CancelKeepsSpent(w.db, e.id, id, token);
    } else {
      PopCpuRuns(w, e);
      SpentByTask(w.db, Apply(w, e).db, id, token);
    }
    hide Apply, Reply, Enabled;
  }

  lemma SpentByTask(db: Redis, db': Redis, id: string, token: string)
    requires db'.tasks == db.tasks && Spent(db, id, token)
    ensures Spent(db', id, token)
  {
  }

  lemma ClaimKeepsSpent(w: World, e: Event, id: string, token: string)
    requires Enabled(w, e) && Spent(w.db, id, token) && e.ClaimTask?
    ensures Spent(Apply(w, e).db, id, token)
  {
    hide ClaimNext, PushEntry, Admits;
    ClaimNextIssues(w.db, e.queue, e.worker, e.instance, e.token, e.limit);
  }

  lemma CancelKeepsSpent(db: Redis, x: string, id: string, token: string)
    requires Spent(db, id, token)
    ensures Spent(Cancel(db, x), id, token)
  {
    hide Entries, Copies, Unqueue, Disarm, Condemn;
    if x != id {
      var d := db.(life := Condemn(db.life, x));
      assert SameSlot(d, Withdraw(d, x, CANCELLED), id);
    }
  }

  lemma SpentStays(w: World, e: Event, id: string, token: string)
    requires Enabled(w, e) && Spent(w.db, id, token)
    requires !Creates(w, e, id) && !ReleasedBy(w, e, token)
    ensures Spent(Apply(w, e).db, id, token)
  {
    hide Apply, Reply;
    if !SingleTask(e) {
      SpentInBulk(w, e, id, token);
    } else if !OnToken(e) {
      SpentElsewhere(w, e, id, token);
    } else if w.claims[e.token].id == id {
      SpentHolder(w, e, id, token);
    } else {
      OthersKeepTheirSlot(w, e, id);
    }
  }

  /** Some event of the run creates a new incarnation of the id or releases the token. */
  predicate Reopened(w: World, es: seq<Event>, id: string, token: string)
    requires CanRun(w, es)
    decreases |es|
  {
    es != [] && (Creates(w, es[0], id) || ReleasedBy(w, es[0], token) || Reopened(Apply(w, es[0]), es[1..], id, token))
  }

  lemma {:induction false} SpentForGood(w: World, es: seq<Event>, id: string, token: string)
    requires CanRun(w, es) && Spent(w.db, id, token)
    requires !Reopened(w, es, id, token)
    ensures Spent(After(w, es).db, id, token)
    decreases |es|
  {
    hide Apply, Enabled, Spent, Creates, ReleasedBy;
    if es != [] {
      SpentStays(w, es[0], id, token);
      SpentForGood(Apply(w, es[0]), es[1..], id, token);
    }
  }

  /** Exclusive execution: after a task was dispatched under a token, no event dispatches it
      again, on a GPU or a CPU, unless in between that very token was requeued with
      authority over its fence or the id was given a new incarnation. */
  lemma ExclusiveExecution(w: World, first: Event, es: seq<Event>, second: Event)
    requires Enabled(w, first) && first.MarkProcessing? && Dispatches(w, first, w.claims[first.token].id)
    requires CanRun(Apply(w, first), es) && Enabled(After(Apply(w, first), es), second)
    requires Dispatches(After(Apply(w, first), es), second, w.claims[first.token].id)
    ensures Reopened(Apply(w, first), es, w.claims[first.token].id, first.token)
  {
    hide CanRun, After, Reopened, Spent, Dispatches;
    var id := w.claims[first.token].id;
    DispatchSpends(w, first, first.token);
    if !Reopened(Apply(w, first), es, id, first.token) {
      SpentForGood(Apply(w, first), es, id, first.token);
      SpentIsNotDispatched(After(Apply(w, first), es), second, id, first.token);
    }
  }

  // ----- executions without a claim

  /** The incarnation runs on a CPU, or has ended, and nobody holds a claim on it. */
  predicate RunsUnclaimed(db: Redis, id: string) {
    id in db.tasks ==> !db.tasks[id].status.Pending? && db.tasks[id].claim.None?
  }

  /** A token that this event does not use. */
  function Unused(e: Event): (t: string)
    ensures (OnToken(e) || e.ClaimTask?) ==> e.token != t
  {
    if OnToken(e) || e.ClaimTask? then e.token + "x" else ""
  }

  lemma UnclaimedStays(w: World, e: Event, id: string)
    requires Enabled(w, e) && RunsUnclaimed(w.db, id) && !Creates(w, e, id)
    ensures RunsUnclaimed(Apply(w, e).db, id)
  {
    hide Reply, Creates, ClaimNext, PushEntry, Admits, Copies, Entries;
    var t := Unused(e);
    assert Spent(w.db, id, t) && !ReleasedBy(w, e, t);
    SpentStays(w, e, id, t);
    var db := Apply(w, e).db;
    if id in db.tasks && db.tasks[id].claim.Some? {
      var token := db.tasks[id].claim.value.token;
      if !(e.ClaimTask? && e.token == token) {
        CurrentOnlyByClaim(w, e, id, token);
      } else {
        NotClaimedWhileRunning(w, e, id);
      }
    }
  }

  lemma NotClaimedWhileRunning(w: World, e: Event, id: string)
    requires Enabled(w, e) && e.ClaimTask? && RunsUnclaimed(w.db, id)
    ensures RunsUnclaimed(Apply(w, e).db, id)
  {
    hide ClaimNext, PushEntry, Admits;
    ClaimNextIssues(w.db, e.queue, e.worker, e.instance, e.token, e.limit);
  }

  /** Some event of the run creates a new incarnation of the id. */
  predicate Recreated(w: World, es: seq<Event>, id: string)
    requires CanRun(w, es)
    decreases |es|
  {
    es != [] && (Creates(w, es[0], id) || Recreated(Apply(w, es[0]), es[1..], id))
  }

  lemma {:induction false} UnclaimedForGood(w: World, es: seq<Event>, id: string)
    requires CanRun(w, es) && RunsUnclaimed(w.db, id) && !Recreated(w, es, id)
    ensures RunsUnclaimed(After(w, es).db, id)
    decreases |es|
  {
    hide Apply, Enabled, RunsUnclaimed, Creates;
    if es != [] {
      UnclaimedStays(w, es[0], id);
      UnclaimedForGood(Apply(w, es[0]), es[1..], id);
    }
  }

  /** Exclusive execution on a CPU: a task that nobody held when a CPU worker dispatched it is
      not dispatched again, on a CPU or a GPU, before the id is given a new incarnation. There
      is no token here, and no requeue either. */
  lemma CpuExclusiveExecution(w: World, first: Event, es: seq<Event>, second: Event)
    requires Enabled(w, first) && first.MarkCpuTask? && Dispatches(w, first, first.id)
    requires first.id in w.db.tasks && w.db.tasks[first.id].claim.None?
    requires CanRun(Apply(w, first), es) && Enabled(After(Apply(w, first), es), second)
    requires Dispatches(After(Apply(w, first), es), second, first.id)
    ensures Recreated(Apply(w, first), es, first.id)
  {
    hide CanRun, After, Recreated, RunsUnclaimed, Dispatches;
    CpuDispatchRuns(w, first);
    if !Recreated(Apply(w, first), es, first.id) {
      UnclaimedForGood(Apply(w, first), es, first.id);
      RunningIsNotDispatched(After(Apply(w, first), es), second, first.id);
    }
  }

  /** Why nobody may hold it: the CPU gate does not look at claims, and a holder that has not
      started may still requeue the task, which is then dispatched a second time. */
  lemma HeldTaskCanRunTwice(w: World, e: Event, token: string)
    requires Enabled(w, e) && e.MarkCpuTask? && Dispatches(w, e, e.id)
    requires Current(w.db, e.id, token) && w.db.tasks[e.id].claim.value.recovery.Unfenced?
    requires token in w.claims && w.claims[token].id == e.id && w.claims[token].base == w.db.tasks[e.id].data.base
    ensures var w1 := Apply(w, e);
            var requeue := RequeueClaim(token, true, NoRelease, "");
            && Enabled(w1, requeue) && !Creates(w1, requeue, e.id)
            && Enabled(Apply(w1, requeue), e) && Dispatches(Apply(w1, requeue), e, e.id)
  {
    hide Entries, Copies, Repush, DropEntry, Admits, Marked;
    CpuGate(w, e);
  }

  lemma CpuGate(w: World, e: Event)
    requires Enabled(w, e) && e.MarkCpuTask? && Dispatches(w, e, e.id)
    ensures e.id in w.db.tasks && Admitted(w.db, w.db.tasks[e.id])
            && !Marked(w.db.life, e.id, w.db.tasks[e.id].data.base)
    ensures Apply(w, e) == w.(db := w.db.(tasks := w.db.tasks[e.id := w.db.tasks[e.id].(status := Processing)]))
  {
    hide Admits, Marked;
  }

  lemma CpuDispatchRuns(w: World, e: Event)
    requires Enabled(w, e) && e.MarkCpuTask? && Dispatches(w, e, e.id)
    requires e.id in w.db.tasks && w.db.tasks[e.id].claim.None?
    ensures RunsUnclaimed(Apply(w, e).db, e.id)
  {
    hide Admits, Copies, Entries;
  }

  lemma RunningIsNotDispatched(w: World, e: Event, id: string)
    requires Enabled(w, e) && RunsUnclaimed(w.db, id)
    ensures !Dispatches(w, e, id)
  {
    hide Entries, Copies, Admits, Forget;
  }

  // ----- one terminal commit

  /** At most one terminal commit succeeds per claim token. */
  lemma OneCommitPerToken(w: World, first: Event, es: seq<Event>, second: Event)
    requires Enabled(w, first) && first.FinalizeClaim? && Reply(w, first).code == 1
    requires CanRun(Apply(w, first), es) && Enabled(After(Apply(w, first), es), second)
    requires second.FinalizeClaim? && second.token == first.token
    ensures Reply(After(Apply(w, first), es), second).code == 0
    ensures var v := After(Apply(w, first), es);
            Apply(v, second).db.tasks == v.db.tasks && Apply(v, second).db.results == v.db.results
  {
    hide CanRun, After, Superseded, Enabled;
    CommitSupersedes(w, first);
    SupersededForGood(Apply(w, first), es, first.token);
    LateCommit(After(Apply(w, first), es), second);
  }

  lemma CommitSupersedes(w: World, e: Event)
    requires Enabled(w, e) && e.FinalizeClaim? && Reply(w, e).code == 1
    ensures Superseded(Apply(w, e), e.token)
  {
    hide Entries, Copies;
  }

  lemma LateCommit(w: World, e: Event)
    requires Enabled(w, e) && e.FinalizeClaim? && Superseded(w, e.token)
    ensures Reply(w, e).code == 0
    ensures Apply(w, e).db.tasks == w.db.tasks && Apply(w, e).db.results == w.db.results
  {
    var i := w.claims[e.token];
    FinalizeRuns(w, e);
    hide Apply, Reply, Enabled;
    StaleFinalize(w.db, i.id, i.worker, e.token, e.status, e.result, e.allowFrozen);
  }

  lemma StaleFinalize(db: Redis, id: string, v: Worker, token: string, status: Status, result: string,
                      allowFrozen: bool)
    requires !Current(db, id, token)
    ensures var r := Finalize(db, id, v, token, status, result, allowFrozen);
            r.code == 0 && r.db.tasks == db.tasks && r.db.results == db.results
  {
    hide Copies, Entries;
  }

  lemma UnfinishableStays(w: World, e: Event, p: string, g: string)
    requires Bookkept(w.db.life, w.generations) && Enabled(w, e) && g in w.generations
    requires !Finishable(w.db.life, p, g)
    ensures !Finishable(LifeAfter(w, e), p, g)
  {
    hide DiscardTask;
  }

  lemma {:induction false} UnfinishableForGood(w: World, es: seq<Event>, p: string, g: string)
    requires Valid(w) && CanRun(w, es) && g in w.generations
    requires !Finishable(w.db.life, p, g)
    ensures !Finishable(After(w, es).db.life, p, g)
    decreases |es|
  {
    if es != [] {
      hide Finishable, Reply, Bookkept;
      ValidStays(w, es[0]);
      LifeAfterIsRight(w, es[0]);
      GenerationsAfterIsRight(w, es[0]);
      UnfinishableStays(w, es[0], p, g);
      hide Valid, Apply, Enabled;
      UnfinishableForGood(Apply(w, es[0]), es[1..], p, g);
    }
  }

  /** At most one terminal commit succeeds per parent generation: later finishes of the
      generation, by whichever process, change nothing. */
  lemma OneCommitPerGeneration(w: World, es: seq<Event>, late: Event)
    requires Valid(w) && CanRun(w, es) && Enabled(After(w, es), late)
    requires late.FinishParent? && late.generation in w.generations
    requires !Finishable(w.db.life, late.parent, late.generation)
    ensures Reply(After(w, es), late).code == 0 && Apply(After(w, es), late) == After(w, es)
  {
    hide CanRun, After, Valid;
    UnfinishableForGood(w, es, late.parent, late.generation);
  }

  // ----- terminal records stay fixed

  /** The events that may remove or atomically replace a terminal task or its result. */
  predicate Retires(e: Event, id: string) {
    (e.ExpireTask? || e.ExpireResult? || e.DiscardChild? || e.RefreshTask?) && e.id == id
  }

  predicate EndedTask(db: Redis, id: string) {
    id in db.tasks && Terminal(db.tasks[id].status) && db.tasks[id].claim.None?
  }

  predicate SameRecord(db: Redis, db': Redis, id: string) {
    id in db'.tasks && id in db.tasks && db'.tasks[id] == db.tasks[id] && SameResult(db, db', id)
  }

  lemma {:induction false} WithdrawAllFixes(db: Redis, order: seq<string>, id: string)
    requires EndedTask(db, id)
    ensures SameRecord(db, WithdrawAll(db, order), id)
    decreases |order|
  {
    hide Entries, Copies, Unqueue, Disarm;
    if order != [] {
      var d := Withdraw(db, order[0], ENDED);
      assert order[0] != id ==> SameSlot(db, d, id) && SameResult(db, d, id);
      WithdrawAllFixes(d, order[1..], id);
    }
  }

  lemma FinishFixes(db: Redis, e: Event, id: string)
    requires e.FinishParent? && EndedTask(db, id)
    ensures SameRecord(db, Finish(db, e.parent, e.generation, e.status, e.reason, e.body, e.order).db, id)
  {
    hide WithdrawAll, Close;
    if Finishable(db.life, e.parent, e.generation) {
      WithdrawAllFixes(db.(life := Close(db.life, e.parent, e.generation, e.status, e.reason, e.body)), e.order, id);
    }
  }

  lemma BulkFixes(w: World, e: Event, id: string)
    requires Enabled(w, e) && EndedTask(w.db, id) && !SingleTask(e)
    ensures SameRecord(w.db, Apply(w, e).db, id)
  {
    if e.ClaimTask? {
      ClaimFixes(w, e, id);
    } else if e.FinishParent? {
      FinishRuns(w, e);
      FinishFixes(w.db, e, id);
    } else if e.CancelId? {
      CancelRuns(w, e);
      CancelFixes(w.db, e.id, id);
    } else {
      PopCpuRuns(w, e);
    }
    hide Apply, Reply, Enabled;
  }

  lemma ClaimFixes(w: World, e: Event, id: string)
    requires Enabled(w, e) && EndedTask(w.db, id) && e.ClaimTask?
    ensures SameRecord(w.db, Apply(w, e).db, id)
  {
    hide ClaimNext, PushEntry, Admits;
    ClaimNextIssues(w.db, e.queue, e.worker, e.instance, e.token, e.limit);
  }

  lemma CancelFixes(db: Redis, x: string, id: string)
    requires EndedTask(db, id)
    ensures SameRecord(db, Cancel(db, x), id)
  {
    hide Entries, Copies, Unqueue, Disarm, Condemn;
    if x != id {
      var d := db.(life := Condemn(db.life, x));
      assert SameSlot(d, Withdraw(d, x, CANCELLED), id) && SameResult(d, Withdraw(d, x, CANCELLED), id);
    }
  }

  lemma TokenEventFixes(w: World, e: Event, id: string)
    requires Enabled(w, e) && EndedTask(w.db, id) && OnToken(e)
    ensures SameRecord(w.db, Apply(w, e).db, id)
  {
    hide Entries, Copies, Admits, GiveBack, DropEntry, Repush;
    if w.claims[e.token].id != id {
      hide Reply;
      OthersKeepTheirResult(w, e, id);
    }
  }

  lemma OthersKeepTheirResult(w: World, e: Event, id: string)
    requires Enabled(w, e) && SingleTask(e) && !OnLife(e) && id != Subject(w, e)
    ensures SameSlot(w.db, Apply(w, e).db, id) && SameResult(w.db, Apply(w, e).db, id)
  {
    hide Submit, ForceRefresh, Mark, Return, Ack, Freeze, Requeue, QueueWait, Finalize, ClaimlessCommit, MarkCpu;
    hide Copies, Entries, Push, NewTask, Forget;
  }

  lemma IdEventFixes(w: World, e: Event, id: string)
    requires Enabled(w, e) && EndedTask(w.db, id) && SingleTask(e) && !OnToken(e) && !OnLife(e)
    requires !Retires(e, id) && !(e.CommitClaimless? && e.id == id)
    ensures SameRecord(w.db, Apply(w, e).db, id)
  {
    hide Entries, Copies, Admits, Publish, NewTask, Repush, TakeOne, Push;
    if e.id != id {
      hide Reply;
      OthersKeepTheirResult(w, e, id);
    }
  }

  lemma LifeEventFixes(w: World, e: Event, id: string)
    requires Enabled(w, e) && EndedTask(w.db, id) && OnLife(e) && !Retires(e, id)
    ensures SameRecord(w.db, Apply(w, e).db, id)
  {
    LifeEventKeepsLists(w, e);
    ApplyKeepsReply(w, e);
    LifeEventKeepsResult(w, e, id);
    hide Apply, Reply, Enabled, Retires;
  }

  lemma LifeEventKeepsResult(w: World, e: Event, id: string)
    requires Enabled(w, e) && OnLife(e) && !Retires(e, id)
    ensures SameResult(w.db, Reply(w, e).db, id)
  {
    hide Submit, ForceRefresh, Mark, Return, Ack, Freeze, Requeue, QueueWait, Finalize, ClaimlessCommit, MarkCpu;
    hide NewTask, Forget, ClaimNext, Finish, Cancel, Accept, Renew, DiscardParent, DiscardTask;
  }

  /** A terminal task, its status and its result stay as they are until they expire, are
      discarded or are replaced by force-refresh, except for a completion without a claim. */
  lemma TerminalTaskIsFixed(w: World, e: Event, id: string)
    requires Enabled(w, e) && EndedTask(w.db, id)
    requires !Retires(e, id) && !(e.CommitClaimless? && e.id == id)
    ensures SameRecord(w.db, Apply(w, e).db, id)
  {
    hide Apply, EndedTask;
    if !SingleTask(e) {
      BulkFixes(w, e, id);
    } else if OnLife(e) {
      LifeEventFixes(w, e, id);
    } else if OnToken(e) {
      TokenEventFixes(w, e, id);
    } else {
      IdEventFixes(w, e, id);
    }
  }

  /** And so over every run: late completions, cancels and reconciliations are no-ops. */
  lemma {:induction false} TerminalForGood(w: World, es: seq<Event>, id: string)
    requires CanRun(w, es) && EndedTask(w.db, id)
    requires forall i :: 0 <= i < |es| ==> !Retires(es[i], id) && !(es[i].CommitClaimless? && es[i].id == id)
    ensures SameRecord(w.db, After(w, es).db, id)
    decreases |es|
  {
    hide Apply, Enabled, Retires;
    if es != [] {
      assert !Retires(es[0], id);
      TerminalTaskIsFixed(w, es[0], id);
      forall i | 0 <= i < |es[1..]| ensures !Retires(es[1..][i], id)
          && !(es[1..][i].CommitClaimless? && es[1..][i].id == id) {
        assert es[1..][i] == es[i + 1];
      }
      TerminalForGood(Apply(w, es[0]), es[1..], id);
    }
  }

  /** The same for a parent: its terminal status and result change only by a new accept,
      expiry or discard. */
  lemma TerminalParentIsFixed(w: World, e: Event, p: string)
    requires Enabled(w, e)
    requires p in w.db.life.parents && Terminal(w.db.life.parents[p].status)
    requires !((e.ExpireParent? || e.ExpireParentResult? || e.DiscardFinished? || e.AcceptParent?) && e.parent == p)
    ensures var life := Apply(w, e).db.life;
            && p in life.parents && life.parents[p] == w.db.life.parents[p]
            && (p in life.parentResults <==> p in w.db.life.parentResults)
            && (p in life.parentResults ==> life.parentResults[p] == w.db.life.parentResults[p])
  {
    LifeAfterIsRight(w, e);
    hide Reply, DiscardTask;
  }
}
