/** What a task carries: nobody rewrites the work that was submitted, and a requeue or a move
    changes its note and its assignment only. */
module Records {
  import opened Coordination
  import opened Guard
  import opened TaskScripts
  import opened WorkflowScripts
  import opened Protocol
  import opened Fences
  import opened Conservation
  import opened Bookkeeping
  import opened Tokens

  /** The same work, under another note or in other hands. */
  predicate SameWork(a: Task, b: Task) {
    && b.submittedAt == a.submittedAt && b.cancelKeys == a.cancelKeys && b.scope == a.scope
    && b.data.resource == a.data.resource && b.data.base == a.data.base && b.data.nodeId == a.data.nodeId
    && b.data.hostname == a.data.hostname
    && ((b.assignee == a.assignee && b.assignedAt == a.assignedAt) || (b.assignee == None && b.assignedAt == ""))
  }

  /** Also under the same note and assignment. */
  predicate SameOrder(a: Task, b: Task) {
    SameWork(a, b) && b.data.note == a.data.note && b.assignee == a.assignee && b.assignedAt == a.assignedAt
  }

  /** The event puts the task back for others, with a note that says why. */
  predicate Reissues(w: World, e: Event, id: string)
    requires Enabled(w, e)
  {
    (e.RequeueClaim? || e.MoveWaiting?) && Subject(w, e) == id && Reply(w, e).code == 1
  }

  /** The id keeps its work over the event. */
  ghost predicate KeepsWork(w: World, e: Event, id: string)
    requires Enabled(w, e)
  {
    id in w.db.tasks ==>
      && id in Apply(w, e).db.tasks && SameWork(w.db.tasks[id], Apply(w, e).db.tasks[id])
      && (Reissues(w, e, id) || SameOrder(w.db.tasks[id], Apply(w, e).db.tasks[id]))
  }

  ghost predicate Keeping(db: Redis, db': Redis, id: string) {
    id in db.tasks ==> id in db'.tasks && SameOrder(db.tasks[id], db'.tasks[id])
  }

  lemma {:induction false} WithdrawAllKeeps(db: Redis, order: seq<string>, id: string)
    ensures Keeping(db, WithdrawAll(db, order), id)
    decreases |order|
  {
    hide Copies, Entries, Unqueue, Disarm;
    if order != [] {
      var d := Withdraw(db, order[0], ENDED);
      assert order[0] != id ==> SameSlot(db, d, id);
      WithdrawAllKeeps(d, order[1..], id);
    }
  }

  lemma CancelKeeps(db: Redis, x: string, id: string)
    ensures Keeping(db, Cancel(db, x), id)
  {
    hide Copies, Entries, Unqueue, Disarm, Condemn;
    if x != id {
      var d := db.(life := Condemn(db.life, x));
      assert SameSlot(d, Withdraw(d, x, CANCELLED), id);
    }
  }

  lemma FinishKeeps(db: Redis, e: Event, id: string)
    requires e.FinishParent?
    ensures Keeping(db, Finish(db, e.parent, e.generation, e.status, e.reason, e.body, e.order).db, id)
  {
    hide WithdrawAll, Close;
    if Finishable(db.life, e.parent, e.generation) {
      WithdrawAllKeeps(db.(life := Close(db.life, e.parent, e.generation, e.status, e.reason, e.body)), e.order, id);
    }
  }

  lemma ClaimKeeps(w: World, e: Event, id: string)
    requires Enabled(w, e) && e.ClaimTask?
    ensures Keeping(w.db, Apply(w, e).db, id)
  {
    hide ClaimNext, PushEntry, Admits;
    ClaimNextIssues(w.db, e.queue, e.worker, e.instance, e.token, e.limit);
  }

  lemma BulkKeeps(w: World, e: Event, id: string)
    requires Enabled(w, e) && !SingleTask(e)
    ensures Keeping(w.db, Apply(w, e).db, id)
  {
    hide Keeping;
    if e.ClaimTask? {
      ClaimKeeps(w, e, id);
    } else if e.FinishParent? {
      FinishRuns(w, e);
      FinishKeeps(w.db, e, id);
    } else if e.CancelId? {
      CancelRuns(w, e);
      CancelKeeps(w.db, e.id, id);
    } else {
      PopCpuRuns(w, e);
      PoppedKeeps(w.db, Apply(w, e).db, id);
    }
  }

  lemma PoppedKeeps(db: Redis, db': Redis, id: string)
    requires db'.(queues := db.queues) == db
    ensures Keeping(db, db', id)
  {
  }

  lemma SlotKeeps(db: Redis, db': Redis, id: string)
    requires SameSlot(db, db', id)
    ensures Keeping(db, db', id)
  {
  }

  lemma HolderKeeps(w: World, e: Event)
    requires Enabled(w, e) && OnToken(e)
    ensures KeepsWork(w, e, Subject(w, e))
  {
    hide KeepsWork;
    if e.RequeueClaim? { RequeueKeeps(w, e); }
    else if e.MarkProcessing? || e.ReturnClaim? || e.AckClaim? { GateKeeps(w, e); }
    else { EndKeeps(w, e); }
  }

  lemma RequeueKeeps(w: World, e: Event)
    requires Enabled(w, e) && e.RequeueClaim?
    ensures KeepsWork(w, e, w.claims[e.token].id)
  {
    hide Requeue, SameWork, Keeping;
    var i := w.claims[e.token];
    if i.id in w.db.tasks {
      var t := w.db.tasks[i.id];
      RequeueScriptKeeps(w.db, i.id, i.worker, e.token, if e.restore then i.source else Pool(t.data.resource), e.note,
                         e.restore, i.base, e.mode);
    }
  }

  lemma RequeueScriptKeeps(db: Redis, id: string, v: Worker, token: string, dest: Queue, note: string, restore: bool,
                           base: Option<string>, mode: Release)
    requires id in db.tasks
    ensures var t := db.tasks[id];
            var o := Requeue(db, id, v, token, dest, t.data.(note := note), if restore then t.assignee else None,
                             if restore then t.assignedAt else "", base, mode);
            id in o.db.tasks && SameWork(t, o.db.tasks[id]) && (o.code == 1 || SameOrder(t, o.db.tasks[id]))
  {
    hide Copies, Entries, Admits, DropEntry, Repush, Marked;
  }

  lemma GateKeeps(w: World, e: Event)
    requires Enabled(w, e) && (e.MarkProcessing? || e.ReturnClaim? || e.AckClaim?)
    ensures KeepsWork(w, e, w.claims[e.token].id)
  {
    hide Mark, Return, Ack, SameOrder, SameWork;
    var i := w.claims[e.token];
    GateScriptsKeep(w.db, i.id, i.worker, i.instance, i.source, e.token, i.base, e.AckClaim? && e.release);
    assert forall a, b :: SameOrder(a, b) ==> SameWork(a, b) by { OrderIsWork(); }
  }

  lemma OrderIsWork()
    ensures forall a, b :: SameOrder(a, b) ==> SameWork(a, b)
  {
  }

  lemma GateScriptsKeep(db: Redis, id: string, v: Worker, instance: string, source: Queue, token: string,
                        base: Option<string>, release: bool)
    ensures Keeping(db, Mark(db, id, v, instance, source, token, base).db, id)
    ensures Keeping(db, Return(db, id, v, source, token).db, id)
    ensures Keeping(db, Ack(db, id, v, token, release).db, id)
  {
    hide Copies, Entries, Admits, GiveBack, DropEntry, Marked, Touches, Quiet;
  }

  lemma EndKeeps(w: World, e: Event)
    requires Enabled(w, e) && (e.FreezeClaim? || e.FinalizeClaim? || e.ObserveCancelled? || e.DropStale?)
    ensures KeepsWork(w, e, w.claims[e.token].id)
  {
    hide Copies, Entries, Admits, DropEntry, CancelSeen;
  }

  lemma OwnIdKeeps(w: World, e: Event)
    requires Enabled(w, e) && SingleTask(e) && !OnToken(e) && !OnLife(e) && !Retires(e, Subject(w, e))
    ensures KeepsWork(w, e, Subject(w, e))
  {
    hide Copies, Entries, Admits, Publish, NewTask, Repush, TakeOne, Push, Marked;
  }

  lemma KeepingIsWork(w: World, e: Event, id: string)
    requires Enabled(w, e) && Keeping(w.db, Apply(w, e).db, id)
    ensures KeepsWork(w, e, id)
  {
    hide Apply, Reply, Enabled;
  }

  lemma EventKeepsWork(w: World, e: Event, id: string)
    requires Enabled(w, e) && !Retires(e, id)
    ensures KeepsWork(w, e, id)
  {
    hide Keeping, KeepsWork, SameSlot, Apply, Reply, Enabled, Retires;
    if !SingleTask(e) {
      BulkKeeps(w, e, id);
      KeepingIsWork(w, e, id);
    } else if OnLife(e) {
      LifeEventKeepsSlots(w, e, id);
      SlotKeeps(w.db, Apply(w, e).db, id);
      KeepingIsWork(w, e, id);
    } else if id != Subject(w, e) {
      OthersKeepTheirSlot(w, e, id);
      SlotKeeps(w.db, Apply(w, e).db, id);
      KeepingIsWork(w, e, id);
    } else if OnToken(e) {
      HolderKeeps(w, e);
    } else {
      OwnIdKeeps(w, e);
    }
  }

  /** Over every run in which the id is not replaced, discarded or expired, it keeps its work. */
  lemma {:induction false} WorkIsKept(w: World, es: seq<Event>, id: string)
    requires CanRun(w, es) && id in w.db.tasks
    requires forall i :: 0 <= i < |es| ==> !Retires(es[i], id)
    ensures id in After(w, es).db.tasks && SameWork(w.db.tasks[id], After(w, es).db.tasks[id])
    decreases |es|
  {
    hide Apply, Enabled, Retires, Reissues, SameOrder;
    if es != [] {
      assert !Retires(es[0], id);
      EventKeepsWork(w, es[0], id);
      forall i | 0 <= i < |es[1..]| ensures !Retires(es[1..][i], id) { assert es[1..][i] == es[i + 1]; }
      WorkIsKept(Apply(w, es[0]), es[1..], id);
    }
  }

  /** So what was submitted is what runs: from its creation on, in every world of every run, the
      task names the resource, the base, the node and the host of its submission, can be
      cancelled through the names it was submitted under, belongs to its workflow generation, and
      waits for the worker it was assigned to or for any. */
  lemma SubmittedWorkIsKept(w: World, e: Event, es: seq<Event>)
    requires Enabled(w, e) && (e.SubmitTask? || e.RefreshTask?) && Reply(w, e).code > 0 && CanRun(Apply(w, e), es)
    requires forall i :: 0 <= i < |es| ==> !Retires(es[i], e.id)
    ensures var db := After(Apply(w, e), es).db;
            && e.id in db.tasks
            && var t, s := db.tasks[e.id], e.sub;
               && t.data.resource == s.data.resource && t.data.base == s.data.base
               && t.data.nodeId == s.data.nodeId && t.data.hostname == s.data.hostname
               && t.submittedAt == s.submittedAt && t.scope == s.scope
               && ((t.assignee == s.assignee && t.assignedAt == (if s.assignee.Some? then s.submittedAt else ""))
                   || (t.assignee == None && t.assignedAt == ""))
               && (forall n :: n in t.cancelKeys <==>
                     || n == Name.Child(e.id) || (s.data.base.Some? && n == Name.Parent(s.data.base.value))
                     || (s.source.Some? && n == Name.Child(s.source.value)))
  {
    hide Apply, Reply, Enabled, CanRun, After, Retires, SameWork, NewTask;
    SubmissionStores(w, e);
    WorkIsKept(Apply(w, e), es, e.id);
    SameFields(Apply(w, e).db.tasks[e.id], After(Apply(w, e), es).db.tasks[e.id]);
  }

  lemma SameFields(a: Task, b: Task)
    requires SameWork(a, b)
    ensures b.submittedAt == a.submittedAt && b.cancelKeys == a.cancelKeys && b.scope == a.scope
            && b.data == a.data.(note := b.data.note)
            && ((b.assignee == a.assignee && b.assignedAt == a.assignedAt)
                || (b.assignee == None && b.assignedAt == ""))
  {
  }

  lemma SubmissionStores(w: World, e: Event)
    requires Enabled(w, e) && (e.SubmitTask? || e.RefreshTask?) && Reply(w, e).code > 0
    ensures e.id in Apply(w, e).db.tasks
    ensures var t, s := Apply(w, e).db.tasks[e.id], e.sub;
            && t.data == s.data && t.submittedAt == s.submittedAt && t.scope == s.scope && t.assignee == s.assignee
            && t.assignedAt == (if s.assignee.Some? then s.submittedAt else "")
            && t.status == Pending && t.claim == None
            && (forall n :: n in t.cancelKeys <==>
                  || n == Name.Child(e.id) || (s.data.base.Some? && n == Name.Parent(s.data.base.value))
                  || (s.source.Some? && n == Name.Child(s.source.value)))
  {
    hide Submit, ForceRefresh, Copies, Entries;
  }
}
