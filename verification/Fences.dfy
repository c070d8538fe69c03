/** A closed admission guard never opens again. */
module Fences {
  import opened Coordination
  import opened Guard
  import opened TaskScripts
  import opened WorkflowScripts
  import opened Protocol

  lemma {:induction false} WithdrawAllKeepsLife(db: Redis, order: seq<string>)
    ensures WithdrawAll(db, order).life == db.life
    ensures WithdrawAll(db, order).rosters == db.rosters
    decreases |order|
  {
    hide Withdraw;
    if order != [] {
      WithdrawAllKeepsLife(Withdraw(db, order[0], ENDED), order[1..]);
    }
  }

  predicate OnTask(e: Event) {
    !e.AcceptParent? && !e.RenewLease? && !e.FinishParent? && !e.CancelId? && !e.ExpireParent? && !e.ExpireParentResult?
    && !e.ExpireLease? && !e.ExpireMarker? && !e.DiscardFinished? && !e.Tick? && !e.DiscardChild?
  }

  /** Task events leave the workflow side alone. */
  lemma TaskEventKeepsLife(w: World, e: Event)
    requires Enabled(w, e) && OnTask(e)
    ensures Reply(w, e).db.life == w.db.life
  {
    hide Submit, ForceRefresh, ClaimNext, Mark, Return, Ack, Freeze, Requeue, QueueWait, Finalize, ClaimlessCommit,
        MarkCpu;
    hide Copies, Entries, Pop, Push, NewTask, Forget;
  }

  lemma FinishKeepsOrder(w: World, e: Event)
    requires Enabled(w, e) && e.FinishParent?
    ensures Reply(w, e).db.life ==
            if Finishable(w.db.life, e.parent, e.generation)
            then Close(w.db.life, e.parent, e.generation, e.status, e.reason, e.body) else w.db.life
  {
    hide Close, WithdrawAll;
    if Finishable(w.db.life, e.parent, e.generation) {
      WithdrawAllKeepsLife(w.db.(life := Close(w.db.life, e.parent, e.generation, e.status, e.reason, e.body)),
                           e.order);
    }
  }

  /** What an event does to the workflow side, without the task side. */
  function LifeAfter(w: World, e: Event): (r: Lifecycle)
    requires Enabled(w, e)
  {
    var life := w.db.life;
    match e
    case AcceptParent(p, g, hash, timeout, force) =>
      if AcceptReply(life, p, hash, force) == 1 then Open(life, p, g, hash, timeout, Planned(p, g)) else life
    case RenewLease(p, g) =>
      if FenceOpen(life, p, g) then life.(parents := life.parents[p := life.parents[p].(status := Processing)])
          else life
    case FinishParent(p, g, status, reason, body, _) =>
      if Finishable(life, p, g) then Close(life, p, g, status, reason, body) else life
    case CancelId(id) => Condemn(life, id)
    case ExpireParent(p) => life.(parents := life.parents - {p})
    case ExpireParentResult(p) => life.(parentResults := life.parentResults - {p})
    case ExpireLease(p) => life.(leases := life.leases - {p})
    case ExpireMarker(n) => life.(cancels := life.cancels - {n})
    case DiscardFinished(p, g) =>
      if p !in life.parents || life.parents[p].generation != g || !Terminal(life.parents[p].status) then life
      else life.(parents := life.parents - {p}, parentResults := life.parentResults - {p},
                 leases := life.leases - {p}, cancels := life.cancels - {Name.Parent(p)})
    case DiscardChild(id, g) =>
      if DiscardTask(w.db, id, g).code == 1 then life.(cancels := life.cancels - {Name.Child(id)}) else life
    case Tick(dt) => life.(now := life.now + dt)
    case _ => life
  }

  lemma ApplyKeepsReply(w: World, e: Event)
    requires Enabled(w, e)
    ensures Apply(w, e).db == Reply(w, e).db
  {
    hide Reply, Grabbed, Copies, Entries, Pop, BaseOf;
  }

  // ----- which script an event runs, one event at a time

  lemma FinalizeRuns(w: World, e: Event)
    requires Enabled(w, e) && e.FinalizeClaim?
    ensures var i := w.claims[e.token];
            && Reply(w, e) == Finalize(w.db, i.id, i.worker, e.token, e.status, e.result, e.allowFrozen)
            && Apply(w, e) == w.(db := Reply(w, e).db)
  {
    hide Finalize, Current;
  }

  lemma FinishRuns(w: World, e: Event)
    requires Enabled(w, e) && e.FinishParent?
    ensures Reply(w, e) == Finish(w.db, e.parent, e.generation, e.status, e.reason, e.body, e.order)
    ensures Apply(w, e) == w.(db := Reply(w, e).db)
  {
    hide Finish, Roster;
  }

  lemma CancelRuns(w: World, e: Event)
    requires e.CancelId?
    ensures Reply(w, e) == Outcome(Cancel(w.db, e.id), 1)
    ensures Apply(w, e) == w.(db := Reply(w, e).db)
  {
    hide Cancel;
  }

  lemma PopCpuRuns(w: World, e: Event)
    requires Enabled(w, e) && e.PopCpu?
    ensures Apply(w, e).db.(queues := w.db.queues) == w.db
  {
    hide Pop, CpuQueue;
  }

  lemma OwnerEventLife(w: World, e: Event)
    requires Enabled(w, e) && !OnTask(e) && !e.FinishParent?
    ensures Reply(w, e).db.life == LifeAfter(w, e)
  {
    hide Submit, ForceRefresh, ClaimNext, Mark, Return, Ack, Freeze, Requeue, QueueWait, Finalize, ClaimlessCommit,
        MarkCpu,
         Copies, Entries, Pop, Push, NewTask, Forget, Close, Finish, Open, Condemn, Withdraw;
  }

  lemma LifeAfterIsRight(w: World, e: Event)
    requires Enabled(w, e)
    ensures Reply(w, e).db.life == LifeAfter(w, e) && Apply(w, e).db == Reply(w, e).db
  {
    ApplyKeepsReply(w, e);
    if OnTask(e) {
      hide Reply, Apply;
      TaskEventKeepsLife(w, e);
    } else if e.FinishParent? {
      hide Reply, Apply, Close;
      FinishKeepsOrder(w, e);
    } else {
      hide Reply, Apply, LifeAfter;
      OwnerEventLife(w, e);
    }
  }

  /** One generation's fence, once shut, stays shut: no event reopens it. */
  lemma FenceStaysShut(w: World, e: Event, p: string, g: string)
    requires Bookkept(w.db.life, w.generations) && Enabled(w, e)
    requires g in w.generations
    requires !FenceOpen(w.db.life, p, g)
    ensures !FenceOpen(LifeAfter(w, e), p, g)
  {
    hide DiscardTask;
  }

  /** The guard of any task whose generation was ever issued: false now, false for ever. */
  lemma GuardStaysShut(w: World, e: Event, keys: set<Name>, scope: Option<Scope>)
    requires Bookkept(w.db.life, w.generations) && Enabled(w, e)
    requires scope.Some? ==> scope.value.generation in w.generations
    requires !Admits(w.db.life, keys, scope)
    ensures !Admits(LifeAfter(w, e), keys, scope)
  {
    hide DiscardTask, FenceOpen;
    assert w.db.life.tombstones <= LifeAfter(w, e).tombstones && w.db.life.now <= LifeAfter(w, e).now;
    if scope.Some? && !FenceOpen(w.db.life, scope.value.parent, scope.value.generation) {
      FenceStaysShut(w, e, scope.value.parent, scope.value.generation);
    }
  }

  function GenerationsAfter(w: World, e: Event): map<string, string>
    requires Enabled(w, e)
  {
    if e.AcceptParent? then w.generations[e.generation := e.parent] else w.generations
  }

  lemma AcceptKeepsBooks(w: World, e: Event)
    requires Bookkept(w.db.life, w.generations) && Enabled(w, e) && e.AcceptParent?
    ensures Bookkept(LifeAfter(w, e), GenerationsAfter(w, e))
  {
  }

  lemma EndingKeepsBooks(w: World, e: Event)
    requires Bookkept(w.db.life, w.generations) && Enabled(w, e) && (e.FinishParent? || e.CancelId?)
    ensures Bookkept(LifeAfter(w, e), GenerationsAfter(w, e))
  {
  }

  lemma BookkeptStays(w: World, e: Event)
    requires Bookkept(w.db.life, w.generations) && Enabled(w, e)
    ensures Bookkept(LifeAfter(w, e), GenerationsAfter(w, e))
  {
    hide LifeAfter, Bookkept, Enabled;
    if e.AcceptParent? {
      AcceptKeepsBooks(w, e);
    } else if e.FinishParent? || e.CancelId? {
      EndingKeepsBooks(w, e);
    } else if e.DiscardFinished? || e.RenewLease? {
      CallKeepsBooks(w, e);
    } else {
      PassingKeepsBooks(w, e);
    }
  }

  lemma CallKeepsBooks(w: World, e: Event)
    requires Bookkept(w.db.life, w.generations) && Enabled(w, e) && (e.DiscardFinished? || e.RenewLease?)
    ensures Bookkept(LifeAfter(w, e), GenerationsAfter(w, e))
  {
    hide DiscardTask;
  }

  lemma PassingKeepsBooks(w: World, e: Event)
    requires Bookkept(w.db.life, w.generations) && Enabled(w, e)
    requires !e.AcceptParent? && !e.FinishParent? && !e.CancelId? && !e.DiscardFinished? && !e.RenewLease?
    ensures Bookkept(LifeAfter(w, e), GenerationsAfter(w, e))
  {
    hide DiscardTask;
  }
}
