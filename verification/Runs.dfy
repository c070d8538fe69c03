/** What holds over whole runs: any events, by any processes, in any order. */
module Runs {
  import opened Coordination
  import opened Guard
  import opened TaskScripts
  import opened WorkflowScripts
  import opened Protocol
  import opened Fences
  import opened Conservation
  import opened Bookkeeping
  import opened Phases

  // ----- reachable worlds

  lemma {:induction false} RunsStayValid(w: World, es: seq<Event>)
    requires Valid(w) && CanRun(w, es)
    ensures Valid(After(w, es))
    decreases |es|
  {
    hide Valid, Apply, Enabled;
    if es != [] {
      ValidStays(w, es[0]);
      RunsStayValid(Apply(w, es[0]), es[1..]);
    }
  }

  lemma LooseGrows(w: World, e: Event)
    requires Enabled(w, e)
    ensures w.loose <= Apply(w, e).loose
  {
    hide Reply, Grabbed, BaseOf, Pop;
  }

  lemma {:induction false} LooseForGood(w: World, es: seq<Event>)
    requires CanRun(w, es)
    ensures w.loose <= After(w, es).loose
    decreases |es|
  {
    hide Apply, Enabled;
    if es != [] {
      LooseGrows(w, es[0]);
      LooseForGood(Apply(w, es[0]), es[1..]);
    }
  }

  /** Some step of the run abandons the id, and at that step its way was shut. */
  ghost predicate WasShut(w: World, es: seq<Event>, id: string)
    requires CanRun(w, es)
    decreases |es|
  {
    es != []
    && (|| (PhaseOf(w, id) != Abandoned && PhaseOf(Apply(w, es[0]), id) == Abandoned && Shut(w, es[0], id))
        || WasShut(Apply(w, es[0]), es[1..], id))
  }

  /** Every task, anchored or not, is abandoned only at a step at which its guard or a cancel
      marker was closed, or its holder had seen it cancelled. */
  lemma {:induction false} AbandonedWasShut(w: World, es: seq<Event>, id: string)
    requires Valid(w) && CanRun(w, es) && id !in After(w, es).loose
    requires PhaseOf(w, id) != Abandoned && PhaseOf(After(w, es), id) == Abandoned
    ensures WasShut(w, es, id)
    decreases |es|
  {
    hide Valid, Apply, Enabled, PhaseOf, Shut;
    if es != [] {
      ValidStays(w, es[0]);
      LooseForGood(Apply(w, es[0]), es[1..]);
      if PhaseOf(Apply(w, es[0]), id) == Abandoned {
        EveryEventMoves(w, es[0], id);
      } else {
        AbandonedWasShut(Apply(w, es[0]), es[1..], id);
      }
    }
  }

  /** Exactly one place, in every reachable world, for every stored task that never went
      through a path without a claim: queued once at home, held by one token with one
      entry, ended with neither, or abandoned with neither. An abandoned task was shut out at
      the step that abandoned it; if it is anchored, its guard is closed for good. */
  lemma EveryTaskInOnePlace(es: seq<Event>, id: string)
    requires CanRun(START, es)
    requires id in After(START, es).db.tasks && id !in After(START, es).loose
    ensures var db := After(START, es).db;
            var t := db.tasks[id];
            var home := if t.assignee.Some? then Direct(t.assignee.value) else Pool(t.data.resource);
            match PhaseOf(After(START, es), id)
            case Queued => t.claim.None? && OneCopy(db.queues, id, home) && NoEntries(db.inflight, id)
            case Done => t.claim.None? && NoCopies(db.queues, id) && NoEntries(db.inflight, id)
            case Abandoned => t.claim.None? && NoCopies(db.queues, id) && NoEntries(db.inflight, id)
                              && WasShut(START, es, id) && (Anchored(t) ==> !Admitted(db, t))
            case Absent => false
            case _ => t.claim.Some? && NoCopies(db.queues, id)
                      && OneEntry(db.inflight, id, t.claim.value.token, t.claim.value.worker)
                      && t.claim.value.source == home
  {
    StartIsValid();
    RunsStayValid(START, es);
    hide Copies, Entries, CanRun, After, Admits, Bookkept, Ticketed, Enrolled, WasShut;
    assert Placed(After(START, es), id);
    if PhaseOf(After(START, es), id) == Abandoned {
      AbandonedWasShut(START, es, id);
    }
  }

  // ----- the guard

  /** False once, false for the rest of every run. */
  lemma {:induction false} GuardShutForGood(w: World, es: seq<Event>, keys: set<Name>, scope: Option<Scope>)
    requires Valid(w) && CanRun(w, es)
    requires scope.Some? ==> scope.value.generation in w.generations
    requires !Admits(w.db.life, keys, scope)
    ensures !Admits(After(w, es).db.life, keys, scope)
    decreases |es|
  {
    if es != [] {
      hide Admits, Reply, Bookkept;
      ValidStays(w, es[0]);
      LifeAfterIsRight(w, es[0]);
      GenerationsAfterIsRight(w, es[0]);
      GuardStaysShut(w, es[0], keys, scope);
      hide Valid, Apply, Enabled;
      GuardShutForGood(Apply(w, es[0]), es[1..], keys, scope);
    }
  }

  /** A generation's fence that is open now was open at every earlier moment since it was
      issued: no cancellation, lost lease, terminal commit or passed deadline in between. */
  lemma {:induction false} OpenNowOpenBefore(w: World, es: seq<Event>, p: string, g: string)
    requires Valid(w) && CanRun(w, es) && g in w.generations
    requires FenceOpen(After(w, es).db.life, p, g)
    ensures FenceOpen(w.db.life, p, g)
    decreases |es|
  {
    if es != [] {
      hide FenceOpen, Reply, Bookkept;
      ValidStays(w, es[0]);
      LifeAfterIsRight(w, es[0]);
      GenerationsAfterIsRight(w, es[0]);
      if !FenceOpen(w.db.life, p, g) {
        FenceStaysShut(w, es[0], p, g);
      }
      hide Valid, Apply, Enabled;
      OpenNowOpenBefore(Apply(w, es[0]), es[1..], p, g);
    }
  }

  /** A finish publishes `completed` exactly when the controller reports it and the fence is
      still open at that moment. */
  lemma CompletedIffFenceOpen(life: Lifecycle, p: string, g: string, status: Status, reason: string)
    requires Finishable(life, p, g)
    requires reason != "" ==> !status.Completed?
    ensures FinalStatus(life, p, g, status, reason) == Completed <==> status == Completed && FenceOpen(life, p, g)
  {
  }

  /** The event ends its parent generation with this status. */
  predicate Commits(w: World, e: Event, status: Status) {
    && e.FinishParent? && Enabled(w, e) && Reply(w, e).code == 1
    && e.parent in Apply(w, e).db.life.parents && Apply(w, e).db.life.parents[e.parent].status == status
  }

  lemma CommitsFinalStatus(w: World, e: Event, status: Status)
    requires Commits(w, e, status)
    ensures Finishable(w.db.life, e.parent, e.generation)
    ensures FinalStatus(w.db.life, e.parent, e.generation, e.status, e.reason) == status
    ensures e.reason != "" ==> !e.status.Completed?
  {
    hide WithdrawAll, FinalStatus;
    LifeAfterIsRight(w, e);
  }

  /** A parent that commits `completed` had its fence open at every moment of the run since
      its generation was issued. */
  lemma CompletedWasOpenThroughout(w: World, es: seq<Event>, commit: Event)
    requires Valid(w) && CanRun(w, es)
    requires Commits(After(w, es), commit, Completed)
    requires commit.FinishParent?
    requires commit.generation in w.generations
    ensures FenceOpen(w.db.life, commit.parent, commit.generation)
  {
    hide Commits, FenceOpen, FinalStatus, CanRun, After, Valid;
    CommitsFinalStatus(After(w, es), commit, Completed);
    CompletedIffFenceOpen(After(w, es).db.life, commit.parent, commit.generation, commit.status, commit.reason);
    OpenNowOpenBefore(w, es, commit.parent, commit.generation);
  }

  // ----- children of an ended generation

  predicate Belongs(db: Redis, id: string, p: string, g: string) {
    id in db.tasks && db.tasks[id].scope.Some? && db.tasks[id].scope.value.parent == p
        && db.tasks[id].scope.value.generation == g
  }

  /** The event moves some child of the generation towards execution: submits, claims,
      dispatches, returns, requeues or moves it. */
  predicate Advances(w: World, e: Event, p: string, g: string)
    requires Enabled(w, e)
  {
    var code := Reply(w, e).code;
    match e
    case SubmitTask(id, _) => code > 0 && Belongs(Apply(w, e).db, id, p, g)
    case RefreshTask(id, _, _) => code > 0 && Belongs(Apply(w, e).db, id, p, g)
    case ClaimTask(_, _, _, _, _) => Grabbed(w, e).Some? && Belongs(w.db, Grabbed(w, e).value, p, g)
    case MarkProcessing(token) => code == 1 && Belongs(w.db, w.claims[token].id, p, g)
    case MarkCpuTask(id) => code == 1 && Belongs(w.db, id, p, g)
    case RequeueClaim(token, _, _, _) => code == 1 && Belongs(w.db, w.claims[token].id, p, g)
    case MoveWaiting(id, _, _, _, _) => code == 1 && Belongs(w.db, id, p, g)
    case ReturnClaim(token) =>
      code == 1 && Belongs(w.db, w.claims[token].id, p, g)
      && Copies(Apply(w, e).db.queues, w.claims[token].source, w.claims[token].id) > 0
    case _ => false
  }

  lemma ReturnedOnlyIfAdmitted(db: Redis, id: string, v: Worker, source: Queue, token: string)
    ensures var r := Return(db, id, v, source, token);
            r.code == 1 && Copies(r.db.queues, source, id) > 0 ==> id in db.tasks && Admitted(db, db.tasks[id])
  {
    hide Copies, Entries, GiveBack, Forget, Admits;
  }

  lemma RequeuedOnlyIfAdmitted(w: World, token: string, restore: bool, mode: Release, note: string)
    requires token in w.claims
    ensures RequeueOf(w, token, restore, mode, note).code == 1 ==>
              w.claims[token].id in w.db.tasks && Admitted(w.db, w.db.tasks[w.claims[token].id])
  {
    hide Copies, Entries, Repush, Forget, Admits;
  }

  lemma MovedOnlyIfAdmitted(db: Redis, id: string, src: Worker, op: Move, seen: Snapshot, note: string)
    ensures QueueWait(db, id, src, op, seen, note).code == 1 ==> id in db.tasks && Admitted(db, db.tasks[id])
  {
    hide Copies, Entries, TakeOne, MoveToPoolOf, Admits;
  }

  lemma ShutFenceAdvancesNothing(w: World, e: Event, p: string, g: string)
    requires Enabled(w, e) && !FenceOpen(w.db.life, p, g)
    ensures !Advances(w, e, p, g)
  {
    hide FenceOpen, Copies, Submit, ForceRefresh, ClaimNext, Entries, Mark, Requeue, QueueWait, MarkCpu, Return;
    hide RequeueOf;
    if e.ClaimTask? {
      ClaimNextIssues(w.db, e.queue, e.worker, e.instance, e.token, e.limit);
    } else if e.ReturnClaim? {
      var i := w.claims[e.token];
      ReturnedOnlyIfAdmitted(w.db, i.id, i.worker, i.source, e.token);
    } else if e.RequeueClaim? {
      RequeuedOnlyIfAdmitted(w, e.token, e.restore, e.mode, e.note);
    } else if e.MoveWaiting? {
      MovedOnlyIfAdmitted(w.db, e.id, e.src, e.op, e.seen, e.note);
    }
  }

  /** After a generation has ended, no event of any process advances a child of it. */
  lemma EndedGenerationsStayStill(w: World, finish: Event, es: seq<Event>, e: Event)
    requires Valid(w) && finish.FinishParent? && Enabled(w, finish) && Reply(w, finish).code == 1
    requires CanRun(Apply(w, finish), es) && Enabled(After(Apply(w, finish), es), e)
    ensures !Advances(After(Apply(w, finish), es), e, finish.parent, finish.generation)
  {
    hide Advances, CanRun, After, FenceOpen, Valid;
    var w1 := Apply(w, finish);
    EndedIsShut(w, finish);
    ValidStays(w, finish);
    if FenceOpen(After(w1, es).db.life, finish.parent, finish.generation) {
      OpenNowOpenBefore(w1, es, finish.parent, finish.generation);
      assert false;
    }
    ShutFenceAdvancesNothing(After(w1, es), e, finish.parent, finish.generation);
  }

  lemma EndedIsShut(w: World, finish: Event)
    requires Valid(w) && finish.FinishParent? && Enabled(w, finish) && Reply(w, finish).code == 1
    ensures !FenceOpen(Apply(w, finish).db.life, finish.parent, finish.generation)
    ensures finish.generation in Apply(w, finish).generations
    ensures !Finishable(Apply(w, finish).db.life, finish.parent, finish.generation)
  {
    hide WithdrawAll, Conserved, Enrolled, Ticketed;
    LifeAfterIsRight(w, finish);
  }

  lemma WithdrawOthers(db: Redis, id: string, x: string)
    requires id != x
    ensures SameSlot(db, Withdraw(db, id, ENDED), x) && SameResult(db, Withdraw(db, id, ENDED), x)
  {
    hide Withdraw;
  }

  /** What _FINISH leaves of one stored child, wherever it stands in the list. */
  lemma {:induction false} WithdrawAllSettles(db: Redis, order: seq<string>, x: string)
    requires x in db.tasks && x in order
    ensures var d := WithdrawAll(db, order);
            x in d.tasks
            && if Withdrawable(db, x)
               then d.tasks[x] == db.tasks[x].(status := Failed, claim := None) && x in d.results
                   && d.results[x] == ENDED
               else d.tasks[x] == db.tasks[x] && SameEntries(db.inflight, d.inflight, x) && SameResult(db, d, x)
    decreases |order|
  {
    hide Copies, Entries, Unqueue, Disarm;
    var d := Withdraw(db, order[0], ENDED);
    if x != order[0] {
      hide Withdraw;
      WithdrawOthers(db, order[0], x);
      WithdrawAllSettles(d, order[1..], x);
    } else if x in order[1..] {
      WithdrawAllSettles(d, order[1..], x);
    } else {
      hide Withdraw;
      WithdrawAllOthers(d, order[1..], x);
    }
  }

  lemma {:induction false} WithdrawAllOthers(db: Redis, order: seq<string>, x: string)
    requires x !in order
    ensures SameSlot(db, WithdrawAll(db, order), x) && SameResult(db, WithdrawAll(db, order), x)
    decreases |order|
  {
    hide Copies, Entries, Withdraw;
    if order != [] {
      WithdrawOthers(db, order[0], x);
      WithdrawAllOthers(Withdraw(db, order[0], ENDED), order[1..], x);
    }
  }

  /** A finish settles every stored child of its generation, with no exception: the pending,
      unfenced ones are failed and hold no claim, the others keep their record and entries. */
  lemma FinishSettlesEveryChild(w: World, finish: Event, id: string)
    requires Valid(w) && finish.FinishParent? && Enabled(w, finish) && Reply(w, finish).code == 1
    requires Belongs(w.db, id, finish.parent, finish.generation)
    ensures var w' := Apply(w, finish);
            id in w'.db.tasks
            && if Withdrawable(w.db, id)
               then
                 && w'.db.tasks[id] == w.db.tasks[id].(status := Failed, claim := None)
                 && id in w'.db.results && w'.db.results[id] == ENDED
               else
                 && w'.db.tasks[id] == w.db.tasks[id]
                 && SameEntries(w.db.inflight, w'.db.inflight, id) && SameResult(w.db, w'.db, id)
  {
    hide WithdrawAll, Conserved, Ticketed, Entries, Close;
    assert EnrolledTask(w, id, w.db.tasks[id].scope.value);
    assert id in finish.order;
    WithdrawAllSettles(w.db.(life := LifeAfter(w, finish)), finish.order, id);
  }
}
