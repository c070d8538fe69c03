/** Fences: a claim that may have begun to execute is let go by its own token only. */
module Fencing {
  import opened Coordination
  import opened Guard
  import opened TaskScripts
  import opened WorkflowScripts
  import opened Protocol
  import opened Fences
  import opened Conservation
  import opened Bookkeeping

  // ----- a fence belongs to a token that was dispatched

  /** A claimed task has not ended, and if its claim is fenced, the token was dispatched. */
  predicate FencedOne(w: World, id: string) {
    id in w.db.tasks && w.db.tasks[id].claim.Some? ==>
      && !Terminal(w.db.tasks[id].status)
      && (!w.db.tasks[id].claim.value.recovery.Unfenced? ==> w.db.tasks[id].claim.value.token in w.dispatched)
  }

  ghost predicate FencesMarked(w: World) {
    forall id :: FencedOne(w, id)
  }

  /** A claim that a task carries afterwards it carried before, and no claimed task has ended. */
  predicate Carries(db: Redis, db': Redis, id: string) {
    id in db'.tasks && db'.tasks[id].claim.Some? ==>
      id in db.tasks && db.tasks[id].claim == db'.tasks[id].claim
          && (Terminal(db'.tasks[id].status) ==> Terminal(db.tasks[id].status))
  }

  lemma SlotCarries(db: Redis, db': Redis, id: string)
    requires SameSlot(db, db', id)
    ensures Carries(db, db', id)
  {
  }

  lemma {:induction false} WithdrawAllCarries(db: Redis, order: seq<string>, id: string)
    ensures Carries(db, WithdrawAll(db, order), id)
    decreases |order|
  {
    hide Entries, Copies, Unqueue, Disarm;
    if order != [] {
      var d := Withdraw(db, order[0], ENDED);
      assert order[0] != id ==> SameSlot(db, d, id);
      WithdrawAllCarries(d, order[1..], id);
    }
  }

  lemma FinishCarries(db: Redis, e: Event, id: string)
    requires e.FinishParent?
    ensures Carries(db, Finish(db, e.parent, e.generation, e.status, e.reason, e.body, e.order).db, id)
  {
    hide WithdrawAll, Close;
    if Finishable(db.life, e.parent, e.generation) {
      WithdrawAllCarries(db.(life := Close(db.life, e.parent, e.generation, e.status, e.reason, e.body)), e.order, id);
    }
  }

  lemma CancelCarries(db: Redis, x: string, id: string)
    ensures Carries(db, Cancel(db, x), id)
  {
    hide Entries, Copies, Unqueue, Disarm, Condemn;
    if x != id {
      var d := db.(life := Condemn(db.life, x));
      assert SameSlot(d, Withdraw(d, x, CANCELLED), id);
    }
  }

  lemma BulkCarries(w: World, e: Event, id: string)
    requires Enabled(w, e) && !SingleTask(e) && !e.ClaimTask?
    ensures Carries(w.db, Apply(w, e).db, id)
  {
    if e.FinishParent? {
      FinishRuns(w, e);
      FinishCarries(w.db, e, id);
    } else if e.CancelId? {
      CancelRuns(w, e);
      CancelCarries(w.db, e.id, id);
    } else {
      PopCpuRuns(w, e);
    }
    hide Apply, Reply, Enabled;
  }

  lemma TokenCarries(w: World, e: Event)
    requires Enabled(w, e) && OnToken(e) && !e.MarkProcessing? && !e.FreezeClaim?
    ensures Carries(w.db, Apply(w, e).db, w.claims[e.token].id)
  {
    hide Apply, Reply, Enabled, Carries;
    if e.ReturnClaim? || e.RequeueClaim? { BackCarries(w, e); } else { EndCarries(w, e); }
  }

  lemma BackCarries(w: World, e: Event)
    requires Enabled(w, e) && (e.ReturnClaim? || e.RequeueClaim?)
    ensures Carries(w.db, Apply(w, e).db, w.claims[e.token].id)
  {
    hide Entries, Copies, Admits, GiveBack, DropEntry, Repush;
  }

  lemma EndCarries(w: World, e: Event)
    requires Enabled(w, e) && OnToken(e) && !e.MarkProcessing? && !e.FreezeClaim? && !e.ReturnClaim? && !e.RequeueClaim?
    ensures Carries(w.db, Apply(w, e).db, w.claims[e.token].id)
  {
    hide Entries, Copies, Admits, DropEntry;
  }

  lemma IdCarries(w: World, e: Event, id: string)
    requires Enabled(w, e) && SingleTask(e) && !OnToken(e) && !OnLife(e) && id == Subject(w, e)
    ensures Carries(w.db, Apply(w, e).db, id)
  {
    hide Entries, Copies, Admits, Repush, TakeOne, Publish, Erase;
    if e.RefreshTask? { RefreshCarries(w.db, id, NewTask(id, e.sub), e.known); }
  }

  lemma RefreshCarries(db: Redis, id: string, t: Task, known: seq<Queue>)
    requires t.claim.None?
    ensures Carries(db, ForceRefresh(db, id, t, known).db, id)
  {
    hide Admits, Copies, Entries;
  }

  lemma OthersCarry(w: World, e: Event, id: string)
    requires Enabled(w, e) && SingleTask(e) && (OnLife(e) || id != Subject(w, e))
    ensures Carries(w.db, Apply(w, e).db, id)
  {
    hide Apply, Reply, Subject, SameSlot;
    if OnLife(e) { LifeEventKeepsSlots(w, e, id); } else { OthersKeepTheirSlot(w, e, id); }
    SlotCarries(w.db, Apply(w, e).db, id);
  }

  lemma HolderFences(w: World, e: Event, id: string)
    requires FencedOne(w, id) && Enabled(w, e) && (e.MarkProcessing? || e.FreezeClaim?) && w.claims[e.token].id == id
    ensures FencedOne(Apply(w, e), id)
  {
    hide Entries, Copies, Admits, DropEntry;
  }

  lemma ClaimFences(w: World, e: Event, id: string)
    requires FencedOne(w, id) && Enabled(w, e) && e.ClaimTask?
    ensures FencedOne(Apply(w, e), id)
  {
    hide ClaimNext, PushEntry, Admits;
    ClaimNextIssues(w.db, e.queue, e.worker, e.instance, e.token, e.limit);
  }

  lemma CarriedStaysFenced(w: World, e: Event, id: string)
    requires FencedOne(w, id) && Enabled(w, e) && Carries(w.db, Apply(w, e).db, id)
    ensures FencedOne(Apply(w, e), id)
  {
    OwnTicketOnly(w, e);
    hide Apply, Enabled;
  }

  lemma FenceStays(w: World, e: Event, id: string)
    requires FencedOne(w, id) && Enabled(w, e)
    ensures FencedOne(Apply(w, e), id)
  {
    hide Apply, Reply, FencedOne, Carries;
    if e.ClaimTask? {
      ClaimFences(w, e, id);
    } else if (e.MarkProcessing? || e.FreezeClaim?) && w.claims[e.token].id == id {
      HolderFences(w, e, id);
    } else {
      if !SingleTask(e) {
        BulkCarries(w, e, id);
      } else if OnLife(e) || id != Subject(w, e) {
        OthersCarry(w, e, id);
      } else if OnToken(e) {
        TokenCarries(w, e);
      } else {
        IdCarries(w, e, id);
      }
      CarriedStaysFenced(w, e, id);
    }
  }

  // ----- the frozen fence

  predicate FrozenBy(db: Redis, id: string, token: string) {
    Current(db, id, token) && db.tasks[id].claim.value.recovery.Frozen?
  }

  /** The two calls that may end a frozen claim, both under its own token. */
  predicate Thaws(e: Event, token: string) {
    || (e.RequeueClaim? && e.token == token && e.mode == ReleaseAll)
    || (e.FinalizeClaim? && e.token == token && e.allowFrozen)
  }

  lemma FrozenHolder(w: World, e: Event, id: string, token: string)
    requires FencedOne(w, id) && FrozenBy(w.db, id, token)
    requires Enabled(w, e) && OnToken(e) && w.claims[e.token].id == id && !Thaws(e, token)
    ensures FrozenBy(Apply(w, e).db, id, token)
  {
    hide Apply, Reply, Enabled, FrozenBy, FencedOne;
    if e.MarkProcessing? || e.ReturnClaim? || e.RequeueClaim? {
      FrozenStart(w, e, id, token);
    } else {
      FrozenEnd(w, e, id, token);
    }
  }

  lemma FrozenStart(w: World, e: Event, id: string, token: string)
    requires FencedOne(w, id) && FrozenBy(w.db, id, token)
    requires Enabled(w, e) && (e.MarkProcessing? || e.ReturnClaim? || e.RequeueClaim?)
    requires w.claims[e.token].id == id && !Thaws(e, token)
    ensures FrozenBy(Apply(w, e).db, id, token)
  {
    hide Entries, Copies, Admits, GiveBack, DropEntry, Repush;
  }

  lemma FrozenEnd(w: World, e: Event, id: string, token: string)
    requires FrozenBy(w.db, id, token)
    requires Enabled(w, e) && OnToken(e) && !e.MarkProcessing? && !e.ReturnClaim? && !e.RequeueClaim?
    requires w.claims[e.token].id == id && !Thaws(e, token)
    ensures FrozenBy(Apply(w, e).db, id, token)
  {
    hide Entries, Copies, Admits, DropEntry;
  }

  lemma {:induction false} WithdrawAllKeepsFrozen(db: Redis, order: seq<string>, id: string, token: string)
    requires FrozenBy(db, id, token)
    ensures FrozenBy(WithdrawAll(db, order), id, token)
    decreases |order|
  {
    hide Entries, Copies, Unqueue, Disarm;
    if order != [] {
      var d := Withdraw(db, order[0], ENDED);
      assert order[0] != id ==> SameSlot(db, d, id);
      WithdrawAllKeepsFrozen(d, order[1..], id, token);
    }
  }

  lemma FrozenElsewhere(w: World, e: Event, id: string, token: string)
    requires FencedOne(w, id) && FrozenBy(w.db, id, token)
    requires Enabled(w, e) && SingleTask(e) && !OnToken(e) && !(e.CommitClaimless? && e.id == id)
    ensures FrozenBy(Apply(w, e).db, id, token)
  {
    hide Entries, Copies, Admits, Repush, TakeOne, Submit, ForceRefresh, NewTask;
    if id != Subject(w, e) {
      hide Reply, Subject;
      OthersKeepTheirSlot(w, e, id);
    } else if e.RefreshTask? {
      ClaimedIsNotReplaced(w.db, id, NewTask(id, e.sub), e.known);
    } else if e.SubmitTask? {
      ClaimedIsNotReplaced(w.db, id, NewTask(id, e.sub), []);
    }
  }

  lemma ClaimedIsNotReplaced(db: Redis, id: string, t: Task, known: seq<Queue>)
    requires id in db.tasks && db.tasks[id].claim.Some?
    ensures ForceRefresh(db, id, t, known).db == db
    ensures Submit(db, id, t).db == db
  {
    hide Admits;
  }

  lemma FinishKeepsFrozen(db: Redis, e: Event, id: string, token: string)
    requires e.FinishParent? && FrozenBy(db, id, token)
    ensures FrozenBy(Finish(db, e.parent, e.generation, e.status, e.reason, e.body, e.order).db, id, token)
  {
    hide WithdrawAll, Close;
    if Finishable(db.life, e.parent, e.generation) {
      WithdrawAllKeepsFrozen(db.(life := Close(db.life, e.parent, e.generation, e.status, e.reason, e.body)), e.order,
                             id, token);
    }
  }

  lemma FrozenInBulk(w: World, e: Event, id: string, token: string)
    requires FrozenBy(w.db, id, token)
    requires Enabled(w, e) && !SingleTask(e)
    ensures FrozenBy(Apply(w, e).db, id, token)
  {
    hide FrozenBy;
    if e.ClaimTask? {
      ClaimKeepsFrozen(w, e, id, token);
    } else if e.FinishParent? {
      FinishRuns(w, e);
      FinishKeepsFrozen(w.db, e, id, token);
    } else if e.CancelId? {
      CancelRuns(w, e);
      CancelKeepsFrozen(w.db, e.id, id, token);
    } else {
      PopCpuRuns(w, e);
      FrozenByTask(w.db, Apply(w, e).db, id, token);
    }
    hide Apply, Reply, Enabled;
  }

  lemma FrozenByTask(db: Redis, db': Redis, id: string, token: string)
    requires db'.tasks == db.tasks && FrozenBy(db, id, token)
    ensures FrozenBy(db', id, token)
  {
  }

  lemma ClaimKeepsFrozen(w: World, e: Event, id: string, token: string)
    requires Enabled(w, e) && FrozenBy(w.db, id, token) && e.ClaimTask?
    ensures FrozenBy(Apply(w, e).db, id, token)
  {
    hide ClaimNext, PushEntry, Admits;
    ClaimNextIssues(w.db, e.queue, e.worker, e.instance, e.token, e.limit);
  }

  lemma CancelKeepsFrozen(db: Redis, x: string, id: string, token: string)
    requires FrozenBy(db, id, token)
    ensures FrozenBy(Cancel(db, x), id, token)
  {
    hide Entries, Copies, Unqueue, Disarm, Condemn;
    if x != id {
      var d := db.(life := Condemn(db.life, x));
      assert SameSlot(d, Withdraw(d, x, CANCELLED), id);
    }
  }

  /** A frozen claim holds against everything: only its own token, with full authority to
      release or with the explicit permission to finalize, ends it. */
  lemma FrozenHolds(w: World, e: Event, id: string, token: string)
    requires FencedOne(w, id) && FrozenBy(w.db, id, token)
    requires Enabled(w, e) && !Thaws(e, token) && !(e.CommitClaimless? && e.id == id)
    ensures FrozenBy(Apply(w, e).db, id, token)
  {
    hide Apply, Reply, FrozenBy, FencedOne;
    if !SingleTask(e) {
      FrozenInBulk(w, e, id, token);
    } else if !OnToken(e) {
      FrozenElsewhere(w, e, id, token);
    } else if w.claims[e.token].id == id {
      FrozenHolder(w, e, id, token);
    } else {
      OthersKeepFrozen(w, e, id, token);
    }
  }

  lemma OthersKeepFrozen(w: World, e: Event, id: string, token: string)
    requires FrozenBy(w.db, id, token) && Enabled(w, e) && OnToken(e) && w.claims[e.token].id != id
    ensures FrozenBy(Apply(w, e).db, id, token)
  {
    hide Apply, Reply;
    OthersKeepTheirSlot(w, e, id);
  }

  predicate ThawedIn(es: seq<Event>, id: string, token: string) {
    exists i :: 0 <= i < |es| && (Thaws(es[i], token) || (es[i].CommitClaimless? && es[i].id == id))
  }

  /** And so over every run, for every task, loose or not: a frozen claim is there at the end
      unless its own token was used in between with full authority or with the permission to
      finalize, or a completion without a claim overwrote the record. */
  lemma {:induction false} FrozenUntilThawed(w: World, es: seq<Event>, id: string, token: string)
    requires FencesMarked(w) && CanRun(w, es) && FrozenBy(w.db, id, token) && !ThawedIn(es, id, token)
    ensures FrozenBy(After(w, es).db, id, token)
    decreases |es|
  {
    hide Apply, Enabled, FrozenBy, FencedOne, Thaws;
    if es != [] {
      assert FencedOne(w, id);
      FrozenHolds(w, es[0], id, token);
      forall x ensures FencedOne(Apply(w, es[0]), x) {
        assert FencedOne(w, x);
        FenceStays(w, es[0], x);
      }
      forall i | 0 <= i < |es[1..]| ensures !Thaws(es[1..][i], token)
          && !(es[1..][i].CommitClaimless? && es[1..][i].id == id) {
        assert es[1..][i] == es[i + 1];
      }
      FrozenUntilThawed(Apply(w, es[0]), es[1..], id, token);
    }
  }

  lemma {:induction false} FencesStayMarked(w: World, es: seq<Event>)
    requires FencesMarked(w) && CanRun(w, es)
    ensures FencesMarked(After(w, es))
    decreases |es|
  {
    hide Apply, Enabled, FencedOne;
    if es != [] {
      forall x ensures FencedOne(Apply(w, es[0]), x) {
        assert FencedOne(w, x);
        FenceStays(w, es[0], x);
      }
      FencesStayMarked(Apply(w, es[0]), es[1..]);
    }
  }

  /** In every reachable world a claimed task has not ended, and a fenced claim belongs to a
      token that was dispatched. */
  lemma ReachableFences(es: seq<Event>)
    requires CanRun(START, es)
    ensures FencesMarked(After(START, es))
  {
    StartFences();
    hide FencesMarked;
    FencesStayMarked(START, es);
  }

  lemma StartFences()
    ensures FencesMarked(START)
  {
  }
}
