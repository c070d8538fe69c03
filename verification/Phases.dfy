/** The protocol refines a small machine per task: seven phases, and for every change of
    phase the events, and the authority, that can cause it. */
module Phases {
  import opened Coordination
  import opened Guard
  import opened TaskScripts
  import opened WorkflowScripts
  import opened Protocol
  import opened Fences
  import opened Conservation
  import opened Bookkeeping

  datatype Phase = Absent | Queued | Claimed | Executing | Contained | Done | Abandoned

  function PhaseOf(w: World, id: string): Phase {
    if id !in w.db.tasks then Absent
    else
      var t := w.db.tasks[id];
      if Terminal(t.status) then Done
      else if t.claim.Some? then
        if t.status.Pending? then Claimed
        else if t.claim.value.recovery.Frozen? then Contained
        else Executing
      else if t.status.Pending? && Copies(w.db.queues, Home(t), id) > 0 then Queued
      else Abandoned
  }

  /** The event acts with the task's own current token. */
  predicate ByHolder(w: World, e: Event, id: string) {
    OnToken(e) && Current(w.db, id, e.token)
  }

  predicate ByControl(e: Event, id: string) {
    (e.CancelId? && e.id == id) || e.FinishParent?
  }

  predicate Returns(e: Event) {
    e.ReturnClaim? || e.RequeueClaim?
  }

  /** What closes the way at the step that abandons a task: its guard; for a dispatch or a
      requeue also a cancel marker on it or its base; for an acknowledgement the cancellation
      its holder has seen. */
  predicate Shut(w: World, e: Event, id: string) {
    id in w.db.tasks
    && (|| !Admitted(w.db, w.db.tasks[id])
        || ((e.MarkProcessing? || e.RequeueClaim?) && Marked(w.db.life, id, w.db.tasks[id].data.base))
        || (e.AckClaim? && e.token in w.observed))
  }

  /** Which event may take a task from one phase to a different one. */
  predicate Permits(w: World, e: Event, id: string, a: Phase, b: Phase) {
    && (b == Abandoned ==> Shut(w, e, id))
    && match a
    case Absent => b == Queued && (e.SubmitTask? || e.RefreshTask?) && e.id == id
    case Queued => (e.ClaimTask? && (b == Claimed || b == Abandoned)) || (b == Done && ByControl(e, id))
    case Claimed =>
      || (b == Done && ByControl(e, id))
      || (ByHolder(w, e, id)
          && match b
             case Executing => e.MarkProcessing?
             case Queued => Returns(e)
             case Done => e.FinalizeClaim?
             case Abandoned => Returns(e) || e.MarkProcessing? || (e.AckClaim? && e.token in w.observed)
             case _ => false)
    case Executing =>
      ByHolder(w, e, id)
      && (match b
          case Contained => e.FreezeClaim?
          case Done => e.FinalizeClaim?
          case _ => (b == Queued || b == Abandoned) && e.RequeueClaim? && e.mode != NoRelease)
    case Contained =>
      ByHolder(w, e, id)
      && (match b
          case Done => e.FinalizeClaim? && e.allowFrozen
          case _ => (b == Queued || b == Abandoned) && e.RequeueClaim? && e.mode == ReleaseAll)
    case Done => (b == Absent && (e.ExpireTask? || e.DiscardChild?) && e.id == id)
        || (b == Queued && e.RefreshTask? && e.id == id)
    case Abandoned => b == Done && ByControl(e, id)
  }

  ghost predicate Moves(w: World, e: Event, id: string)
    requires Enabled(w, e)
  {
    var a := PhaseOf(w, id);
    var b := PhaseOf(Apply(w, e), id);
    a == b || Permits(w, e, id, a, b)
  }

  lemma SameSlotSamePhase(w: World, w': World, id: string)
    requires SameSlot(w.db, w'.db, id)
    ensures PhaseOf(w', id) == PhaseOf(w, id)
  {
    hide Copies, Entries;
  }

  lemma RequeueMoves(w: World, e: Event)
    requires Valid(w) && Enabled(w, e) && e.RequeueClaim? && Holds(w, e.token)
    ensures Moves(w, e, w.claims[e.token].id)
  {
    hide Copies, Entries, Admits, Bookkept, Enrolled, Conserved, NoEntries, OneEntry, Requeue;
    var i := w.claims[e.token];
    var t := w.db.tasks[i.id];
    RequeueSlot(w.db, i.id, i.worker, e.token, if e.restore then i.source else Pool(t.data.resource),
                t.data.(note := e.note),
                if e.restore then t.assignee else None, if e.restore then t.assignedAt else "", i.base, e.mode);
  }

  lemma HolderMoves(w: World, e: Event)
    requires Valid(w) && Enabled(w, e) && OnToken(e) && Holds(w, e.token)
    ensures Moves(w, e, w.claims[e.token].id)
  {
    if e.RequeueClaim? {
      hide Moves;
      RequeueMoves(w, e);
    } else {
      GateMoves(w, e);
    }
  }

  lemma GateMoves(w: World, e: Event)
    requires Valid(w) && Enabled(w, e) && OnToken(e) && Holds(w, e.token) && !e.RequeueClaim?
    ensures Moves(w, e, w.claims[e.token].id)
  {
    if e.MarkProcessing? || e.ReturnClaim? {
      hide Moves;
      StartMoves(w, e);
    } else if e.AckClaim? || e.FreezeClaim? {
      hide Moves;
      LetGoMoves(w, e);
    } else {
      hide Moves;
      EndMoves(w, e);
    }
  }

  lemma LetGoMoves(w: World, e: Event)
    requires Valid(w) && Enabled(w, e) && (e.AckClaim? || e.FreezeClaim?) && Holds(w, e.token)
    ensures Moves(w, e, w.claims[e.token].id)
  {
    hide Copies, Entries, Admits, Bookkept, Enrolled, Conserved, NoEntries, OneEntry, Forget, Return, Requeue, Mark,
        Finalize;
    ForgetClears(w.db, w.claims[e.token].id, w.claims[e.token].worker, e.token);
  }

  lemma EndMoves(w: World, e: Event)
    requires Valid(w) && Enabled(w, e) && (e.FinalizeClaim? || e.ObserveCancelled? || e.DropStale?) && Holds(w, e.token)
    ensures Moves(w, e, w.claims[e.token].id)
  {
    hide Copies, Entries, Admits, Bookkept, Enrolled, Conserved, NoEntries, OneEntry, Forget, Return, Requeue, Mark,
        Ack, Freeze;
    ForgetClears(w.db, w.claims[e.token].id, w.claims[e.token].worker, e.token);
  }

  lemma StartMoves(w: World, e: Event)
    requires Valid(w) && Enabled(w, e) && (e.MarkProcessing? || e.ReturnClaim?) && Holds(w, e.token)
    ensures Moves(w, e, w.claims[e.token].id)
  {
    hide Moves;
    if e.MarkProcessing? { DispatchMoves(w, e); } else { ReturnMoves(w, e); }
  }

  lemma ReturnMoves(w: World, e: Event)
    requires Valid(w) && Enabled(w, e) && e.ReturnClaim? && Holds(w, e.token)
    ensures Moves(w, e, w.claims[e.token].id)
  {
    hide Copies, Entries, Admits, Bookkept, Enrolled, Conserved, NoEntries, OneEntry, Forget, GiveBack;
    GivenBack(w.db, w.claims[e.token].id, w.claims[e.token].source);
  }

  lemma DispatchMoves(w: World, e: Event)
    requires Valid(w) && Enabled(w, e) && e.MarkProcessing? && Holds(w, e.token)
    ensures Moves(w, e, w.claims[e.token].id)
  {
    hide Copies, Entries, Admits, Bookkept, Enrolled, Conserved, NoEntries, OneEntry, Mark;
    var i := w.claims[e.token];
    MarkSlot(w.db, i.id, i.worker, i.instance, i.source, e.token, i.base);
  }

  lemma TokenMoves(w: World, e: Event)
    requires Valid(w) && Enabled(w, e) && OnToken(e) && w.claims[e.token].id !in w.loose
    ensures Moves(w, e, w.claims[e.token].id)
  {
    hide Placed, Moves, Apply, Holds;
    var i := w.claims[e.token];
    assert Placed(w, i.id);
    HolderOrStale(w, e.token);
    if Current(w.db, i.id, e.token) {
      HolderMoves(w, e);
    } else {
      StaleMoves(w, e);
    }
  }

  lemma StaleMoves(w: World, e: Event)
    requires Enabled(w, e) && OnToken(e)
    requires Placed(w, w.claims[e.token].id) && !Current(w.db, w.claims[e.token].id, e.token)
    ensures Moves(w, e, w.claims[e.token].id)
  {
    hide Copies, Entries, Admits, Forget, Placed, PhaseOf;
    var i := w.claims[e.token];
    StaleHasNoEntry(w, i.id, i.worker, e.token);
    assert SameSlot(w.db, w.db, i.id);
    SameSlotSamePhase(w, Apply(w, e), i.id);
  }

  lemma SubmissionMoves(w: World, e: Event)
    requires Valid(w) && Enabled(w, e) && (e.SubmitTask? || e.RefreshTask?) && Placed(w, e.id)
    ensures Moves(w, e, e.id)
  {
    hide Copies, Entries, Admits, Bookkept, Enrolled, Ticketed, Conserved, NoEntries, OneEntry, Submit, ForceRefresh;
    if e.SubmitTask? {
      SubmitSlot(w.db, e.id, NewTask(e.id, e.sub));
    } else {
      RefreshSlot(w.db, e.id, NewTask(e.id, e.sub), e.known);
    }
  }

  lemma IdMoves(w: World, e: Event)
    requires Valid(w) && Enabled(w, e) && OnId(e) && e.id !in w.loose
    ensures Moves(w, e, e.id)
  {
    hide Copies, Entries, Admits, Bookkept, Enrolled, Ticketed, NoEntries, OneEntry, Submit, ForceRefresh, Repush,
        TakeOne, NewTask;
    assert Placed(w, e.id);
    if e.SubmitTask? || e.RefreshTask? {
      hide Moves, Placed;
      SubmissionMoves(w, e);
    } else {
      hide Conserved;
      QuietMoves(w, e);
    }
  }

  lemma QuietMoves(w: World, e: Event)
    requires Enabled(w, e) && OnId(e) && !e.SubmitTask? && !e.RefreshTask? && Placed(w, e.id)
    ensures Moves(w, e, e.id)
  {
    if e.MoveWaiting? {
      WaitingMoves(w, e);
    } else {
      hide Copies, Entries, Admits, NoEntries, OneEntry, QueueWait;
    }
  }

  lemma WaitingMoves(w: World, e: Event)
    requires Enabled(w, e) && e.MoveWaiting? && Placed(w, e.id)
    ensures Moves(w, e, e.id)
  {
    hide Copies, Entries, Admits, NoEntries, OneEntry, QueueWait, PhaseOf;
    QueuedStaysQueued(w, e.id, e.src, e.op, e.seen, e.note);
  }

  /** The queue-wait move does not change a phase. */
  lemma QueuedStaysQueued(w: World, id: string, src: Worker, op: Move, seen: Snapshot, note: string)
    requires Placed(w, id)
    ensures PhaseOf(w.(db := QueueWait(w.db, id, src, op, seen, note).db), id) == PhaseOf(w, id)
  {
    hide Copies, Entries, Admits, NoEntries, OneEntry, Repush, TakeOne;
  }

  /** Withdrawal ends a task that is pending and unfenced, and no other. */
  lemma WithdrawMoves(w: World, id: string, why: string, x: string)
    requires Placed(w, x)
    ensures PhaseOf(w.(db := Withdraw(w.db, id, why)), x) == if x == id && Withdrawable(w.db, x) then Done
            else PhaseOf(w, x)
  {
    hide Copies, Entries, Admits, Unqueue, Disarm, NoEntries, OneEntry;
    var w' := w.(db := Withdraw(w.db, id, why));
    if x != id {
      hide PhaseOf;
      SameSlotSamePhase(w, w', x);
    }
  }

  /** So does the withdrawal of a list of tasks, wherever and however often an id stands in it. */
  lemma {:induction false} WithdrawAllMoves(w: World, order: seq<string>, x: string)
    requires Placed(w, x)
    ensures PhaseOf(w.(db := WithdrawAll(w.db, order)), x) ==
            if x in order && Withdrawable(w.db, x) then Done else PhaseOf(w, x)
    decreases |order|
  {
    hide Withdraw, Placed, PhaseOf;
    if order != [] {
      var w1 := w.(db := Withdraw(w.db, order[0], ENDED));
      WithdrawMoves(w, order[0], ENDED, x);
      if x == order[0] { WithdrawPlaces(w, x, ENDED); } else { OtherWithdrawPlaces(w, order[0], ENDED, x); }
      WithdrawAllMoves(w1, order[1..], x);
      WithdrawnOnce(w, order[0], ENDED, x);
      assert w1.(db := WithdrawAll(w1.db, order[1..])) == w.(db := WithdrawAll(w.db, order));
    } else {
      assert w.(db := WithdrawAll(w.db, order)) == w;
    }
  }

  lemma WithdrawnOnce(w: World, id: string, why: string, x: string)
    ensures Withdrawable(Withdraw(w.db, id, why), x) <==> x != id && Withdrawable(w.db, x)
  {
    hide Copies, Entries, Unqueue, Disarm;
    if x != id { assert SameSlot(w.db, Withdraw(w.db, id, why), x); }
  }

  /** A task that withdrawal can end is queued, claimed, or abandoned before it started. */
  lemma WithdrawableIsEarly(w: World, x: string)
    requires Placed(w, x) && Withdrawable(w.db, x)
    ensures PhaseOf(w, x) in {Queued, Claimed, Abandoned}
  {
    hide Copies, Entries, Admits;
  }

  lemma OtherWithdrawPlaces(w: World, id: string, why: string, x: string)
    requires Placed(w, x) && x != id
    ensures Placed(w.(db := Withdraw(w.db, id, why)), x)
  {
    hide Withdraw, Placed, SameSlot;
    PlacedStays(w, w.(db := Withdraw(w.db, id, why)), x);
  }

  lemma {:induction false} ClaimNextCopies(db: Redis, k: Queue, v: Worker, instance: string, token: string, limit: nat,
                                           x: string)
    ensures var (d, got) := ClaimNext(db, k, v, instance, token, limit);
            forall j :: Copies(d.queues, j, x) <= Copies(db.queues, j, x)
    ensures var (d, got) := ClaimNext(db, k, v, instance, token, limit);
            got == Some(x) ==> exists j :: Copies(db.queues, j, x) > 0
    ensures var (d, got) := ClaimNext(db, k, v, instance, token, limit);
            got != Some(x) && (exists j :: Copies(d.queues, j, x) < Copies(db.queues, j, x)) ==> !Claimable(db, x)
    decreases limit
  {
    hide Pop, PushEntry, Copies, Admits, Claimable;
    if limit != 0 && Listed(db.queues, k) != [] {
      var (qs, id) := Pop(db.queues, k);
      var d := db.(queues := qs);
      QueuesDoNotDecide(db, qs);
      if Claimable(d, id) {
        assert Copies(db.queues, k, id) > 0;
      } else {
        ClaimNextCopies(d, k, v, instance, token, limit - 1, x);
      }
    }
  }

  lemma ClaimMoves(w: World, e: Event, id: string)
    requires Valid(w) && Enabled(w, e) && e.ClaimTask? && Placed(w, id)
    ensures Moves(w, e, id)
  {
    hide Copies, Entries, Admits, Bookkept, Enrolled, Ticketed, Conserved, NoEntries, OneEntry, ClaimNext, PushEntry;
    ClaimNextIssues(w.db, e.queue, e.worker, e.instance, e.token, e.limit);
    ClaimNextCopies(w.db, e.queue, e.worker, e.instance, e.token, e.limit, id);
  }

  lemma FinishMoves(w: World, e: Event, id: string)
    requires Valid(w) && Enabled(w, e) && e.FinishParent? && Placed(w, id)
    ensures Moves(w, e, id)
  {
    hide WithdrawAll, Placed, Ticketed, Enrolled, Bookkept, Conserved, PhaseOf, Close;
    if Finishable(w.db.life, e.parent, e.generation) {
      var w1 := w.(db := w.db.(life := LifeAfter(w, e)));
      LifeMovePlaces(w, e, id);
      WithdrawAllMoves(w1, e.order, id);
      EqualSlots(w.db, w1.db, id);
      SameSlotSamePhase(w, w1, id);
      if Withdrawable(w1.db, id) { WithdrawableIsEarly(w1, id); }
      assert Apply(w, e) == w1.(db := WithdrawAll(w1.db, e.order));
    } else {
      assert Apply(w, e) == w;
    }
  }

  lemma CancelMoves(w: World, e: Event, id: string)
    requires Valid(w) && Enabled(w, e) && e.CancelId? && Placed(w, id)
    ensures Moves(w, e, id)
  {
    hide Withdraw, Placed, Ticketed, Enrolled, Bookkept, Conserved, PhaseOf, Condemn, SameSlot;
    var w1 := w.(db := w.db.(life := LifeAfter(w, e)));
    LifeMovePlaces(w, e, id);
    EqualSlots(w.db, w1.db, id);
    SameSlotSamePhase(w, w1, id);
    if e.id !in w.db.life.parents && e.id in w.db.tasks {
      assert Apply(w, e) == w1.(db := Withdraw(w1.db, e.id, CANCELLED));
      WithdrawMoves(w1, e.id, CANCELLED, id);
      if Withdrawable(w1.db, id) { WithdrawableIsEarly(w1, id); }
      if id != e.id { SameSlotSamePhase(w1, Apply(w, e), id); }
    } else {
      assert Apply(w, e) == w1;
    }
  }

  lemma PopCpuMoves(w: World, e: Event, id: string)
    requires Enabled(w, e) && e.PopCpu? && id !in Apply(w, e).loose
    ensures Moves(w, e, id)
  {
    hide Pop, PhaseOf;
    if Listed(w.db.queues, e.queue) != [] {
      PopTouches(w, e.queue);
      hide SameSlot;
      SameSlotSamePhase(w, Apply(w, e), id);
    }
  }

  /** Refinement: for every event of every process and every task that never went through a
      path without a claim, the task's phase stays or changes as `Permits` allows. */
  lemma EveryEventMoves(w: World, e: Event, id: string)
    requires Valid(w) && Enabled(w, e) && id !in Apply(w, e).loose
    ensures Moves(w, e, id)
  {
    hide Reply, Placed, Closed, Bookkept, Enrolled, Ticketed, SameSlot, PhaseOf;
    assert Placed(w, id);
    if e.ClaimTask? {
      ClaimMoves(w, e, id);
    } else if e.PopCpu? {
      PopCpuMoves(w, e, id);
    } else if e.FinishParent? {
      FinishMoves(w, e, id);
    } else if e.CancelId? {
      CancelMoves(w, e, id);
    } else if OnLife(e) {
      LifeEventKeepsSlots(w, e, id);
      SameSlotSamePhase(w, Apply(w, e), id);
    } else if id != Subject(w, e) {
      OthersKeepTheirSlot(w, e, id);
      SameSlotSamePhase(w, Apply(w, e), id);
    } else if OnToken(e) {
      TokenMoves(w, e);
    } else {
      assert OnId(e);
      IdMoves(w, e);
    }
  }
}
