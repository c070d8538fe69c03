/** Tokens, generations and children sets over every event, and with them the whole
    invariant of a reachable world. */
module Bookkeeping {
  import opened Coordination
  import opened Guard
  import opened TaskScripts
  import opened WorkflowScripts
  import opened Protocol
  import opened Fences
  import opened Conservation

  lemma QuietIsTransitive(a: Redis, b: Redis, c: Redis)
    requires Quiet(a, b) && Quiet(b, c)
    ensures Quiet(a, c)
  {
    hide Entries;
  }

  lemma {:induction false} WithdrawAllIsQuiet(db: Redis, order: seq<string>)
    ensures Quiet(db, WithdrawAll(db, order))
    decreases |order|
  {
    hide Withdraw, Entries;
    if order != [] {
      var d := Withdraw(db, order[0], ENDED);
      hide Quiet;
      WithdrawAllIsQuiet(d, order[1..]);
      QuietIsTransitive(db, d, WithdrawAll(d, order[1..]));
    }
  }

  predicate Issues(e: Event) {
    e.SubmitTask? || e.RefreshTask? || e.ClaimTask?
  }

  lemma FinishIsQuiet(w: World, e: Event)
    requires Enabled(w, e) && e.FinishParent?
    ensures Quiet(w.db, Apply(w, e).db)
  {
    FinishRuns(w, e);
    FinishingIsQuiet(w.db, e);
    hide Apply, Reply, Enabled, Quiet;
  }

  lemma FinishingIsQuiet(db: Redis, e: Event)
    requires e.FinishParent?
    ensures Quiet(db, Finish(db, e.parent, e.generation, e.status, e.reason, e.body, e.order).db)
  {
    hide Close, WithdrawAll, Entries;
    if Finishable(db.life, e.parent, e.generation) {
      WithdrawAllIsQuiet(db.(life := Close(db.life, e.parent, e.generation, e.status, e.reason, e.body)), e.order);
    }
  }

  /** Everything but submission and claim issues nothing. */
  lemma OtherEventsAreQuiet(w: World, e: Event)
    requires Enabled(w, e) && !Issues(e) && !e.DiscardFinished? && !e.FinishParent?
    ensures Quiet(w.db, Apply(w, e).db)
  {
    ApplyKeepsReply(w, e);
    hide Apply, Reply, Enabled;
    if OnToken(e) { TokenEventsAreQuiet(w, e); } else { ControlEventsAreQuiet(w, e); }
  }

  lemma ControlEventsAreQuiet(w: World, e: Event)
    requires Enabled(w, e) && !OnToken(e) && !Issues(e) && !e.DiscardFinished? && !e.FinishParent?
    ensures Quiet(w.db, Reply(w, e).db)
  {
    hide Mark, Return, Ack, Freeze, Requeue, RequeueOf, Finalize, Forget;
    hide QueueWait, ClaimlessCommit, MarkCpu, Withdraw, Entries, Copies, Pop, Push, Accept, Renew, Condemn, Submit,
         ForceRefresh, ClaimNext, NewTask, Finish, DiscardParent;
  }

  lemma TokenEventsAreQuiet(w: World, e: Event)
    requires Enabled(w, e) && OnToken(e)
    ensures Quiet(w.db, Reply(w, e).db)
  {
    hide Mark, Return, Ack, Freeze, Requeue, Finalize, Forget, Entries, Copies;
  }

  /** A claim issues one fresh token, to one task, in one inflight list. */
  lemma {:induction false} ClaimNextIssues(db: Redis, k: Queue, v: Worker, instance: string, token: string, limit: nat)
    ensures var (d, got) := ClaimNext(db, k, v, instance, token, limit);
            && d.rosters == db.rosters
            && if got.None? then d.tasks == db.tasks && d.inflight == db.inflight
               else && Claimable(db, got.value)
                    && d.tasks == db.tasks[got.value :=
                                           db.tasks[got.value].(claim := Some(Claim(token, v, instance, k, Unfenced)))]
                    && d.inflight == PushEntry(db.inflight, v, Entry(token, got.value))
    decreases limit
  {
    hide Pop, PushEntry, Copies, Admits;
    if limit != 0 && Listed(db.queues, k) != [] {
      var (qs, id) := Pop(db.queues, k);
      var d := db.(queues := qs);
      if !Claimable(d, id) {
        ClaimNextIssues(d, k, v, instance, token, limit - 1);
      }
    }
  }

  lemma QuietTickets(w: World, w': World)
    requires Ticketed(w) && Quiet(w.db, w'.db) && w'.claims == w.claims
    requires w'.dispatched <= w.claims.Keys && w'.observed <= w.claims.Keys
    ensures Ticketed(w')
  {
    hide Entries;
  }

  lemma ClaimTickets(w: World, e: Event)
    requires Ticketed(w) && Enabled(w, e) && e.ClaimTask?
    ensures Ticketed(Apply(w, e))
  {
    hide Entries, Copies, Admits, ClaimNext, PushEntry;
    ClaimNextIssues(w.db, e.queue, e.worker, e.instance, e.token, e.limit);
  }

  lemma TicketedStays(w: World, e: Event)
    requires Ticketed(w) && Enabled(w, e)
    ensures Ticketed(Apply(w, e))
  {
    hide Ticketed, Quiet, Entries, Apply, Reply, Enabled;
    if e.SubmitTask? || e.RefreshTask? {
      SubmissionTickets(w, e);
    } else if e.ClaimTask? {
      ClaimTickets(w, e);
    } else if e.DiscardFinished? {
      DiscardTickets(w, e);
    } else {
      if e.FinishParent? { FinishIsQuiet(w, e); } else { OtherEventsAreQuiet(w, e); }
      HeldTokensIssued(w, e);
      QuietTickets(w, Apply(w, e));
    }
  }

  lemma HeldTokensIssued(w: World, e: Event)
    requires Ticketed(w) && Enabled(w, e) && !e.ClaimTask?
    ensures Apply(w, e).claims == w.claims
    ensures Apply(w, e).dispatched <= w.claims.Keys && Apply(w, e).observed <= w.claims.Keys
  {
    hide Reply, Entries;
  }

  lemma DiscardTickets(w: World, e: Event)
    requires Ticketed(w) && Enabled(w, e) && e.DiscardFinished?
    ensures Ticketed(Apply(w, e))
  {
    hide Entries, DiscardParent;
  }

  lemma SubmissionTickets(w: World, e: Event)
    requires Ticketed(w) && Enabled(w, e) && (e.SubmitTask? || e.RefreshTask?)
    ensures Ticketed(Apply(w, e))
  {
    hide Entries, Copies, Admits, Submit, ForceRefresh;
    var w' := Apply(w, e);
    forall id | id in w'.db.tasks && w'.db.tasks[id].claim.Some?
      ensures Current(w.db, id, w'.db.tasks[id].claim.value.token)
    {
      hide Submit, ForceRefresh, Copies, Entries;
      if id != e.id {
        assert SameSlot(w.db, w'.db, id);
      }
    }
  }

  /** A generation that was ever issued becomes the current active one only if it already was. */
  lemma OnlyAcceptActivates(w: World, e: Event, p: string, g: string)
    requires Bookkept(w.db.life, w.generations) && Enabled(w, e) && g in w.generations
    requires p in LifeAfter(w, e).active && p in LifeAfter(w, e).parents && LifeAfter(w, e).parents[p].generation == g
    ensures p in w.db.life.active && p in w.db.life.parents && w.db.life.parents[p].generation == g
  {
    hide DiscardTask;
    BookkeptStays(w, e);
  }

  /** A child enrolled before an event is enrolled after it, if its roster was kept. */
  lemma StaysEnrolled(w: World, e: Event, id: string, s: Scope)
    requires Bookkept(w.db.life, w.generations) && Enabled(w, e)
    requires EnrolledTask(w, id, s)
    requires id in Roster(w.db, (s.parent, s.generation)) ==>
               id in Roster(Apply(w, e).db, (s.parent, s.generation))
               || (e.DiscardFinished? && Reply(w, e).code == 1 && e.parent == s.parent)
    ensures EnrolledTask(Apply(w, e), id, s)
  {
    hide Reply, Bookkept, Roster;
    LifeAfterIsRight(w, e);
    var life := LifeAfter(w, e);
    assert s.generation in Apply(w, e).generations && Apply(w, e).generations[s.generation] == s.parent;
    if s.parent in life.active && s.parent in life.parents && life.parents[s.parent].generation == s.generation {
      OnlyAcceptActivates(w, e, s.parent, s.generation);
      DiscardLeavesNoParent(w, e);
    }
  }

  lemma DiscardLeavesNoParent(w: World, e: Event)
    requires Enabled(w, e)
    ensures e.DiscardFinished? && Reply(w, e).code == 1 ==> e.parent !in LifeAfter(w, e).parents
  {
    hide DiscardTask, Copies, Entries;
  }

  /** A scope that a submission or refresh stores is open, and its roster entry is made. */
  lemma SubmissionEnrolls(w: World, e: Event)
    requires Bookkept(w.db.life, w.generations) && Enrolled(w) && Enabled(w, e) && (e.SubmitTask? || e.RefreshTask?)
    ensures Enrolled(Apply(w, e))
  {
    var w' := Apply(w, e);
    forall id | id in w'.db.tasks && w'.db.tasks[id].scope.Some?
      ensures EnrolledTask(w', id, w'.db.tasks[id].scope.value)
    {
      hide Apply, Reply, Enabled, Bookkept, EnrolledTask;
      SubmissionEnrollsOne(w, e, id);
    }
  }

  lemma SubmissionEnrollsOne(w: World, e: Event, id: string)
    requires Bookkept(w.db.life, w.generations) && Enrolled(w) && Enabled(w, e) && (e.SubmitTask? || e.RefreshTask?)
    requires id in Apply(w, e).db.tasks && Apply(w, e).db.tasks[id].scope.Some?
    ensures EnrolledTask(Apply(w, e), id, Apply(w, e).db.tasks[id].scope.value)
  {
    hide Copies, Entries, Push, Purge;
    if id != e.id {
      assert SameSlot(w.db, Apply(w, e).db, id);
      assert EnrolledTask(w, id, w.db.tasks[id].scope.value);
    } else if Reply(w, e).code <= 0 {
      assert EnrolledTask(w, id, w.db.tasks[id].scope.value);
    }
  }

  lemma QuietEnrolls(w: World, e: Event)
    requires Bookkept(w.db.life, w.generations) && Enrolled(w) && Enabled(w, e)
    requires Quiet(w.db, Apply(w, e).db)
    ensures Enrolled(Apply(w, e))
  {
    var w' := Apply(w, e);
    forall id | id in w'.db.tasks && w'.db.tasks[id].scope.Some?
      ensures EnrolledTask(w', id, w'.db.tasks[id].scope.value)
    {
      hide Reply, Entries, EnrolledTask, Apply;
      assert Inherits(w.db, id, w'.db.tasks[id]);
      assert EnrolledTask(w, id, w.db.tasks[id].scope.value);
      StaysEnrolled(w, e, id, w.db.tasks[id].scope.value);
    }
  }

  lemma ClaimEnrolls(w: World, e: Event)
    requires Bookkept(w.db.life, w.generations) && Enrolled(w) && Enabled(w, e) && e.ClaimTask?
    ensures Enrolled(Apply(w, e))
  {
    hide Bookkept, Entries, Copies, Admits;
    ClaimNextIssues(w.db, e.queue, e.worker, e.instance, e.token, e.limit);
    var w' := Apply(w, e);
    forall id | id in w'.db.tasks && w'.db.tasks[id].scope.Some?
      ensures EnrolledTask(w', id, w'.db.tasks[id].scope.value)
    {
      hide ClaimNext, PushEntry, Claimable;
      assert EnrolledTask(w, id, w.db.tasks[id].scope.value);
    }
  }

  lemma DiscardEnrolls(w: World, e: Event)
    requires Bookkept(w.db.life, w.generations) && Enrolled(w) && Enabled(w, e) && e.DiscardFinished?
    ensures Enrolled(Apply(w, e))
  {
    var w' := Apply(w, e);
    forall id | id in w'.db.tasks && w'.db.tasks[id].scope.Some?
      ensures EnrolledTask(w', id, w'.db.tasks[id].scope.value)
    {
      hide Bookkept;
      assert EnrolledTask(w, id, w.db.tasks[id].scope.value);
      StaysEnrolled(w, e, id, w.db.tasks[id].scope.value);
    }
  }

  /** The invariant of every reachable world. */
  lemma ValidStays(w: World, e: Event)
    requires Valid(w) && Enabled(w, e)
    ensures Valid(Apply(w, e))
  {
    hide Conserved, Bookkept, Enrolled, Ticketed, Quiet, Apply, Reply;
    EveryEventConserves(w, e);
    TicketedStays(w, e);
    BookkeptStays(w, e);
    LifeAfterIsRight(w, e);
    GenerationsAfterIsRight(w, e);
    match e
    case SubmitTask(_, _) => SubmissionEnrolls(w, e);
    case RefreshTask(_, _, _) => SubmissionEnrolls(w, e);
    case ClaimTask(_, _, _, _, _) => ClaimEnrolls(w, e);
    case DiscardFinished(_, _) => DiscardEnrolls(w, e);
    case FinishParent(_, _, _, _, _, _) =>
      FinishIsQuiet(w, e);
      QuietEnrolls(w, e);
    case _ =>
      OtherEventsAreQuiet(w, e);
      QuietEnrolls(w, e);
  }

  lemma GenerationsAfterIsRight(w: World, e: Event)
    requires Enabled(w, e)
    ensures Apply(w, e).generations == GenerationsAfter(w, e)
  {
    hide Reply;
  }

  lemma StartIsValid()
    ensures Valid(START)
  {
  }
}
