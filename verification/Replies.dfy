/** When each call succeeds, and what it then leaves: the converse of what the protocol
    permits. */
module Replies {
  import opened Coordination
  import opened Guard
  import opened TaskScripts
  import opened WorkflowScripts
  import opened Protocol
  import opened Conservation
  import opened Phases
  import opened Tokens

  /** The holder's task is one whose attempts all went through claims. */
  predicate Strict(w: World, token: string) {
    token in w.claims && w.claims[token].id !in w.loose
  }

  lemma HolderFacts(w: World, token: string)
    requires Conserved(w) && Strict(w, token)
    ensures Current(w.db, w.claims[token].id, token) ==> Holds(w, token)
  {
    hide Placed;
    assert Placed(w, w.claims[token].id);
    HolderOrStale(w, token);
  }

  /** The execution gate opens exactly for the current token of an admitted, unmarked task. */
  lemma DispatchSucceedsIff(w: World, e: Event)
    requires Valid(w) && Enabled(w, e) && e.MarkProcessing? && Strict(w, e.token)
    ensures var id := w.claims[e.token].id;
            && (Reply(w, e).code == 1 <==>
                  && Current(w.db, id, e.token) && Admitted(w.db, w.db.tasks[id])
                  && Name.Child(id) !in w.db.life.cancels
                  && (w.db.tasks[id].data.base.Some? ==>
                        Name.Parent(w.db.tasks[id].data.base.value) !in w.db.life.cancels))
            && (Reply(w, e).code == 1 ==>
                  && PhaseOf(Apply(w, e), id) == Executing && Current(Apply(w, e).db, id, e.token)
                  && Apply(w, e).db.tasks[id] ==
                     w.db.tasks[id].(status := Processing,
                                     claim := Some(w.db.tasks[id].claim.value.(recovery := Fenced))))
            && (Reply(w, e).code == -2 <==> !Current(w.db, id, e.token))
  {
    hide Copies, Entries, Admits, Bookkept, Enrolled, Ticketed, Conserved, NoEntries, OneEntry, NoCopies, Mark;
    HolderFacts(w, e.token);
    var i := w.claims[e.token];
    if Current(w.db, i.id, e.token) {
      MarkSlot(w.db, i.id, i.worker, i.instance, i.source, e.token, i.base);
    } else {
      StaleMark(w.db, i.id, i.worker, i.instance, i.source, e.token, i.base);
    }
  }

  lemma StaleMark(db: Redis, id: string, v: Worker, instance: string, source: Queue, token: string,
                  base: Option<string>)
    requires !Current(db, id, token)
    ensures Mark(db, id, v, instance, source, token, base).code == -2
  {
  }

  /** A requeue succeeds exactly for the current token, with authority over the fence, of an
      admitted, unmarked task; the task then waits once, in the queue it is bound for. */
  lemma RequeueSucceedsIff(w: World, e: Event)
    requires Valid(w) && Enabled(w, e) && e.RequeueClaim? && Strict(w, e.token)
    ensures var id := w.claims[e.token].id;
            && (Reply(w, e).code == 1 <==>
                  && Current(w.db, id, e.token)
                  && (var fence := w.db.tasks[id].claim.value.recovery;
                      fence == Unfenced || e.mode == ReleaseAll || (fence == Fenced && e.mode == ReleaseExecution))
                  && Admitted(w.db, w.db.tasks[id]) && Name.Child(id) !in w.db.life.cancels
                  && (w.db.tasks[id].data.base.Some? ==>
                        Name.Parent(w.db.tasks[id].data.base.value) !in w.db.life.cancels))
            && (Reply(w, e).code == 1 ==>
                  var dest := if e.restore then w.claims[e.token].source else Pool(w.db.tasks[id].data.resource);
                  && PhaseOf(Apply(w, e), id) == Queued
                  && OneCopy(Apply(w, e).db.queues, id, dest)
                  && Listed(Apply(w, e).db.queues, dest) == [id] + Listed(w.db.queues, dest)
                  && Apply(w, e).db.tasks[id].data.note == e.note)
            && (Reply(w, e).code == -3 <==> !Current(w.db, id, e.token))
  {
    hide Copies, Entries, Admits, Bookkept, Enrolled, Ticketed, Conserved, NoEntries, OneEntry, NoCopies,
        Repush, Touches, Quiet;
    HolderFacts(w, e.token);
    var i := w.claims[e.token];
    if Current(w.db, i.id, e.token) {
      var t := w.db.tasks[i.id];
      RequeueSlot(w.db, i.id, i.worker, e.token, if e.restore then i.source else Pool(t.data.resource),
                  t.data.(note := e.note),
                  if e.restore then t.assignee else None, if e.restore then t.assignedAt else "", i.base, e.mode);
    }
  }

  /** A completion succeeds exactly for the current token, unless the claim is frozen and the
      caller has not proven containment; it publishes this very status and result. */
  lemma CompletionSucceedsIff(w: World, e: Event)
    requires Enabled(w, e) && e.FinalizeClaim?
    ensures var id := w.claims[e.token].id;
            var db := Apply(w, e).db;
            && (Reply(w, e).code == 1 <==> Current(w.db, id, e.token) && (w.db.tasks[id].claim.value.recovery.Frozen?
                                                                          ==> e.allowFrozen))
            && (Reply(w, e).code == 1 ==>
                  && id in db.tasks && db.tasks[id] == w.db.tasks[id].(status := e.status, claim := None)
                  && id in db.results && db.results[id] == e.result)
            && (Reply(w, e).code == 0 <==> !Current(w.db, id, e.token))
            && (Reply(w, e).code != 1 ==> db.tasks == w.db.tasks && db.results == w.db.results)
  {
    hide Copies, Entries;
  }

  /** And that is final: after a successful completion, whatever any process does, the id keeps
      this status and this result until they expire, are discarded or are replaced. */
  lemma CompletionIsFinal(w: World, e: Event, es: seq<Event>)
    requires Enabled(w, e) && e.FinalizeClaim? && Reply(w, e).code == 1 && CanRun(Apply(w, e), es)
    requires var id := w.claims[e.token].id;
             forall i :: 0 <= i < |es| ==> !Retires(es[i], id) && !(es[i].CommitClaimless? && es[i].id == id)
    ensures var id := w.claims[e.token].id;
            var db := After(Apply(w, e), es).db;
            && id in db.tasks && db.tasks[id].status == e.status && db.tasks[id].claim.None?
            && id in db.results && db.results[id] == e.result
  {
    hide CanRun, After, Apply, Reply, Retires;
    CompletionSucceedsIff(w, e);
    TerminalForGood(Apply(w, e), es, w.claims[e.token].id);
  }

  /** The same for a completion without a claim, which writes whatever it finds: this very status
      and result, with no claim left. */
  lemma ClaimlessCompletionIsFinal(w: World, e: Event, es: seq<Event>)
    requires Enabled(w, e) && e.CommitClaimless? && CanRun(Apply(w, e), es)
    requires forall i :: 0 <= i < |es| ==> !Retires(es[i], e.id) && !(es[i].CommitClaimless? && es[i].id == e.id)
    ensures var db := After(Apply(w, e), es).db;
            && e.id in db.tasks && db.tasks[e.id].status == e.status && db.tasks[e.id].claim == None
            && e.id in db.results && db.results[e.id] == e.result
  {
    hide CanRun, After, Apply, Reply, Retires;
    ClaimlessCommits(w, e);
    TerminalForGood(Apply(w, e), es, e.id);
  }

  lemma ClaimlessCommits(w: World, e: Event)
    requires Enabled(w, e) && e.CommitClaimless?
    ensures var db := Apply(w, e).db;
            && e.id in db.tasks && db.tasks[e.id].status == e.status && db.tasks[e.id].claim == None
            && e.id in db.results && db.results[e.id] == e.result && Terminal(e.status)
            && (e.id in w.db.tasks ==> db.tasks[e.id] == w.db.tasks[e.id].(status := e.status, claim := None))
  {
    hide Copies, Entries;
  }

  /** An acknowledgement that the protocol allows leaves a fenced attempt as it is, and takes an
      unstarted one, whose holder has seen it cancelled, out of all hands. */
  lemma AckLetsGoIff(w: World, e: Event)
    requires Valid(w) && Enabled(w, e) && e.AckClaim? && Strict(w, e.token)
    requires Current(w.db, w.claims[e.token].id, e.token)
    ensures var id := w.claims[e.token].id;
            && (Reply(w, e).code == 1 <==> w.db.tasks[id].claim.value.recovery == Unfenced)
            && (if Reply(w, e).code == 1
                then Apply(w, e).db.tasks[id] == w.db.tasks[id].(claim := None)
                     && NoEntries(Apply(w, e).db.inflight, id)
                     && PhaseOf(Apply(w, e), id) == Abandoned
                else Apply(w, e).db == w.db)
  {
    hide Copies, Entries, Admits, Bookkept, Enrolled, Ticketed, Conserved, NoEntries, OneEntry, Forget;
    HolderFacts(w, e.token);
    var i := w.claims[e.token];
    ForgetClears(w.db, i.id, i.worker, e.token);
  }

  /** A CPU worker dispatches exactly a pending, admitted, unmarked task, and changes nothing but
      its status. */
  lemma CpuMarkSucceedsIff(w: World, e: Event)
    requires Enabled(w, e) && e.MarkCpuTask?
    ensures var id := e.id;
            && (Reply(w, e).code == 1 <==>
                  && id in w.db.tasks && w.db.tasks[id].status == Pending && Admitted(w.db, w.db.tasks[id])
                  && Name.Child(id) !in w.db.life.cancels
                  && (w.db.tasks[id].data.base.Some? ==>
                        Name.Parent(w.db.tasks[id].data.base.value) !in w.db.life.cancels))
            && Apply(w, e) == w.(db := if Reply(w, e).code != 1 then w.db
                                       else w.db.(tasks := w.db.tasks[id := w.db.tasks[id].(status := Processing)]))
  {
    hide Copies, Entries, Admits;
  }

  /** A discard removes exactly an ended, unheld record of the named generation, with its result
      and marker. */
  lemma DiscardSucceedsIff(w: World, e: Event)
    requires Enabled(w, e) && e.DiscardChild?
    ensures var db := Apply(w, e).db;
            && (Reply(w, e).code == 1 <==>
                  EndedTask(w.db, e.id) && w.db.tasks[e.id].scope.Some?
                  && w.db.tasks[e.id].scope.value.generation == e.generation)
            && (Reply(w, e).code == 1 ==>
                  && e.id !in db.tasks && e.id !in db.results && Name.Child(e.id) !in db.life.cancels
                  && db.life.tombstones == w.db.life.tombstones)
            && (Reply(w, e).code != 1 ==> db == w.db)
  {
    hide Copies, Entries;
  }

  lemma DiscardParentSucceedsIff(w: World, e: Event)
    requires Enabled(w, e) && e.DiscardFinished?
    ensures var p, before, db := e.parent, w.db.life, Apply(w, e).db;
            && (Reply(w, e).code == 1 <==>
                  p in before.parents && before.parents[p].generation == e.generation
                  && Terminal(before.parents[p].status))
            && (Reply(w, e).code == 1 ==>
                  && p !in db.life.parents && p !in db.life.parentResults && p !in db.life.leases
                  && (p, e.generation) !in db.rosters && Name.Parent(p) !in db.life.cancels
                  && db.life.tombstones == before.tombstones && db.life.active == before.active)
            && (Reply(w, e).code != 1 ==> db == w.db)
  {
  }

  /** A deferred claim goes back exactly for its current token: queued once if the task may
      still run, abandoned if not. */
  lemma ReturnSucceedsIff(w: World, e: Event)
    requires Valid(w) && Enabled(w, e) && e.ReturnClaim? && Strict(w, e.token)
    ensures var id := w.claims[e.token].id;
            && (Reply(w, e).code == 1 <==> Current(w.db, id, e.token))
            && (Reply(w, e).code == 1 ==>
                  && PhaseOf(Apply(w, e), id) == (if Admitted(w.db, w.db.tasks[id]) then Queued else Abandoned)
                  && Apply(w, e).db.tasks[id] == w.db.tasks[id].(claim := None)
                  && (Admitted(w.db, w.db.tasks[id]) ==>
                        var source := w.claims[e.token].source;
                        Listed(Apply(w, e).db.queues, source) == [id] + Listed(w.db.queues, source)))
  {
    hide Copies, Entries, Admits, Bookkept, Enrolled, Ticketed, Conserved, NoEntries, OneEntry, Forget, GiveBack;
    HolderFacts(w, e.token);
    var i := w.claims[e.token];
    if Current(w.db, i.id, e.token) {
      GivenBack(w.db, i.id, i.source);
    }
  }

  /** A submission creates a task exactly if it is admitted and the id is unused, and puts it
      last in line. */
  lemma SubmissionSucceedsIff(w: World, e: Event)
    requires Enabled(w, e) && e.SubmitTask? && Placed(w, e.id)
    ensures var t := NewTask(e.id, e.sub);
            var db := Apply(w, e).db;
            && (Reply(w, e).code == 1 <==> e.id !in w.db.tasks && Admitted(w.db, t))
            && (Reply(w, e).code == 1 ==>
                  && db.tasks == w.db.tasks[e.id := t]
                  && var k := if e.sub.assignee.Some? then Direct(e.sub.assignee.value)
                              else Pool(e.sub.data.resource);
                     Listed(db.queues, k) == [e.id] + Listed(w.db.queues, k))
            && (Reply(w, e).code == -5 <==> !Admitted(w.db, t))
            && (Reply(w, e).code != 1 ==> db == w.db)
  {
    hide Entries, Admits, Without;
    assert e.id !in w.db.tasks ==> Copies(w.db.queues, Home(NewTask(e.id, e.sub)), e.id) == 0;
  }

  /** A cancelled task that is not a parent: waiting or just claimed, it ends at once; already
      running, it is left to its holder. */
  lemma CancelSettlesTask(w: World, e: Event)
    requires Enabled(w, e) && e.CancelId? && e.id in w.db.tasks && e.id !in w.db.life.parents && Placed(w, e.id)
    ensures PhaseOf(Apply(w, e), e.id) == if w.db.tasks[e.id].status.Pending? then Done else PhaseOf(w, e.id)
    ensures w.db.tasks[e.id].status.Pending? ==>
              e.id in Apply(w, e).db.results && Apply(w, e).db.results[e.id] == "Task cancelled"
  {
    hide Copies, Entries, Admits, Unqueue, Disarm, NoEntries, OneEntry, Condemn;
  }

  /** A freeze succeeds exactly for the current token and contains the attempt. */
  lemma FreezeSucceedsIff(w: World, e: Event)
    requires Valid(w) && Enabled(w, e) && e.FreezeClaim? && Strict(w, e.token)
    ensures var id := w.claims[e.token].id;
            && (Reply(w, e).code == 1 <==> Current(w.db, id, e.token))
            && (Reply(w, e).code == 1 ==> PhaseOf(Apply(w, e), id) == Contained && Current(Apply(w, e).db, id, e.token))
            && (Reply(w, e).code != 1 ==> Apply(w, e).db == w.db)
  {
    hide Copies, Entries, Admits, Bookkept, Enrolled, Ticketed, Conserved, NoEntries, OneEntry;
    HolderFacts(w, e.token);
  }

  /** A force-refresh replaces exactly an admitted id that is unused, or ended and unclaimed;
      the old result is gone with the old record. */
  lemma RefreshSucceedsIff(w: World, e: Event)
    requires Enabled(w, e) && e.RefreshTask?
    ensures var t := NewTask(e.id, e.sub);
            var db := Apply(w, e).db;
            && (Reply(w, e).code > 0 <==>
                  Admitted(w.db, t) && (e.id in w.db.tasks ==>
                      Terminal(w.db.tasks[e.id].status) && w.db.tasks[e.id].claim.None?))
            && (Reply(w, e).code > 0 ==> e.id in db.tasks && db.tasks[e.id] == t && e.id !in db.results)
            && (Reply(w, e).code == 1 <==> Admitted(w.db, t) && e.id !in w.db.tasks)
            && (Reply(w, e).code == -5 <==> !Admitted(w.db, t))
            && (Reply(w, e).code == -2 <==>
                  Admitted(w.db, t) && e.id in w.db.tasks && w.db.tasks[e.id].claim.Some?
                  && w.db.tasks[e.id].claim.value.recovery == Frozen)
            && (Reply(w, e).code <= 0 ==> db == w.db)
  {
    hide Admits, Copies, Entries, Push, PurgeAll, NewTask, Home;
  }

  /** A refresh starts the id over: every token that was ever issued for it is superseded, and
      in every later run its holder can at most remove its own inflight entry. */
  lemma RefreshShutsOutOldAttempts(w: World, e: Event, es: seq<Event>, late: Event)
    requires Enabled(w, e) && e.RefreshTask? && Reply(w, e).code > 0
    requires CanRun(Apply(w, e), es) && Enabled(After(Apply(w, e), es), late)
    requires OnToken(late) && late.token in w.claims && w.claims[late.token].id == e.id
    ensures var v := After(Apply(w, e), es);
            && Superseded(v, late.token)
            && (Apply(v, late).db == v.db
                || Apply(v, late).db == Forget(v.db, e.id, w.claims[late.token].worker, late.token))
  {
    hide CanRun, After, Reply, Enabled, Forget, NewTask;
    RefreshSucceedsIff(w, e);
    RefreshIssuesNothing(w, e);
    SupersededForGood(Apply(w, e), es, late.token);
    SupersededIsPowerless(After(Apply(w, e), es), late);
  }

  lemma RefreshIssuesNothing(w: World, e: Event)
    requires Enabled(w, e) && e.RefreshTask?
    ensures Apply(w, e).claims == w.claims && NewTask(e.id, e.sub).claim.None?
  {
    hide Reply;
  }
}
