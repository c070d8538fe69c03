/** The CPU gate and claims: a reachable world in which they collide. */
module CpuRaces {
  import opened Coordination
  import opened Guard
  import opened TaskScripts
  import opened WorkflowScripts
  import opened Protocol
  import opened Tokens
  import opened Stranding

  /** A submission with nothing to it but the resource it needs. */
  function Plain(r: Resource): Submission {
    Submission(Payload(r, None, "", "", ""), "", None, None, None)
  }

  lemma PlainIsAdmitted(db: Redis, id: string, r: Resource)
    requires db.life.tombstones == {}
    ensures Admitted(db, NewTask(id, Plain(r))) && Home(NewTask(id, Plain(r))) == Pool(r)
  {
  }

  /** What the steps before the claim say about the world: one record, and nothing else yet. */
  predicate Alone(w: World, id: string) {
    w.claims == map[] && w.dispatched == {} && w.db.inflight == map[] && w.db.life == EMPTY.life && id in w.db.tasks
  }

  lemma Submits(id: string)
    ensures var e := SubmitTask(id, Plain(Cpu));
            && Enabled(START, e)
            && var w := Apply(START, e);
               && Alone(w, id) && Listed(w.db.queues, Pool(Cpu)) == [id] && Listed(w.db.queues, Pool(Gpu)) == []
               && w.db.tasks[id] == NewTask(id, Plain(Cpu))
  {
    PlainIsAdmitted(EMPTY, id, Cpu);
    OnlyOne(EMPTY.queues, id, Pool(Cpu));
    hide Admits, NewTask;
  }

  lemma Pops(w: World, id: string)
    requires Alone(w, id) && Listed(w.db.queues, Pool(Cpu)) == [id] && Listed(w.db.queues, Pool(Gpu)) == []
    ensures var e := PopCpu(Pool(Cpu));
            && Enabled(w, e)
            && var d := Apply(w, e);
               Alone(d, id) && id in d.loose && Listed(d.db.queues, Pool(Gpu)) == [] && d.db.tasks == w.db.tasks
  {
  }

  lemma Completes(w: World, id: string)
    requires Alone(w, id) && id in w.loose && Listed(w.db.queues, Pool(Gpu)) == []
    requires w.db.tasks[id] == NewTask(id, Plain(Cpu))
    ensures var e := CommitClaimless(id, Completed, "");
            && Enabled(w, e)
            && var d := Apply(w, e);
               && Alone(d, id) && id in d.loose && Listed(d.db.queues, Pool(Gpu)) == []
               && d.db.tasks[id] == NewTask(id, Plain(Cpu)).(status := Completed)
  {
  }

  lemma Refreshes(w: World, id: string)
    requires Alone(w, id) && id in w.loose && Listed(w.db.queues, Pool(Gpu)) == []
    requires w.db.tasks[id] == NewTask(id, Plain(Cpu)).(status := Completed)
    ensures var e := RefreshTask(id, Plain(Gpu), []);
            && Enabled(w, e)
            && var d := Apply(w, e);
               && Alone(d, id) && id in d.loose && Listed(d.db.queues, Pool(Gpu)) == [id]
               && d.db.tasks[id] == NewTask(id, Plain(Gpu))
  {
    PlainIsAdmitted(w.db, id, Gpu);
    RefreshedQueue(w.db, id);
    hide Admits, Copies, Entries, Erase;
  }

  lemma RefreshedQueue(db: Redis, id: string)
    requires id in db.tasks && db.tasks[id].assignee.None? && Listed(db.queues, Pool(Gpu)) == []
    ensures var t := NewTask(id, Plain(Gpu));
            Listed(Publish(Erase(db, id, t, []), id, t).queues, Pool(Gpu)) == [id]
  {
    var qs := PurgeAll(db.queues, [Pool(Gpu)] + [], id);
    assert ([Pool(Gpu)] + [])[1..] == [];
    assert qs == PurgeAll(Purge(db.queues, Pool(Gpu), id), [], id);
    assert Listed(qs, Pool(Gpu)) == [];
  }

  /** A GPU worker holds an unstarted claim on a task that a CPU worker, which popped an earlier
      incarnation of the id, is about to dispatch. */
  predicate Collides(w: World, id: string, token: string) {
    && Enabled(w, MarkCpuTask(id)) && Dispatches(w, MarkCpuTask(id), id)
    && Current(w.db, id, token) && w.db.tasks[id].claim.value.recovery.Unfenced?
    && token in w.claims && w.claims[token].id == id && w.claims[token].base == w.db.tasks[id].data.base
  }

  lemma Claims(w: World, id: string, token: string)
    requires Alone(w, id) && id in w.loose && Listed(w.db.queues, Pool(Gpu)) == [id]
    requires w.db.tasks[id] == NewTask(id, Plain(Gpu))
    ensures var e := ClaimTask(token, HOLDER, "", Pool(Gpu), 1);
            Enabled(w, e) && Collides(Apply(w, e), id, token)
  {
    PlainIsAdmitted(w.db, id, Gpu);
    ClaimStep(w, id, Pool(Gpu), HOLDER, token);
    TakenRecord(w.db, id, Pool(Gpu), HOLDER, token);
    hide Take, Pop, ClaimNext;
    CpuGateOpens(ClaimedWorld(w, id, Pool(Gpu), HOLDER, token), id);
  }

  lemma CpuGateOpens(w: World, id: string)
    requires id in w.loose && id in w.db.tasks && w.db.tasks[id].status.Pending? && Admitted(w.db, w.db.tasks[id])
    requires w.db.tasks[id].data.base.None? && w.db.life.cancels == {}
    ensures Enabled(w, MarkCpuTask(id)) && Dispatches(w, MarkCpuTask(id), id)
  {
    hide Admits, Copies, Entries;
  }

  lemma CollisionIsReachable(id: string, token: string)
    ensures exists es :: CanRun(START, es) && Collides(After(START, es), id, token)
  {
    hide Apply, Enabled, Collides, NewTask, CanRun, After;
    var e1, e2, e3 := SubmitTask(id, Plain(Cpu)), PopCpu(Pool(Cpu)), CommitClaimless(id, Completed, "");
    var e4, e5 := RefreshTask(id, Plain(Gpu), []), ClaimTask(token, HOLDER, "", Pool(Gpu), 1);
    Submits(id);
    var w1 := Apply(START, e1);
    Pops(w1, id);
    var w2 := Apply(w1, e2);
    Completes(w2, id);
    var w3 := Apply(w2, e3);
    Refreshes(w3, id);
    var w4 := Apply(w3, e4);
    Claims(w4, id, token);
    OneEvent(w4, e5);
    Unroll(w3, e4, [e5]);
    Unroll(w2, e3, [e4] + [e5]);
    Unroll(w1, e2, [e3] + ([e4] + [e5]));
    Unroll(START, e1, [e2] + ([e3] + ([e4] + [e5])));
  }

  /** So from the empty keyspace, for every id, a run leads to a CPU dispatch of a held task that
      its holder can requeue for a second dispatch of the same incarnation. */
  lemma HeldTaskDoesRunTwice(id: string, token: string)
    ensures exists es :: CanRun(START, es) && RunsTwice(After(START, es), id, token)
  {
    CollisionIsReachable(id, token);
    hide CanRun, After, Collides, RunsTwice;
    var es :| CanRun(START, es) && Collides(After(START, es), id, token);
    CollisionRunsTwice(After(START, es), id, token);
  }

  predicate RunsTwice(w: World, id: string, token: string) {
    var mark := MarkCpuTask(id);
    var requeue := RequeueClaim(token, true, NoRelease, "");
    && Enabled(w, mark) && Dispatches(w, mark, id)
    && Enabled(Apply(w, mark), requeue) && !Creates(Apply(w, mark), requeue, id)
    && Enabled(Apply(Apply(w, mark), requeue), mark) && Dispatches(Apply(Apply(w, mark), requeue), mark, id)
  }

  lemma CollisionRunsTwice(w: World, id: string, token: string)
    requires Collides(w, id, token)
    ensures RunsTwice(w, id, token)
  {
    HeldTaskCanRunTwice(w, MarkCpuTask(id), token);
    hide Apply, Reply, Dispatches, Creates;
  }
}
