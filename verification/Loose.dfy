/** The two paths without a claim token, and exactly when they keep a task in one place. */
module Loose {
  import opened Coordination
  import opened Guard
  import opened TaskScripts
  import opened Protocol
  import opened Conservation
  import opened Phases

  /** A completion without a claim reads first and writes later, over whatever is there,
      also over nothing when the record has expired. It leaves the id in one place exactly if
      at that moment the id neither waits in a queue nor is held by anyone; the record it
      makes up for an absent id can no longer be cancelled. */
  lemma ClaimlessCommitIsSafeIff(w: World, id: string, status: Status, result: string)
    requires Placed(w, id) && Terminal(status)
    ensures var w' := w.(db := ClaimlessCommit(w.db, id, status, result));
            && id in w'.db.tasks
            && (PlacedTask(w', id, w'.db.tasks[id]) <==> PhaseOf(w, id) in {Absent, Done, Abandoned})
            && (Keyed(id, w'.db.tasks[id]) <==> id in w.db.tasks)
  {
    hide Copies, Entries, Admits, Closed;
    var w' := w.(db := ClaimlessCommit(w.db, id, status, result));
    assert w'.db.queues == w.db.queues && w'.db.inflight == w.db.inflight;
    if id in w.db.tasks && w.db.tasks[id].claim.Some? {
      var c := w.db.tasks[id].claim.value;
      assert Entries(w.db.inflight, c.worker, Entry(c.token, id)) == 1;
    }
  }

  /** Whatever debris an id has left in the queues, loose or not: the script that queues it leaves
      one copy in that queue, and a refresh none in the other queues it knows; a withdrawal leaves
      none in the pools and in the queue of the assigned worker. */
  lemma QueuedOnceWhateverWas(db: Redis, id: string, t: Task, known: seq<Queue>, v: Worker, token: string, dest: Queue,
                              base: Option<string>, mode: Release, why: string)
    ensures var r := Submit(db, id, t); r.code > 0 ==> Copies(r.db.queues, Home(t), id) == 1
    ensures var r := ForceRefresh(db, id, t, known);
            r.code > 0 ==>
              && Copies(r.db.queues, Home(t), id) == 1
              && (forall k :: k in known && k != Home(t) ==> Copies(r.db.queues, k, id) == 0)
              && (id in db.tasks && db.tasks[id].assignee.Some? && Direct(db.tasks[id].assignee.value) != Home(t) ==>
                    Copies(r.db.queues, Direct(db.tasks[id].assignee.value), id) == 0)
    ensures var r := Return(db, id, v, dest, token);
            r.code == 1 ==> Copies(r.db.queues, dest, id) == if Admitted(db, db.tasks[id]) then 1 else 0
    ensures var r := Requeue(db, id, v, token, dest, t.data, t.assignee, t.assignedAt, base, mode);
            r.code == 1 ==> Copies(r.db.queues, dest, id) == 1
    ensures var r := Withdraw(db, id, why).queues;
            && Copies(r, Pool(Cpu), id) == 0 && Copies(r, Pool(Gpu), id) == 0
            && (id in db.tasks && db.tasks[id].assignee.Some? ==>
                  Copies(r, Direct(db.tasks[id].assignee.value), id) == 0)
  {
    hide Copies, Entries, Admits, Home, Push, Purge, PurgeAll, DropEntry, Unqueue, Marked;
  }

  /** A CPU dequeue takes the task out of its queue before anything is recorded about it.
      Until it is marked or put back the task is lost, to any crash, exactly if its guard is
      open, whether or not the task is anchored; otherwise it is still in one place. */
  lemma CpuDequeueIsSafeIff(w: World, k: Queue)
    requires Conserved(w) && Listed(w.db.queues, k) != [] && Pop(w.db.queues, k).1 !in w.loose
    ensures var id := Pop(w.db.queues, k).1;
            && id in w.db.tasks && w.db.tasks[id].status.Pending? && w.db.tasks[id].claim.None?
            && (Lost(Popped(w, k), id) <==> Admitted(w.db, w.db.tasks[id]))
            && (Placed(Popped(w, k), id) && !Lost(Popped(w, k), id) <==> !Admitted(w.db, w.db.tasks[id]))
  {
    hide Copies, Entries, Admits, Pop, Held;
    var id := Pop(w.db.queues, k).1;
    assert Placed(w, id);
    if id in w.db.tasks && w.db.tasks[id].claim.Some? { HeldHasNoCopies(w, id); }
  }
}
