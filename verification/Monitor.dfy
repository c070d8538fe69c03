/** The queue-wait monitor: it lists a worker's queue, reads a task, and only later, in a
    second step, moves it. Anything may happen in between. */
module Monitor {
  import opened Coordination
  import opened Guard
  import opened TaskScripts
  import opened Protocol
  import opened Conservation
  import opened Bookkeeping
  import opened Runs

  /** What the monitor decides to try, from the task it has read. */
  function Intent(seen: Snapshot, src: Worker): Move {
    if seen.assignee.Some? && seen.assignee.value != src then RemoveStaleCopy else MoveToPool
  }

  /** The monitor's decision and its move as one step, with no read before it. */
  function MoveNow(db: Redis, id: string, src: Worker, note: string): Outcome {
    if id !in db.tasks then Outcome(db, -3)
    else
      var now := SnapshotOf(db.tasks[id]);
      QueueWait(db, id, src, Intent(now, src), now, note)
  }

  /** The task still waits in the queue of the worker it is assigned to. */
  predicate Waiting(db: Redis, id: string, src: Worker) {
    && id in db.tasks && db.tasks[id].status.Pending? && db.tasks[id].claim.None?
    && db.tasks[id].assignee == Some(src) && id in Listed(db.queues, Direct(src))
    && Admitted(db, db.tasks[id]) && !Marked(db.life, id, db.tasks[id].data.base)
  }

  /** In a conserved world a move succeeds exactly on a task that still waits in this
      worker's queue and still looks as it was read; then it is the one pending copy that
      changes queue. In every other case, a stale copy included, nothing changes. */
  lemma MovesExactlyTheWaiting(w: World, id: string, src: Worker, seen: Snapshot, note: string)
    requires Placed(w, id)
    ensures var o := QueueWait(w.db, id, src, Intent(seen, src), seen, note);
            && (o.code == 1 <==>
                  Waiting(w.db, id, src)
                  && var t := w.db.tasks[id]; seen == Snapshot(t.assignee, t.assignedAt, t.submittedAt, t.data))
            && (o.code != 1 ==> o.db == w.db)
            && (o.code == 1 ==>
                  && OneCopy(w.db.queues, id, Direct(src))
                     && OneCopy(o.db.queues, id, Pool(w.db.tasks[id].data.resource))
                  && NoEntries(o.db.inflight, id)
                  && id in o.db.tasks
                  && o.db.tasks[id] == w.db.tasks[id].(data := seen.data.(note := note), assignee := None,
                                                       assignedAt := ""))
  {
    hide Copies, Entries, Admits, TakeOne, Repush, Marked, Held, Closed;
    CopiesOfListed(w.db.queues, Direct(src), id);
    if id in w.db.tasks && w.db.tasks[id].claim.Some? {
      HeldHasNoCopies(w, id);
    }
  }

  /** A copy in this worker's queue of a task that is assigned to another worker, which only a
      path without a claim can leave behind, is taken out, and nothing else is touched. */
  lemma RemovesExactlyStaleCopies(db: Redis, id: string, src: Worker, note: string)
    ensures var o := MoveNow(db, id, src, note);
            && (o.code == 2 <==>
                  && id in db.tasks && db.tasks[id].assignee.Some? && db.tasks[id].assignee.value != src
                  && Copies(db.queues, Direct(src), id) > 0)
            && (o.code == 2 ==>
                  && o.db == db.(queues := o.db.queues)
                  && forall k, x :: Copies(o.db.queues, k, x) ==
                                    Copies(db.queues, k, x) - if k == Direct(src) && x == id then 1 else 0)
  {
    hide Copies, TakeOne, MoveToPoolOf, Admits, Marked;
  }

  lemma CopiesOfListed(qs: Queues, k: Queue, id: string)
    ensures Copies(qs, k, id) > 0 <==> id in Listed(qs, k)
  {
  }

  /** Linearizable: the monitor read the task at some moment, any events followed, and what
      its move does in the end is either nothing or what deciding and moving in one step
      would do at that very moment. So a claim, cancellation, requeue or refresh in between
      is never undone, and no task is lost, duplicated or taken from another worker. */
  lemma TheMonitorIsLinearizable(w: World, es: seq<Event>, id: string, src: Worker, note: string)
    requires Valid(w) && CanRun(w, es) && id in w.db.tasks && id !in After(w, es).loose
    ensures var seen := SnapshotOf(w.db.tasks[id]);
            var later := After(w, es);
            var o := QueueWait(later.db, id, src, Intent(seen, src), seen, note);
            && (o.db == later.db || o == MoveNow(later.db, id, src, note))
            && (o.code == 1 <==> Waiting(later.db, id, src) && SnapshotOf(later.db.tasks[id]) == seen)
            && (o.code != 1 ==> o.db == later.db)
            && Valid(later.(db := o.db))
  {
    hide CanRun, After, QueueWait, Bookkept, Enrolled, Ticketed, Placed, Waiting, Intent;
    var later := After(w, es);
    var seen := SnapshotOf(w.db.tasks[id]);
    RunsStayValid(w, es);
    MovesExactlyTheWaiting(later, id, src, seen, note);
    MoveKeepsValid(later, id, src, Intent(seen, src), seen, note);
    WaitingIsStored(later.db, id, src);
  }

  lemma WaitingIsStored(db: Redis, id: string, src: Worker)
    ensures Waiting(db, id, src) ==> id in db.tasks
  {
  }

  lemma MoveKeepsValid(w: World, id: string, src: Worker, op: Move, seen: Snapshot, note: string)
    requires Valid(w)
    ensures Valid(w.(db := QueueWait(w.db, id, src, op, seen, note).db))
  {
    hide Valid, QueueWait;
    ValidStays(w, MoveWaiting(id, src, op, seen, note));
  }
}
