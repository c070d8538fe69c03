/** One function per task script: the keyspace and reply it produces from the
    keyspace it finds. Each script runs atomically. */
module TaskScripts {
  import opened Coordination
  import opened Guard

  datatype Release = NoRelease | ReleaseExecution | ReleaseAll

  /** The error message of a cancelled task or workflow. */
  const CANCELLED := "Task cancelled"

  function Unclaim(t: Task): Task {
    t.(claim := None)
  }

  function Roster(db: Redis, key: (string, string)): set<string> {
    if key in db.rosters then db.rosters[key] else {}
  }

  /** SADD to the generation's children set, when the task carries a workflow scope. */
  function Enroll(db: Redis, id: string, t: Task): map<(string, string), set<string>> {
    if t.scope.None? then db.rosters
    else
      var key := (t.scope.value.parent, t.scope.value.generation);
      db.rosters[key := Roster(db, key) + {id}]
  }

  lemma Untouched(db: Redis, id: string)
    ensures Touches(db, db, id)
  {
  }

  function Publish(db: Redis, id: string, t: Task): (r: Redis)
    ensures Touches(db, r, id)
    ensures id in r.tasks && r.tasks[id] == t && r.rosters == Enroll(db, id, t) && r.inflight == db.inflight
  {
    db.(tasks := db.tasks[id := t], queues := Push(db.queues, Home(t), id), rosters := Enroll(db, id, t))
  }

  /** submit-task-if-absent */
  function Submit(db: Redis, id: string, t: Task): (r: Outcome)
    ensures Touches(db, r.db, id)
    ensures r.code > 0 ==>
              Admitted(db, t) && id in r.db.tasks && r.db.tasks[id] == t && r.db.rosters == Enroll(db, id, t)
    ensures r.code <= 0 ==> r.db == db
    ensures r.db.inflight == db.inflight
  {
    if !Admitted(db, t) then Outcome(db, -5)
    else if id in db.tasks then Outcome(db, 0)
    else Outcome(Publish(db.(queues := Purge(db.queues, Home(t), id)), id, t), 1)
  }

  /** LREM over a list of cleanup queues. */
  function PurgeAll(qs: Queues, ks: seq<Queue>, id: string): (r: Queues)
    ensures forall j, x :: Copies(r, j, x) == if j in ks && x == id then 0 else Copies(qs, j, x)
    decreases |ks|
  {
    if ks == [] then qs
    else
      assert ks == [ks[0]] + ks[1..];
      PurgeAll(Purge(qs, ks[0], id), ks[1..], id)
  }

  /** The reply of force-refresh: 1 creates an absent task, 2 replaces a terminal,
      unclaimed one; anything else refuses. */
  function RefreshReply(db: Redis, id: string, t: Task): int {
    if !Admitted(db, t) then -5
    else if id !in db.tasks then 1
    else if db.tasks[id].claim.Some? && db.tasks[id].claim.value.recovery.Frozen? then -2
    else if db.tasks[id].claim.Some? then -1
    else if !Terminal(db.tasks[id].status) then -4
    else 2
  }

  /** The keyspace once an old task is deleted and pulled out of the queues the script
      knows: its worker's, the destination and the caller's `known` ones. */
  function Erase(db: Redis, id: string, t: Task, known: seq<Queue>): (r: Redis)
    ensures Touches(db, r, id)
    ensures r.inflight == db.inflight && r.rosters == db.rosters
  {
    hide Copies, Entries, PurgeAll, Purge, Home;
    var qs := if id in db.tasks && db.tasks[id].assignee.Some?
              then Purge(db.queues, Direct(db.tasks[id].assignee.value), id) else db.queues;
    db.(tasks := db.tasks - {id}, results := db.results - {id}, queues := PurgeAll(qs, [Home(t)] + known, id))
  }

  /** force-refresh; `known` are the queues the caller knows besides the destination. */
  function ForceRefresh(db: Redis, id: string, t: Task, known: seq<Queue>): (r: Outcome)
    ensures Touches(db, r.db, id)
    ensures r.code > 0 ==>
              Admitted(db, t) && id in r.db.tasks && r.db.tasks[id] == t && r.db.rosters == Enroll(db, id, t)
    ensures r.code <= 0 ==> r.db == db
    ensures r.db.inflight == db.inflight
  {
    hide Copies, Entries, Push, Admits, Home, Erase, Publish, SameSlot, SameResult;
    var code := RefreshReply(db, id, t);
    if code < 0 then Untouched(db, id); Outcome(db, code)
    else
      var d := Erase(db, id, t, known);
      TouchesAgain(db, d, Publish(d, id, t), id);
      Outcome(Publish(d, id, t), code)
  }

  predicate Claimable(db: Redis, id: string) {
    id in db.tasks && db.tasks[id].status.Pending? && db.tasks[id].claim.None? && Admitted(db, db.tasks[id])
  }

  function Take(db: Redis, id: string, k: Queue, w: Worker, instance: string, token: string): (r: Redis)
    requires id in db.tasks
    ensures Touches(db, r, id)
  {
    db.(tasks := db.tasks[id := db.tasks[id].(claim := Some(Claim(token, w, instance, k, Unfenced)))],
        inflight := PushEntry(db.inflight, w, Entry(token, id)))
  }

  lemma QueuesDoNotDecide(db: Redis, qs: Queues)
    ensures forall id :: Claimable(db.(queues := qs), id) == Claimable(db, id)
    ensures forall id, k, v, instance, token :: Claimable(db, id) ==>
              && Take(db.(queues := qs), id, k, v, instance, token).tasks ==
                 db.tasks[id := db.tasks[id].(claim := Some(Claim(token, v, instance, k, Unfenced)))]
              && Take(db.(queues := qs), id, k, v, instance, token).inflight == PushEntry(db.inflight, v,
                 Entry(token, id))
  {
  }

  /** claim-gpu-task: pop up to `limit` ids, dropping debris, and claim the first live one. */
  function ClaimNext(db: Redis, k: Queue, w: Worker, instance: string, token: string,
                     limit: nat): (r: (Redis, Option<string>))
    ensures r.0.life == db.life && r.0.rosters == db.rosters && r.0.results == db.results
    decreases limit
  {
    if limit == 0 || Listed(db.queues, k) == [] then (db, None)
    else
      var (qs, id) := Pop(db.queues, k);
      var d := db.(queues := qs);
      if Claimable(d, id) then (Take(d, id, k, w, instance, token), Some(id))
      else ClaimNext(d, k, w, instance, token, limit - 1)
  }

  /** LREM of this attempt's own inflight entry. */
  function Forget(db: Redis, id: string, w: Worker, token: string): (r: Redis)
    ensures Touches(db, r, id)
    ensures Quiet(db, r)
  {
    hide Copies, Entries;
    db.(inflight := DropEntry(db.inflight, w, Entry(token, id)))
  }

  /** LREM of the entry and clear_claim(). */
  function Surrender(db: Redis, id: string, w: Worker, token: string): (r: Redis)
    requires id in db.tasks
    ensures Touches(db, r, id)
    ensures Quiet(db, r)
  {
    hide Copies, Entries;
    Forget(db, id, w, token).(tasks := db.tasks[id := Unclaim(db.tasks[id])])
  }

  /** mark-claim-processing: the execution gate. */
  function Mark(db: Redis, id: string, w: Worker, instance: string, source: Queue, token: string,
                base: Option<string>): (r: Outcome)
    ensures Touches(db, r.db, id)
    ensures Quiet(db, r.db)
    ensures r.code == 1 ==> id in db.tasks && Admitted(db, db.tasks[id])
  {
    if !Current(db, id, token) then Outcome(Forget(db, id, w, token), -2)
    else
      var t := db.tasks[id];
      if !t.status.Pending? then Outcome(Surrender(db, id, w, token), 0)
      else if !Admitted(db, t) || Marked(db.life, id, base) then Outcome(Surrender(db, id, w, token), -1)
      else
        var t' := t.(status := Processing, claim := Some(Claim(token, w, instance, source, Fenced)));
        Outcome(db.(tasks := db.tasks[id := t']), 1)
  }

  /** The source queue gets one copy back if the task is still admitted, none otherwise. */
  function GiveBack(db: Redis, id: string, source: Queue): (r: Queues)
    requires id in db.tasks
    ensures forall k, x :: Copies(r, k, x) ==
                          if k == source && x == id then if Admitted(db, db.tasks[id]) then 1 else 0
                          else Copies(db.queues, k, x)
  {
    hide Copies, Admits;
    if Admitted(db, db.tasks[id]) then Repush(db.queues, source, id) else Purge(db.queues, source, id)
  }

  /** return-claim: put a deferred claim back. */
  function Return(db: Redis, id: string, w: Worker, source: Queue, token: string): (r: Outcome)
    ensures Touches(db, r.db, id)
    ensures Quiet(db, r.db)
  {
    hide Copies, Entries, GiveBack, DropEntry, Admits;
    if !Current(db, id, token) then Outcome(Forget(db, id, w, token), 0)
    else
      Outcome(Surrender(db, id, w, token).(queues := GiveBack(db, id, source)), 1)
  }

  /** ack-claim */
  function Ack(db: Redis, id: string, w: Worker, token: string, release: bool): (r: Outcome)
    ensures Touches(db, r.db, id)
    ensures Quiet(db, r.db)
  {
    if id !in db.tasks then Outcome(Forget(db, id, w, token), 1)
    else if !Current(db, id, token) then Outcome(Forget(db, id, w, token), 0)
    else if !db.tasks[id].claim.value.recovery.Unfenced? && !release then Outcome(db, -2)
    else Outcome(Surrender(db, id, w, token), 1)
  }

  /** freeze-claim-recovery */
  function Freeze(db: Redis, id: string, token: string): (r: Outcome)
    ensures Touches(db, r.db, id)
    ensures Quiet(db, r.db)
  {
    if !Current(db, id, token) then Outcome(db, 0)
    else
      var t := db.tasks[id];
      Outcome(db.(tasks := db.tasks[id := t.(claim := Some(t.claim.value.(recovery := Recovery.Frozen)))]), 1)
  }

  predicate Releases(mode: Release, r: Recovery) {
    match r
    case Unfenced => true
    case Fenced => mode != NoRelease
    case Frozen => mode == ReleaseAll
  }

  /** conditional-requeue */
  function Requeue(db: Redis, id: string, w: Worker, token: string, dest: Queue, data: Payload,
                   assignee: Option<Worker>, assignedAt: string, base: Option<string>, mode: Release): (r: Outcome)
    ensures Touches(db, r.db, id)
    ensures Quiet(db, r.db)
  {
    hide Copies, Entries, Repush, Purge, DropEntry, Admits;
    if !Current(db, id, token) then Outcome(Forget(db, id, w, token), -3)
    else
      var t := db.tasks[id];
      if !Releases(mode, t.claim.value.recovery) then Outcome(db, -4)
      else if Terminal(t.status) then Outcome(Surrender(db, id, w, token), -1)
      else if !Admitted(db, t) || Marked(db.life, id, base) then Outcome(Surrender(db, id, w, token), -2)
      else
        var t' := t.(status := Pending, data := data, assignee := assignee, assignedAt := assignedAt, claim := None);
        Outcome(Forget(db, id, w, token).(tasks := db.tasks[id := t'],
                                          queues := Repush(db.queues, dest, id)), 1)
  }

  /** What the queue-wait monitor read about a task before it tries to move it. */
  datatype Snapshot = Snapshot(assignee: Option<Worker>, assignedAt: string, submittedAt: string, data: Payload)

  function SnapshotOf(t: Task): Snapshot {
    Snapshot(t.assignee, t.assignedAt, t.submittedAt, t.data)
  }

  datatype Move = MoveToPool | RemoveStaleCopy

  /** The reply of queue-wait-requeue. The four replies for a snapshot that no longer holds
      are merged into -3. */
  function MoveReply(db: Redis, id: string, src: Worker, op: Move, seen: Snapshot): int {
    if id !in db.tasks || SnapshotOf(db.tasks[id]) != seen then -3
    else if op.RemoveStaleCopy? then
      if seen.assignee.None? || seen.assignee.value == src then -8
      else if Copies(db.queues, Direct(src), id) == 0 then -7
      else 2
    else if seen.assignee.Some? && seen.assignee.value != src then -8
    else if !db.tasks[id].status.Pending? then 0
    else if db.tasks[id].claim.Some? then -1
    else if !Admitted(db, db.tasks[id]) || Marked(db.life, id, seen.data.base) then -2
    else if Copies(db.queues, Direct(src), id) == 0 then -7
    else 1
  }

  /** The accepted move: one copy leaves the worker's queue, one enters the resource pool. */
  function MoveToPoolOf(db: Redis, id: string, src: Worker, seen: Snapshot, note: string): (r: Redis)
    requires id in db.tasks
    ensures Touches(db, r, id)
    ensures Quiet(db, r)
  {
    hide Copies, Entries, TakeOne, Repush;
    var t := db.tasks[id].(data := seen.data.(note := note), assignee := None, assignedAt := "", claim := None);
    db.(tasks := db.tasks[id := t], queues := Repush(TakeOne(db.queues, Direct(src), id), Pool(seen.data.resource), id))
  }

  /** queue-wait-requeue */
  function QueueWait(db: Redis, id: string, src: Worker, op: Move, seen: Snapshot, note: string): (r: Outcome)
    ensures Touches(db, r.db, id)
    ensures Quiet(db, r.db)
  {
    hide Copies, Entries, TakeOne, MoveToPoolOf;
    var code := MoveReply(db, id, src, op, seen);
    if code == 2 then Outcome(db.(queues := TakeOne(db.queues, Direct(src), id)), 2)
    else if code == 1 then Outcome(MoveToPoolOf(db, id, src, seen, note), 1)
    else Outcome(db, code)
  }

  /** finalize-claim */
  function Finalize(db: Redis, id: string, w: Worker, token: string, status: Status, result: string,
                    allowFrozen: bool): (r: Outcome)
    ensures Touches(db, r.db, id)
    ensures Quiet(db, r.db)
  {
    hide Copies, Entries;
    if !Current(db, id, token) then Outcome(Forget(db, id, w, token), 0)
    else if db.tasks[id].claim.value.recovery.Frozen? && !allowFrozen then Outcome(db, -2)
    else Outcome(Forget(db, id, w, token).(tasks := db.tasks[id := db.tasks[id].(status := status, claim := None)],
                                           results := db.results[id := result]), 1)
  }

  /** The write half of a completion without a claim: an unconditional pipeline. */
  function ClaimlessCommit(db: Redis, id: string, status: Status, result: string): (r: Redis)
    ensures Touches(db, r, id)
    ensures Quiet(db, r)
  {
    var t := if id in db.tasks then db.tasks[id]
             else Task(status, Payload(Gpu, None, "", "", ""), "", None, "", {}, None, None);
    db.(tasks := db.tasks[id := t.(status := status, claim := None)], results := db.results[id := result])
  }

  /** mark-cpu-processing */
  function MarkCpu(db: Redis, id: string, base: Option<string>): (r: Outcome)
    ensures Touches(db, r.db, id)
    ensures Quiet(db, r.db)
    ensures r.code == 1 ==> id in db.tasks && Admitted(db, db.tasks[id])
  {
    if id !in db.tasks || !db.tasks[id].status.Pending? then Outcome(db, 0)
    else if !Admitted(db, db.tasks[id]) || Marked(db.life, id, base) then Outcome(db, 0)
    else Outcome(db.(tasks := db.tasks[id := db.tasks[id].(status := Processing)]), 1)
  }

  /** Every queue the task with this id could wait in. */
  function Unqueue(db: Redis, id: string): (r: Queues)
    ensures forall k, x :: x != id ==> Copies(r, k, x) == Copies(db.queues, k, x)
    ensures Copies(r, Pool(Cpu), id) == Copies(r, Pool(Gpu), id) == 0
    ensures forall v :: Copies(r, Direct(v), id) ==
                        (if id in db.tasks && db.tasks[id].assignee == Some(v) then 0
                            else Copies(db.queues, Direct(v), id))
  {
    var qs := Purge(Purge(db.queues, Pool(Cpu), id), Pool(Gpu), id);
    if id in db.tasks && db.tasks[id].assignee.Some? then Purge(qs, Direct(db.tasks[id].assignee.value), id) else qs
  }

  predicate Withdrawable(db: Redis, id: string) {
    && id in db.tasks && db.tasks[id].status.Pending?
    && (db.tasks[id].claim.Some? ==> db.tasks[id].claim.value.recovery.Unfenced?)
  }

  /** LREM of the entry of whatever claim the task carries. */
  function Disarm(db: Redis, id: string): (r: InFlight)
    ensures forall v, token, x :: x != id ==> Entries(r, v, Entry(token, x)) == Entries(db.inflight, v, Entry(token, x))
    ensures forall v, e :: Entries(r, v, e) <= Entries(db.inflight, v, e)
  {
    hide Entries;
    if id !in db.tasks || db.tasks[id].claim.None? then db.inflight
    else
      var c := db.tasks[id].claim.value;
      DropEntry(db.inflight, c.worker, Entry(c.token, id))
  }

  /** The body that cancel and finish share for one child: pull it out of its queues and,
      if it is pending and unfenced, fail it and withdraw its claim. */
  function Withdraw(db: Redis, id: string, why: string): (r: Redis)
    ensures Touches(db, r, id)
    ensures Quiet(db, r)
  {
    hide Copies, Entries, Unqueue, Disarm;
    var d := db.(queues := Unqueue(db, id));
    if !Withdrawable(db, id) then d
    else d.(tasks := db.tasks[id := db.tasks[id].(status := Failed, claim := None)],
            results := db.results[id := why],
            inflight := Disarm(db, id))
  }
}
