/** The keyspace as one mutable object. Each script is a method that updates the hashes,
    lists and markers in place, proved to do what its function in TaskScripts or
    WorkflowScripts says. */
module Store {
  import opened Coordination
  import opened Guard
  import opened TaskScripts
  import opened WorkflowScripts

  class Store {
    var tasks: map<string, Task>
    var results: map<string, string>
    var queues: Queues
    var inflight: InFlight
    var rosters: map<(string, string), set<string>>
    var life: Lifecycle

    /** What other processes make of the keyspace while this one waits, one entry a wait. */
    var elsewhere: seq<Redis>

    function Value(): Redis
      reads this
    {
      Redis(tasks, results, queues, inflight, rosters, life)
    }

    constructor (others: seq<Redis>)
      ensures Value() == EMPTY && elsewhere == others
    {
      tasks, results, queues, inflight, rosters, life := map[], map[], map[], map[], map[], EMPTY.life;
      elsewhere := others;
    }

    /** Anything may happen before the next call. */
    method Wait()
      modifies this
      ensures Value() == if old(elsewhere) == [] then old(Value()) else old(elsewhere)[0]
    {
      if elsewhere != [] {
        var db := elsewhere[0];
        tasks, results, queues := db.tasks, db.results, db.queues;
        inflight, rosters, life := db.inflight, db.rosters, db.life;
        elsewhere := elsewhere[1..];
      }
    }

    /** HSET of every field, LPUSH and, for a workflow child, SADD. */
    method PublishTask(id: string, t: Task)
      modifies this
      ensures Value() == Publish(old(Value()), id, t)
    {
      rosters := Enroll(Value(), id, t);
      tasks := tasks[id := t];
      queues := Push(queues, Home(t), id);
    }

    method SubmitTask(id: string, t: Task) returns (code: int)
      modifies this
      ensures var r := Submit(old(Value()), id, t); Value() == r.db && code == r.code
    {
      if !Admitted(Value(), t) { return -5; }
      if id in tasks { return 0; }
      queues := Purge(queues, Home(t), id);
      PublishTask(id, t);
      return 1;
    }

    method ForceRefreshTask(id: string, t: Task, known: seq<Queue>) returns (code: int)
      modifies this
      ensures var r := ForceRefresh(old(Value()), id, t, known); Value() == r.db && code == r.code
    {
      hide Copies, Entries, Push, Purge, Admits, Home, Publish, Enroll;
      if !Admitted(Value(), t) { return -5; }
      var existed := id in tasks;
      if existed {
        var old' := tasks[id];
        if old'.claim.Some? && old'.claim.value.recovery.Frozen? { return -2; }
        if old'.claim.Some? { return -1; }
        if !Terminal(old'.status) { return -4; }
        if old'.assignee.Some? {
          queues := Purge(queues, Direct(old'.assignee.value), id);
        }
      }
      var cleanup := [Home(t)] + known;
      ghost var before := queues;
      for i := 0 to |cleanup|
        invariant PurgeAll(before, cleanup, id) == PurgeAll(queues, cleanup[i..], id)
        invariant tasks == old(tasks) && results == old(results) && inflight == old(inflight) && rosters == old(rosters)
                && life == old(life)
      {
        assert cleanup[i..][0] == cleanup[i] && cleanup[i..][1..] == cleanup[i + 1..];
        queues := Purge(queues, cleanup[i], id);
      }
      tasks := tasks - {id};
      results := results - {id};
      assert Value() == Erase(old(Value()), id, t, known);
      PublishTask(id, t);
      return if existed then 2 else 1;
    }

    method ClaimGpuTask(k: Queue, w: Worker, instance: string, token: string, scanLimit: nat)
        returns (got: Option<string>)
      modifies this
      ensures (Value(), got) == ClaimNext(old(Value()), k, w, instance, token, scanLimit)
    {
      hide Copies, Entries, Admits, Pop;
      for i := 0 to scanLimit
        invariant ClaimNext(Value(), k, w, instance, token, scanLimit - i) == ClaimNext(old(Value()), k, w, instance,
                token, scanLimit)
      {
        if Listed(queues, k) == [] { return None; }
        ghost var before := Value();
        var (qs, id) := Pop(queues, k);
        queues := qs;
        assert Value() == before.(queues := qs);
        if Claimable(Value(), id) {
          inflight := PushEntry(inflight, w, Entry(token, id));
          tasks := tasks[id := tasks[id].(claim := Some(Claim(token, w, instance, k, Unfenced)))];
          return Some(id);
        }
      }
      return None;
    }

    /** LREM of the entry, then clear_claim(). */
    method SurrenderClaim(id: string, w: Worker, token: string)
      requires id in tasks
      modifies this
      ensures Value() == Surrender(old(Value()), id, w, token)
    {
      inflight := DropEntry(inflight, w, Entry(token, id));
      tasks := tasks[id := Unclaim(tasks[id])];
    }

    method ForgetEntry(id: string, w: Worker, token: string)
      modifies this
      ensures Value() == Forget(old(Value()), id, w, token)
    {
      inflight := DropEntry(inflight, w, Entry(token, id));
    }

    method MarkProcessing(id: string, w: Worker, instance: string, source: Queue, token: string, base: Option<string>)
        returns (code: int)
      modifies this
      ensures var r := Mark(old(Value()), id, w, instance, source, token, base); Value() == r.db && code == r.code
    {
      hide Copies, Entries, Admits, Forget, Surrender;
      if !Current(Value(), id, token) {
        ForgetEntry(id, w, token);
        return -2;
      }
      if !tasks[id].status.Pending? {
        SurrenderClaim(id, w, token);
        return 0;
      }
      if !Admitted(Value(), tasks[id]) || Marked(life, id, base) {
        SurrenderClaim(id, w, token);
        return -1;
      }
      tasks := tasks[id := tasks[id].(status := Processing, claim := Some(Claim(token, w, instance, source, Fenced)))];
      return 1;
    }

    method ReturnClaim(id: string, w: Worker, source: Queue, token: string) returns (code: int)
      modifies this
      ensures var r := Return(old(Value()), id, w, source, token); Value() == r.db && code == r.code
    {
      hide Copies, Entries, Admits, Push, Purge, DropEntry, Touches, Quiet;
      if !Current(Value(), id, token) {
        ForgetEntry(id, w, token);
        return 0;
      }
      inflight := DropEntry(inflight, w, Entry(token, id));
      queues := Purge(queues, source, id);
      if Admitted(Value(), tasks[id]) {
        queues := Push(queues, source, id);
      }
      assert queues == GiveBack(old(Value()), id, source);
      tasks := tasks[id := Unclaim(tasks[id])];
      return 1;
    }

    method AckClaim(id: string, w: Worker, token: string, release: bool) returns (code: int)
      modifies this
      ensures var r := Ack(old(Value()), id, w, token, release); Value() == r.db && code == r.code
    {
      hide Copies, Entries, Forget, Surrender;
      if id !in tasks {
        ForgetEntry(id, w, token);
        return 1;
      }
      if !Current(Value(), id, token) {
        ForgetEntry(id, w, token);
        return 0;
      }
      if !tasks[id].claim.value.recovery.Unfenced? && !release { return -2; }
      SurrenderClaim(id, w, token);
      return 1;
    }

    method FreezeClaim(id: string, token: string) returns (code: int)
      modifies this
      ensures var r := Freeze(old(Value()), id, token); Value() == r.db && code == r.code
    {
      if !Current(Value(), id, token) { return 0; }
      var c := tasks[id].claim.value;
      tasks := tasks[id := tasks[id].(claim := Some(c.(recovery := Recovery.Frozen)))];
      return 1;
    }

    method RequeueClaim(id: string, w: Worker, token: string, dest: Queue, data: Payload, assignee: Option<Worker>,
                        assignedAt: string, base: Option<string>, mode: Release) returns (code: int)
      modifies this
      ensures var r := Requeue(old(Value()), id, w, token, dest, data, assignee, assignedAt, base, mode);
              Value() == r.db && code == r.code
    {
      hide Copies, Entries, Admits, Push, Purge, DropEntry, Surrender, Touches, Quiet;
      if !Current(Value(), id, token) {
        ForgetEntry(id, w, token);
        return -3;
      }
      var t := tasks[id];
      if !Releases(mode, t.claim.value.recovery) { return -4; }
      if Terminal(t.status) {
        SurrenderClaim(id, w, token);
        return -1;
      }
      if !Admitted(Value(), t) || Marked(life, id, base) {
        SurrenderClaim(id, w, token);
        return -2;
      }
      ForgetEntry(id, w, token);
      queues := Purge(queues, dest, id);
      tasks := tasks[id := t.(status := Pending, data := data, assignee := assignee, assignedAt := assignedAt,
                              claim := None)];
      queues := Push(queues, dest, id);
      return 1;
    }

    method QueueWaitMove(id: string, src: Worker, op: Move, seen: Snapshot, note: string) returns (code: int)
      modifies this
      ensures var r := QueueWait(old(Value()), id, src, op, seen, note); Value() == r.db && code == r.code
    {
      hide Entries, Admits, Push, Purge, TakeOne;
      if id !in tasks || SnapshotOf(tasks[id]) != seen { return -3; }
      if op.RemoveStaleCopy? {
        if seen.assignee.None? || seen.assignee.value == src { return -8; }
        if Copies(queues, Direct(src), id) == 0 { return -7; }
        queues := TakeOne(queues, Direct(src), id);
        return 2;
      }
      if seen.assignee.Some? && seen.assignee.value != src { return -8; }
      var t := tasks[id];
      if !t.status.Pending? { return 0; }
      if t.claim.Some? { return -1; }
      if !Admitted(Value(), t) || Marked(life, id, seen.data.base) { return -2; }
      if Copies(queues, Direct(src), id) == 0 { return -7; }
      queues := TakeOne(queues, Direct(src), id);
      queues := Purge(queues, Pool(seen.data.resource), id);
      tasks := tasks[id := t.(data := seen.data.(note := note), assignee := None, assignedAt := "", claim := None)];
      queues := Push(queues, Pool(seen.data.resource), id);
      return 1;
    }

    method FinalizeClaim(id: string, w: Worker, token: string, status: Status, result: string, allowFrozen: bool)
        returns (code: int)
      modifies this
      ensures var r := Finalize(old(Value()), id, w, token, status, result, allowFrozen);
              Value() == r.db && code == r.code
    {
      hide Copies, Entries, DropEntry, Touches, Quiet;
      if !Current(Value(), id, token) {
        ForgetEntry(id, w, token);
        return 0;
      }
      if tasks[id].claim.value.recovery.Frozen? && !allowFrozen { return -2; }
      tasks := tasks[id := tasks[id].(status := status, claim := None)];
      results := results[id := result];
      inflight := DropEntry(inflight, w, Entry(token, id));
      return 1;
    }

    method MarkCpuProcessing(id: string, base: Option<string>) returns (code: int)
      modifies this
      ensures var r := MarkCpu(old(Value()), id, base); Value() == r.db && code == r.code
    {
      hide Copies, Entries, Admits;
      if id !in tasks || !tasks[id].status.Pending? { return 0; }
      if !Admitted(Value(), tasks[id]) { return 0; }
      if Marked(life, id, base) { return 0; }
      tasks := tasks[id := tasks[id].(status := Processing)];
      return 1;
    }

    /** A CPU dequeue: RPOP, with no claim. */
    method PopQueue(k: Queue) returns (id: Option<string>)
      modifies this
      ensures old(Listed(queues, k)) == [] ==> id.None? && Value() == old(Value())
      ensures old(Listed(queues, k)) != [] ==>
                var r := Pop(old(queues), k); id == Some(r.1) && Value() == old(Value()).(queues := r.0)
    {
      if Listed(queues, k) == [] { return None; }
      var r := Pop(queues, k);
      queues := r.0;
      return Some(r.1);
    }

    /** A completion without a claim: the status was read before; the pipeline overwrites
        whatever is there now. */
    method CommitClaimless(id: string, status: Status, result: string)
      modifies this
      ensures Value() == ClaimlessCommit(old(Value()), id, status, result)
    {
      hide Copies, Entries;
      var t := if id in tasks then tasks[id] else Task(status, Payload(Gpu, None, "", "", ""), "", None, "", {}, None,
                                                       None);
      tasks := tasks[id := t.(status := status, claim := None)];
      results := results[id := result];
    }

    /** LREM from the pools and the assigned worker's queue; fail it if it has not started. */
    method WithdrawTask(id: string, why: string)
      modifies this
      ensures Value() == Withdraw(old(Value()), id, why)
    {
      hide Copies, Entries, Purge, DropEntry;
      queues := Purge(queues, Pool(Cpu), id);
      queues := Purge(queues, Pool(Gpu), id);
      if id in tasks && tasks[id].assignee.Some? {
        queues := Purge(queues, Direct(tasks[id].assignee.value), id);
      }
      if id in tasks && tasks[id].status.Pending?
          && (tasks[id].claim.Some? ==> tasks[id].claim.value.recovery.Unfenced?) {
        if tasks[id].claim.Some? {
          var c := tasks[id].claim.value;
          inflight := DropEntry(inflight, c.worker, Entry(c.token, id));
        }
        tasks := tasks[id := tasks[id].(status := Failed, claim := None)];
        results := results[id := why];
      }
    }

    method AcceptParent(p: string, g: string, hash: string, timeout: real, force: bool, planned: seq<string>)
        returns (code: int)
      modifies this
      ensures var r := Accept(old(Value()), p, g, hash, timeout, force, planned); Value() == r.db && code == r.code
    {
      if Name.Parent(p) in life.tombstones { return -2; }
      if p !in life.parents && p in life.leases { return -1; }
      if p in life.parents {
        var same := life.parents[p].requestHash == hash;
        if !Terminal(life.parents[p].status) { return if same then 0 else -1; }
        if !force { return if same && p in life.parentResults then 0 else -1; }
      }
      var deadline := life.now + timeout;
      life := life.(parents := life.parents - {p}, parentResults := life.parentResults - {p},
                    leases := life.leases - {p},
                    cancels := life.cancels - {Name.Parent(p)});
      life := life.(parents := life.parents[p := ParentTask(g, Pending, hash, deadline, planned)],
                    leases := life.leases[p := g],
                    active := life.active + {p});
      assert life == Open(old(life), p, g, hash, timeout, planned);
      hide Open;
      return 1;
    }

    method RenewLease(p: string, g: string) returns (code: int)
      modifies this
      ensures var r := Renew(old(Value()), p, g); Value() == r.db && code == r.code
    {
      if !FenceOpen(life, p, g) { return 0; }
      life := life.(parents := life.parents[p := life.parents[p].(status := Processing)]);
      return 1;
    }

    method FinishParent(p: string, g: string, status: Status, reason: string, body: string, order: seq<string>)
        returns (code: int)
      modifies this
      ensures var r := Finish(old(Value()), p, g, status, reason, body, order); Value() == r.db && code == r.code
    {
      hide Copies, Entries, Withdraw, Touches, Quiet;
      if p !in life.parents || life.parents[p].generation != g || Terminal(life.parents[p].status) { return 0; }
      var why, final := reason, status;
      if Name.Parent(p) in life.tombstones {
        why, final := CANCELLED, Failed;
      }
      if life.now >= life.parents[p].deadline {
        why, final := LATE, TimedOut;
      } else if (p !in life.leases || life.leases[p] != g) && why == "" {
        why, final := UNLEASED, Failed;
      }
      var record := life.parents[p];
      life := life.(parents := life.parents[p := record.(status := final)]);
      var published := ParentResult(g, final, record.requestHash, body, why);
      life := life.(parentResults := life.parentResults[p := published]);
      life := life.(leases := life.leases - {p}, cancels := life.cancels + {Name.Parent(p)},
                    active := life.active - {p});
      assert life == Close(old(life), p, g, status, reason, body);
      ghost var closed := Value();
      for i := 0 to |order|
        invariant WithdrawAll(closed, order) == WithdrawAll(Value(), order[i..])
      {
        assert order[i..][0] == order[i] && order[i..][1..] == order[i + 1..];
        WithdrawTask(order[i], ENDED);
      }
      return 1;
    }

    method CancelTask(id: string)
      modifies this
      ensures Value() == Cancel(old(Value()), id)
    {
      hide Copies, Entries, Withdraw;
      var names := {Name.Parent(id), Name.Child(id)};
      life := life.(tombstones := life.tombstones + names, cancels := life.cancels + names);
      life := life.(tombstones := life.tombstones + Aliases(id));
      if id in life.parents {
        var planned := set c | c in life.parents[id].planned :: Name.Child(c);
        life := life.(tombstones := life.tombstones + planned, cancels := life.cancels + planned);
        assert life == Condemn(old(life), id);
      } else {
        assert life == Condemn(old(life), id);
        if id in tasks {
          WithdrawTask(id, CANCELLED);
        }
      }
    }

    method DiscardChild(id: string, g: string) returns (code: int)
      modifies this
      ensures var r := DiscardTask(old(Value()), id, g); Value() == r.db && code == r.code
    {
      if id !in tasks || tasks[id].scope.None? || tasks[id].scope.value.generation != g { return 0; }
      if !Terminal(tasks[id].status) || tasks[id].claim.Some? { return 0; }
      tasks := tasks - {id};
      results := results - {id};
      life := life.(cancels := life.cancels - {Name.Child(id)});
      return 1;
    }

    method DiscardFinished(p: string, g: string) returns (code: int)
      modifies this
      ensures var r := DiscardParent(old(Value()), p, g); Value() == r.db && code == r.code
    {
      if p !in life.parents || life.parents[p].generation != g || !Terminal(life.parents[p].status) { return 0; }
      life := life.(parents := life.parents - {p}, parentResults := life.parentResults - {p},
                    leases := life.leases - {p}, cancels := life.cancels - {Name.Parent(p)});
      rosters := rosters - {(p, g)};
      return 1;
    }
  }
}
