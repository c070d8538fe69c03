/** Queues are first come, first served, whatever processes do to them. */
module Order {
  import opened Coordination
  import opened Guard
  import opened TaskScripts
  import opened WorkflowScripts
  import opened Protocol
  import opened Fences
  import opened Conservation
  import opened Bookkeeping
  import opened Runs
  import opened Tokens
  import Monitor
  import Dequeue

  /** `a` is `b` with some elements left out. */
  predicate Within(a: seq<string>, b: seq<string>)
    decreases |b|
  {
    a == [] || (b != [] && ((a[0] == b[0] && Within(a[1..], b[1..])) || Within(a, b[1..])))
  }

  lemma {:induction false} WithinItself(q: seq<string>)
    ensures Within(q, q)
  {
    if q != [] { WithinItself(q[1..]); }
  }

  lemma {:induction false} PrefixWithin(q: seq<string>, n: nat)
    requires n <= |q|
    ensures Within(q[..n], q)
  {
    if n > 0 {
      assert q[..n][1..] == q[1..][..n - 1];
      PrefixWithin(q[1..], n - 1);
    }
  }

  lemma {:induction false} WithinThrough(a: seq<string>, b: seq<string>, c: seq<string>)
    requires Within(a, b) && Within(b, c)
    ensures Within(a, c)
    decreases |c|
  {
    if a != [] {
      if b[0] == c[0] && Within(b[1..], c[1..]) {
        if a[0] == b[0] && Within(a[1..], b[1..]) {
          WithinThrough(a[1..], b[1..], c[1..]);
        } else {
          WithinThrough(a, b[1..], c[1..]);
        }
      } else {
        WithinThrough(a, b, c[1..]);
      }
    }
  }

  lemma {:induction false} WithoutWithin(q: seq<string>, x: string)
    ensures Within(Without(q, x), q)
  {
    if q != [] { WithoutWithin(q[1..], x); }
  }

  lemma {:induction false} WithoutFirstWithin(q: seq<string>, x: string)
    ensures Within(WithoutFirst(q, x), q)
  {
    if q != [] {
      if q[0] == x { WithinItself(q[1..]); } else { WithoutFirstWithin(q[1..], x); }
    }
  }

  /** `x` stands to the right of `y`: it came first. */
  predicate Older(q: seq<string>, x: string, y: string) {
    exists i, j :: 0 <= i < j < |q| && q[i] == y && q[j] == x
  }

  lemma {:induction false} OlderWithin(a: seq<string>, b: seq<string>, x: string, y: string)
    requires Within(a, b) && Older(a, x, y)
    ensures Older(b, x, y)
    decreases |b|
  {
    var i, j :| 0 <= i < j < |a| && a[i] == y && a[j] == x;
    if a[0] == b[0] && Within(a[1..], b[1..]) {
      if i == 0 {
        MemberWithin(a[1..], b[1..], x) by { assert a[1..][j - 1] == x; }
        var m :| 0 <= m < |b[1..]| && b[1..][m] == x;
        assert b[m + 1] == x && b[0] == y;
      } else {
        assert a[1..][i - 1] == y && a[1..][j - 1] == x;
        OlderWithin(a[1..], b[1..], x, y);
        OlderLater(b, x, y);
      }
    } else {
      OlderWithin(a, b[1..], x, y);
      OlderLater(b, x, y);
    }
  }

  lemma OlderLater(b: seq<string>, x: string, y: string)
    requires b != [] && Older(b[1..], x, y)
    ensures Older(b, x, y)
  {
    var i, j :| 0 <= i < j < |b[1..]| && b[1..][i] == y && b[1..][j] == x;
    assert b[i + 1] == y && b[j + 1] == x;
  }

  lemma {:induction false} MemberWithin(a: seq<string>, b: seq<string>, x: string)
    requires Within(a, b) && x in a
    ensures x in b
    decreases |b|
  {
    if a[0] == b[0] && Within(a[1..], b[1..]) {
      if x != a[0] { MemberWithin(a[1..], b[1..], x); }
    } else {
      MemberWithin(a, b[1..], x);
    }
  }

  lemma OneOrder(q: seq<string>, x: string, y: string)
    requires multiset(q)[x] == 1 && multiset(q)[y] == 1 && x != y && Older(q, x, y)
    ensures !Older(q, y, x)
  {
    if Older(q, y, x) {
      var i, j :| 0 <= i < j < |q| && q[i] == y && q[j] == x;
      var m, n :| 0 <= m < n < |q| && q[m] == x && q[n] == y;
      if i != n { Twice(q, i, n); } else { Twice(q, m, j); }
    }
  }

  lemma Twice(q: seq<string>, i: nat, j: nat)
    requires i < |q| && j < |q| && i != j && q[i] == q[j]
    ensures multiset(q)[q[i]] >= 2
  {
    var (a, b) := if i < j then (i, j) else (j, i);
    assert q == q[..a] + [q[a]] + q[a + 1..b] + [q[b]] + q[b + 1..];
  }

  /** Left out or kept, but never swapped. */
  lemma OrderKept(a: seq<string>, b: seq<string>, x: string, y: string)
    requires Within(a, b) && x in a && y in a && x != y
    requires multiset(b)[x] == 1 && multiset(b)[y] == 1 && Older(b, x, y)
    ensures Older(a, x, y)
  {
    var i :| 0 <= i < |a| && a[i] == x;
    var j :| 0 <= j < |a| && a[j] == y;
    if i < j {
      assert Older(a, y, x);
      OlderWithin(a, b, y, x);
      OneOrder(b, x, y);
      assert false;
    }
  }

  // ----- what the scripts do to a queue

  /** Some elements leave, and at most one joins, at the left: one that was not in the queue, or
      is loose. */
  predicate InLine(q: seq<string>, r: seq<string>, loose: set<string>) {
    Within(r, q) || (r != [] && (r[0] !in q || r[0] in loose) && Within(r[1..], q))
  }

  ghost predicate Thins(a: Queues, b: Queues) {
    forall k :: Within(Listed(b, k), Listed(a, k))
  }

  ghost predicate Lines(a: Queues, b: Queues, loose: set<string>) {
    forall k :: InLine(Listed(a, k), Listed(b, k), loose)
  }

  lemma ThinsItself(a: Queues)
    ensures Thins(a, a)
  {
    forall k ensures Within(Listed(a, k), Listed(a, k)) { WithinItself(Listed(a, k)); }
  }

  lemma ThinsThrough(a: Queues, b: Queues, c: Queues)
    requires Thins(a, b) && Thins(b, c)
    ensures Thins(a, c)
  {
    hide Within;
    forall k ensures Within(Listed(c, k), Listed(a, k)) { WithinThrough(Listed(c, k), Listed(b, k), Listed(a, k)); }
  }

  lemma ThinsLines(a: Queues, b: Queues, loose: set<string>)
    requires Thins(a, b)
    ensures Lines(a, b, loose)
  {
  }

  lemma PurgeThins(qs: Queues, k: Queue, id: string)
    ensures Thins(qs, Purge(qs, k, id))
  {
    hide Within, Without;
    forall j ensures Within(Listed(Purge(qs, k, id), j), Listed(qs, j)) {
      WithinItself(Listed(qs, j));
      WithoutWithin(Listed(qs, j), id);
    }
  }

  lemma TakeOneThins(qs: Queues, k: Queue, id: string)
    ensures Thins(qs, TakeOne(qs, k, id))
  {
    hide Within, WithoutFirst;
    forall j ensures Within(Listed(TakeOne(qs, k, id), j), Listed(qs, j)) {
      WithinItself(Listed(qs, j));
      WithoutFirstWithin(Listed(qs, j), id);
    }
  }

  lemma PopThins(qs: Queues, k: Queue)
    requires Listed(qs, k) != []
    ensures Thins(qs, Pop(qs, k).0)
  {
    hide Within;
    forall j ensures Within(Listed(Pop(qs, k).0, j), Listed(qs, j)) {
      WithinItself(Listed(qs, j));
      PrefixWithin(Listed(qs, j), if j == k then |Listed(qs, j)| - 1 else |Listed(qs, j)|);
    }
  }

  lemma UnqueueThins(db: Redis, id: string)
    ensures Thins(db.queues, Unqueue(db, id))
  {
    hide Purge, Thins;
    var a := Purge(db.queues, Pool(Cpu), id);
    var b := Purge(a, Pool(Gpu), id);
    PurgeThins(db.queues, Pool(Cpu), id);
    PurgeThins(a, Pool(Gpu), id);
    ThinsThrough(db.queues, a, b);
    if id in db.tasks && db.tasks[id].assignee.Some? {
      PurgeThins(b, Direct(db.tasks[id].assignee.value), id);
      ThinsThrough(db.queues, b, Purge(b, Direct(db.tasks[id].assignee.value), id));
    }
  }

  lemma WithdrawThins(db: Redis, id: string, why: string)
    ensures Thins(db.queues, Withdraw(db, id, why).queues)
  {
    hide Thins, Unqueue, Disarm;
    UnqueueThins(db, id);
  }

  lemma {:induction false} WithdrawAllThins(db: Redis, order: seq<string>)
    ensures Thins(db.queues, WithdrawAll(db, order).queues)
    decreases |order|
  {
    hide Thins, Withdraw;
    if order == [] {
      ThinsItself(db.queues);
    } else {
      var d := Withdraw(db, order[0], ENDED);
      WithdrawThins(db, order[0], ENDED);
      WithdrawAllThins(d, order[1..]);
      ThinsThrough(db.queues, d.queues, WithdrawAll(d, order[1..]).queues);
    }
  }

  lemma {:induction false} ClaimNextThins(db: Redis, k: Queue, v: Worker, instance: string, token: string, limit: nat)
    ensures Thins(db.queues, ClaimNext(db, k, v, instance, token, limit).0.queues)
    decreases limit
  {
    hide Thins, Pop, Admits, Listed;
    if limit == 0 || Listed(db.queues, k) == [] {
      ThinsItself(db.queues);
    } else {
      var (qs, id) := Pop(db.queues, k);
      PopThins(db.queues, k);
      var d := db.(queues := qs);
      if Claimable(d, id) {
      } else {
        ClaimNextThins(d, k, v, instance, token, limit - 1);
        ThinsThrough(db.queues, qs, ClaimNext(d, k, v, instance, token, limit - 1).0.queues);
      }
    }
  }

  lemma {:induction false} PurgeAllThins(qs: Queues, ks: seq<Queue>, id: string)
    ensures Thins(qs, PurgeAll(qs, ks, id))
    decreases |ks|
  {
    hide Thins, Purge;
    if ks == [] {
      ThinsItself(qs);
    } else {
      PurgeThins(qs, ks[0], id);
      PurgeAllThins(Purge(qs, ks[0], id), ks[1..], id);
      ThinsThrough(qs, Purge(qs, ks[0], id), PurgeAll(qs, ks, id));
    }
  }

  lemma PushLines(qs: Queues, mid: Queues, k: Queue, id: string, loose: set<string>)
    requires Thins(qs, mid) && (id in loose || Copies(qs, k, id) == 0)
    ensures Lines(qs, Push(mid, k, id), loose)
  {
    hide Within;
    forall j ensures InLine(Listed(qs, j), Listed(Push(mid, k, id), j), loose) {
      assert Within(Listed(mid, j), Listed(qs, j));
      if j == k { assert ([id] + Listed(mid, k))[1..] == Listed(mid, k); }
    }
  }

  lemma RepushLines(qs: Queues, mid: Queues, k: Queue, id: string, loose: set<string>)
    requires Thins(qs, mid) && (id in loose || Copies(qs, k, id) == 0)
    ensures Lines(qs, Repush(mid, k, id), loose)
  {
    hide Thins, Lines, Push, Purge, Copies;
    PurgeThins(mid, k, id);
    ThinsThrough(qs, mid, Purge(mid, k, id));
    PushLines(qs, Purge(mid, k, id), k, id, loose);
  }

  // ----- what one event does to the queues

  lemma BulkLines(w: World, e: Event)
    requires Enabled(w, e) && !SingleTask(e)
    ensures Thins(w.db.queues, Apply(w, e).db.queues)
  {
    if e.ClaimTask? {
      ClaimNextThins(w.db, e.queue, e.worker, e.instance, e.token, e.limit);
      hide ClaimNext, Thins;
      ApplyKeepsReply(w, e);
    } else if e.FinishParent? {
      FinishRuns(w, e);
      FinishThins(w.db, e);
    } else if e.CancelId? {
      CancelRuns(w, e);
      CancelThins(w.db, e.id);
    } else {
      PopThinned(w, e);
    }
    hide Apply, Reply, Enabled, Thins;
  }

  lemma FinishThins(db: Redis, e: Event)
    requires e.FinishParent?
    ensures Thins(db.queues, Finish(db, e.parent, e.generation, e.status, e.reason, e.body, e.order).db.queues)
  {
    hide WithdrawAll, Close, Thins;
    ThinsItself(db.queues);
    if Finishable(db.life, e.parent, e.generation) {
      WithdrawAllThins(db.(life := Close(db.life, e.parent, e.generation, e.status, e.reason, e.body)), e.order);
    }
  }

  lemma CancelThins(db: Redis, id: string)
    ensures Thins(db.queues, Cancel(db, id).queues)
  {
    hide Withdraw, Condemn, Thins;
    ThinsItself(db.queues);
    WithdrawThins(db.(life := Condemn(db.life, id)), id, CANCELLED);
  }

  lemma PopThinned(w: World, e: Event)
    requires Enabled(w, e) && e.PopCpu?
    ensures Thins(w.db.queues, Apply(w, e).db.queues)
  {
    hide Thins, Pop;
    ThinsItself(w.db.queues);
    if Listed(w.db.queues, e.queue) != [] { PopThins(w.db.queues, e.queue); }
  }

  lemma SubmitLines(db: Redis, id: string, t: Task, known: seq<Queue>, loose: set<string>)
    requires id in loose || (id in db.tasks && !EndedTask(db, id)) || NoCopies(db.queues, id)
    ensures Lines(db.queues, Submit(db, id, t).db.queues, loose)
    ensures Lines(db.queues, ForceRefresh(db, id, t, known).db.queues, loose)
  {
    hide Copies, Entries, Purge, PurgeAll, Push, Admits, Home, Lines, Thins;
    ThinsItself(db.queues);
    ThinsLines(db.queues, db.queues, loose);
    PurgeThins(db.queues, Home(t), id);
    if id in loose || NoCopies(db.queues, id) {
      PushLines(db.queues, Purge(db.queues, Home(t), id), Home(t), id, loose);
      var qs := if id in db.tasks && db.tasks[id].assignee.Some?
                then Purge(db.queues, Direct(db.tasks[id].assignee.value), id) else db.queues;
      if id in db.tasks && db.tasks[id].assignee.Some? {
        PurgeThins(db.queues, Direct(db.tasks[id].assignee.value), id);
      }
      PurgeAllThins(qs, [Home(t)] + known, id);
      ThinsThrough(db.queues, qs, PurgeAll(qs, [Home(t)] + known, id));
      PushLines(db.queues, PurgeAll(qs, [Home(t)] + known, id), Home(t), id, loose);
    }
  }

  /** An id that waits somewhere and is not loose waits there once. */
  lemma WaitsOnce(w: World, k: Queue, x: string)
    requires Placed(w, x) && x in Listed(w.db.queues, k)
    ensures multiset(Listed(w.db.queues, k))[x] == 1
    ensures x in w.db.tasks && w.db.tasks[x].claim == None && w.db.tasks[x].status == Pending
            && OneCopy(w.db.queues, x, k)
  {
    hide Held, Closed, NoEntries;
    assert Copies(w.db.queues, k, x) > 0;
    if x in w.db.tasks && w.db.tasks[x].claim.Some? { HeldHasNoCopies(w, x); }
  }

  lemma HolderLines(w: World, e: Event)
    requires Valid(w) && Enabled(w, e) && (e.ReturnClaim? || e.RequeueClaim?)
    ensures Lines(w.db.queues, Apply(w, e).db.queues, w.loose)
  {
    hide Lines, Thins, Return, Requeue, Valid, Copies;
    var i := w.claims[e.token];
    if i.id !in w.loose && Current(w.db, i.id, e.token) { HolderHasNoCopies(w, e.token); }
    if e.ReturnClaim? {
      ReturnLines(w.db, i.id, i.worker, i.source, e.token, w.loose);
    } else {
      RequeueLines(w, e);
    }
  }

  lemma HolderHasNoCopies(w: World, token: string)
    requires Valid(w) && token in w.claims && w.claims[token].id !in w.loose
    requires Current(w.db, w.claims[token].id, token)
    ensures NoCopies(w.db.queues, w.claims[token].id)
  {
    hide Placed;
    assert Placed(w, w.claims[token].id);
    HeldHasNoCopies(w, w.claims[token].id);
  }

  lemma ReturnLines(db: Redis, id: string, v: Worker, source: Queue, token: string, loose: set<string>)
    requires Current(db, id, token) && id !in loose ==> NoCopies(db.queues, id)
    ensures Lines(db.queues, Return(db, id, v, source, token).db.queues, loose)
  {
    hide Lines, Thins, Copies, Entries, Purge, Push, DropEntry, Admits, Touches, Quiet;
    ThinsItself(db.queues);
    ThinsLines(db.queues, db.queues, loose);
    if Current(db, id, token) {
      PurgeThins(db.queues, source, id);
      ThinsLines(db.queues, Purge(db.queues, source, id), loose);
      RepushLines(db.queues, db.queues, source, id, loose);
    }
  }

  lemma RequeueLines(w: World, e: Event)
    requires Enabled(w, e) && e.RequeueClaim?
    requires var i := w.claims[e.token];
             Current(w.db, i.id, e.token) && i.id !in w.loose ==> NoCopies(w.db.queues, i.id)
    ensures Lines(w.db.queues, Apply(w, e).db.queues, w.loose)
  {
    hide Lines, Requeue, Copies, NoCopies;
    var i := w.claims[e.token];
    var t := if i.id in w.db.tasks then w.db.tasks[i.id]
             else Task(Pending, Payload(Gpu, None, "", "", ""), "", None, "", {}, None, None);
    RequeueScriptLines(w.db, i.id, i.worker, e.token, if i.id in w.db.tasks && !e.restore then Pool(t.data.resource)
                       else i.source, t.data.(note := e.note), if e.restore then t.assignee else None,
                       if e.restore then t.assignedAt else "", i.base, e.mode, w.loose);
  }

  lemma RequeueScriptLines(db: Redis, id: string, v: Worker, token: string, dest: Queue, data: Payload,
                           assignee: Option<Worker>, assignedAt: string, base: Option<string>, mode: Release,
                           loose: set<string>)
    requires Current(db, id, token) && id !in loose ==> NoCopies(db.queues, id)
    ensures Lines(db.queues, Requeue(db, id, v, token, dest, data, assignee, assignedAt, base, mode).db.queues, loose)
  {
    hide Lines, Thins, Copies, Entries, Repush, DropEntry, Admits, Marked, Touches, Quiet;
    ThinsItself(db.queues);
    ThinsLines(db.queues, db.queues, loose);
    if Current(db, id, token) { RepushLines(db.queues, db.queues, dest, id, loose); }
  }

  lemma MoveLines(w: World, e: Event)
    requires Enabled(w, e) && e.MoveWaiting? && (e.id in w.loose || Placed(w, e.id))
    ensures Lines(w.db.queues, Apply(w, e).db.queues, w.loose)
  {
    hide Lines, Thins, Copies, Entries, TakeOne, Repush, Admits, Marked, Touches, Quiet;
    var qs, pool := w.db.queues, Pool(e.seen.data.resource);
    ThinsItself(qs);
    ThinsLines(qs, qs, w.loose);
    TakeOneThins(qs, Direct(e.src), e.id);
    ThinsLines(qs, TakeOne(qs, Direct(e.src), e.id), w.loose);
    if e.id !in w.loose && Copies(qs, Direct(e.src), e.id) > 0 {
      assert e.id in Listed(qs, Direct(e.src)) by { Monitor.CopiesOfListed(qs, Direct(e.src), e.id); }
      WaitsOnce(w, Direct(e.src), e.id);
    }
    if e.id in w.loose || Copies(qs, pool, e.id) == 0 {
      RepushLines(qs, TakeOne(qs, Direct(e.src), e.id), pool, e.id, w.loose);
    }
  }

  lemma IdLines(w: World, e: Event)
    requires Valid(w) && Enabled(w, e) && SingleTask(e)
    requires e.SubmitTask? || e.RefreshTask? || e.MoveWaiting? || e.ReturnCpu?
    ensures Lines(w.db.queues, Apply(w, e).db.queues, w.loose)
  {
    hide Lines, Thins, Submit, ForceRefresh, QueueWait, Push, Placed, NewTask, Copies, Entries;
    assert e.id in w.loose || Placed(w, e.id);
    if e.MoveWaiting? {
      MoveLines(w, e);
    } else if e.ReturnCpu? {
      ThinsItself(w.db.queues);
      PushLines(w.db.queues, w.db.queues, e.queue, e.id, w.loose);
    } else {
      if e.id !in w.loose { SettledHasNoCopies(w, e.id); }
      SubmitLines(w.db, e.id, NewTask(e.id, e.sub), if e.RefreshTask? then e.known else [], w.loose);
    }
  }

  lemma SettledHasNoCopies(w: World, id: string)
    requires Placed(w, id)
    ensures (id in w.db.tasks && !EndedTask(w.db, id)) || NoCopies(w.db.queues, id)
  {
    hide Copies, Entries, Closed;
  }

  lemma StillLines(w: World, e: Event)
    requires Enabled(w, e) && SingleTask(e) && !e.ReturnClaim? && !e.RequeueClaim?
    requires !e.SubmitTask? && !e.RefreshTask? && !e.MoveWaiting? && !e.ReturnCpu?
    ensures Apply(w, e).db.queues == w.db.queues
  {
    ApplyKeepsReply(w, e);
    hide Apply, Copies, Entries, Admits, Marked, Open, Close, Condemn, WithdrawAll, Withdraw, Touches, Quiet, DropEntry;
  }

  /** Whatever happens, a queue loses some of its ids and gains at most one, behind all others. */
  lemma EveryEventKeepsLine(w: World, e: Event)
    requires Valid(w) && Enabled(w, e)
    ensures Lines(w.db.queues, Apply(w, e).db.queues, w.loose)
  {
    hide Lines, Thins, Valid, Apply, Reply, Enabled;
    if !SingleTask(e) {
      BulkLines(w, e);
      ThinsLines(w.db.queues, Apply(w, e).db.queues, w.loose);
    } else if e.ReturnClaim? || e.RequeueClaim? {
      HolderLines(w, e);
    } else if e.SubmitTask? || e.RefreshTask? || e.MoveWaiting? || e.ReturnCpu? {
      IdLines(w, e);
    } else {
      StillLines(w, e);
      ThinsItself(w.db.queues);
      ThinsLines(w.db.queues, Apply(w, e).db.queues, w.loose);
    }
  }

  // ----- over runs

  lemma OlderStays(w: World, e: Event, k: Queue, x: string, y: string)
    requires Valid(w) && Enabled(w, e) && x != y && x !in w.loose && y !in w.loose
    requires var q, r := Listed(w.db.queues, k), Listed(Apply(w, e).db.queues, k);
             x in q && y in q && x in r && y in r && Older(q, x, y)
    ensures Older(Listed(Apply(w, e).db.queues, k), x, y)
  {
    EveryEventKeepsLine(w, e);
    assert Placed(w, x) && Placed(w, y);
    hide Valid, Apply, Reply, Enabled, Placed, Older, Within;
    WaitsOnce(w, k, x);
    WaitsOnce(w, k, y);
    var q, r := Listed(w.db.queues, k), Listed(Apply(w, e).db.queues, k);
    assert InLine(q, r, w.loose);
    if Within(r, q) {
      OrderKept(r, q, x, y);
    } else {
      OrderKept(r[1..], q, x, y);
      OlderLater(r, x, y);
    }
  }

  ghost predicate Waits(w: World, es: seq<Event>, k: Queue, x: string)
    requires CanRun(w, es)
    decreases |es|
  {
    x in Listed(w.db.queues, k) && (es != [] ==> Waits(Apply(w, es[0]), es[1..], k, x))
  }

  /** Nobody overtakes: of two ids that wait in one queue throughout a run, the older stays the
      older, whatever any process submits, returns, requeues, moves or withdraws meanwhile. */
  lemma {:induction false} NobodyOvertakes(w: World, es: seq<Event>, k: Queue, x: string, y: string)
    requires Valid(w) && CanRun(w, es) && x != y && x !in After(w, es).loose && y !in After(w, es).loose
    requires Waits(w, es, k, x) && Waits(w, es, k, y) && Older(Listed(w.db.queues, k), x, y)
    ensures Older(Listed(After(w, es).db.queues, k), x, y)
    decreases |es|
  {
    hide Valid, Apply, Reply, Enabled, Older;
    if es != [] {
      LooseForGood(w, es);
      OlderStays(w, es[0], k, x, y);
      ValidStays(w, es[0]);
      NobodyOvertakes(Apply(w, es[0]), es[1..], k, x, y);
    }
  }

  /** First come, first served: when the younger of the two is claimed from the queue, the older
      one could not be claimed at all. */
  lemma FirstComeFirstServed(w: World, es: seq<Event>, claim: Event, x: string, y: string)
    requires Valid(w) && CanRun(w, es) && x != y && x !in After(w, es).loose && y !in After(w, es).loose
    requires Enabled(After(w, es), claim) && claim.ClaimTask? && Grabbed(After(w, es), claim) == Some(y)
    requires Waits(w, es, claim.queue, x) && Waits(w, es, claim.queue, y)
    requires Older(Listed(w.db.queues, claim.queue), x, y)
    ensures !Claimable(After(w, es).db, x)
  {
    NobodyOvertakes(w, es, claim.queue, x, y);
    var v := After(w, es);
    RunsStayValid(w, es);
    assert Placed(v, y) && x in Listed(v.db.queues, claim.queue) && y in Listed(v.db.queues, claim.queue)
      by { WaitsLast(w, es, claim.queue, x); WaitsLast(w, es, claim.queue, y); }
    hide CanRun, After, Waits, Valid, Claimable, Placed;
    Dequeue.ClaimNextTakesOldest(v.db, claim.queue, claim.worker, claim.instance, claim.token, claim.limit);
    WaitsOnce(v, claim.queue, y);
    var q := Listed(v.db.queues, claim.queue);
    var m := Dequeue.Debris(v.db, claim.queue, claim.limit);
    var i, j :| 0 <= i < j < |q| && q[i] == y && q[j] == x;
    assert q[|q| - 1 - m] == y;
    if i != |q| - 1 - m { Twice(q, i, |q| - 1 - m); }
  }

  lemma {:induction false} WaitsLast(w: World, es: seq<Event>, k: Queue, x: string)
    requires CanRun(w, es) && Waits(w, es, k, x)
    ensures x in Listed(After(w, es).db.queues, k)
    decreases |es|
  {
    hide Apply, Enabled;
    if es != [] { WaitsLast(Apply(w, es[0]), es[1..], k, x); }
  }
}
