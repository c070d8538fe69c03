/** Every process that touches the keyspace, as one transition system: a worker, monitor,
    canceller or workflow owner performs one event at a time, and may stop between any two. */
module Protocol {
  import opened Coordination
  import opened Guard
  import opened TaskScripts
  import opened WorkflowScripts

  /** What the holder of a claim token remembers about it, also after a crash: the
      durable entry and the task hash carry the same facts. */
  datatype Info = Info(id: string, worker: Worker, instance: string, source: Queue, base: Option<string>)

  /** `claims` are the tokens ever issued, `dispatched` those whose holder has called the
      execution gate, `observed` those whose holder has seen a cancel marker;
      `generations` maps each workflow generation ever issued to its parent id. `loose`
      are the ids that ever went through one of the two paths without a claim: a CPU
      dequeue or a claimless completion. */
  datatype World = World(
    db: Redis,
    claims: map<string, Info>,
    dispatched: set<string>,
    observed: set<string>,
    generations: map<string, string>,
    loose: set<string>)

  const START := World(EMPTY, map[], {}, {}, map[], {})

  /** The caller's half of a submission; `source` is workflow_source_task_id. */
  datatype Submission = Submission(data: Payload, submittedAt: string, assignee: Option<Worker>, source: Option<string>,
                                   scope: Option<Scope>)

  function NewTask(id: string, s: Submission): Task {
    Task(Pending, s.data, s.submittedAt, s.assignee, if s.assignee.Some? then s.submittedAt else "",
         {Name.Child(id)} + (if s.data.base.Some? then {Name.Parent(s.data.base.value)} else {})
         + (if s.source.Some? then {Name.Child(s.source.value)} else {}),
         s.scope, None)
  }

  /** The three child ids a parent generation plans for. */
  function Planned(p: string, g: string): seq<string> {
    [p + "_compile_" + g, p + "_kernel_" + g, p + "_ref_" + g]
  }

  datatype Event =
    | SubmitTask(id: string, sub: Submission)
    | RefreshTask(id: string, sub: Submission, known: seq<Queue>)
    | ClaimTask(token: string, worker: Worker, instance: string, queue: Queue, limit: nat)
    | MarkProcessing(token: string)
    | ReturnClaim(token: string)
    | AckClaim(token: string, release: bool)
    | FreezeClaim(token: string)
    | RequeueClaim(token: string, restore: bool, mode: Release, note: string)
    | FinalizeClaim(token: string, status: Status, result: string, allowFrozen: bool)
    | ObserveCancelled(token: string)
    | DropStale(token: string)
    | MoveWaiting(id: string, src: Worker, op: Move, seen: Snapshot, note: string)
    | PopCpu(queue: Queue)
    | ReturnCpu(id: string, queue: Queue)
    | MarkCpuTask(id: string)
    | CommitClaimless(id: string, status: Status, result: string)
    | ExpireTask(id: string)
    | ExpireResult(id: string)
    | DiscardChild(id: string, generation: string)
    | CancelId(id: string)
    | AcceptParent(parent: string, generation: string, hash: string, timeout: real, force: bool)
    | RenewLease(parent: string, generation: string)
    | FinishParent(parent: string, generation: string, status: Status, reason: string, body: string, order: seq<string>)
    | ExpireParent(parent: string)
    | ExpireParentResult(parent: string)
    | ExpireLease(parent: string)
    | ExpireMarker(name: Name)
    | DiscardFinished(parent: string, generation: string)
    | Tick(elapsed: real)

  /** A worker whose device is not CUDA never pops the GPU pool or a GPU worker's queue. */
  predicate CpuQueue(k: Queue) {
    match k
    case Pool(r) => r.Cpu?
    case Direct(v) => !v.gpu
  }

  /** dequeued_task_cancelled: a marker or tombstone of the task or of its base exists. */
  predicate CancelSeen(life: Lifecycle, id: string, base: Option<string>) {
    || Name.Child(id) in life.cancels + life.tombstones
    || (base.Some? && Name.Parent(base.value) in life.cancels + life.tombstones)
  }

  /** When an event may happen. Tokens and generations are fresh random identities; a
      holder marks a claim at most once, returns it only before and freezes it only after
      that; it acknowledges an attempt that is no longer current or that it saw cancelled; a
      failure reason never comes with a completed result; keys expire only where the code
      sets a lifetime. */
  predicate Enabled(w: World, e: Event) {
    match e
    case ClaimTask(token, _, _, _, _) => token !in w.claims
    case MarkProcessing(token) => token in w.claims && token !in w.dispatched
    case ReturnClaim(token) => token in w.claims && token !in w.dispatched
    case AckClaim(token, release) =>
      token in w.claims && (!Current(w.db, w.claims[token].id, token) || (token in w.observed && !release))
    case FreezeClaim(token) => token in w.dispatched && token in w.claims
    case RequeueClaim(token, _, _, _) => token in w.claims
    case FinalizeClaim(token, status, _, _) => token in w.claims && Terminal(status)
    case ObserveCancelled(token) => token in w.claims && CancelSeen(w.db.life, w.claims[token].id, w.claims[token].base)
    case DropStale(token) => token in w.claims && !Current(w.db, w.claims[token].id, token)
    case PopCpu(k) => CpuQueue(k)
    case ReturnCpu(id, k) => CpuQueue(k) && id in w.loose
    case MarkCpuTask(id) => id in w.loose
    case CommitClaimless(_, status, _) => Terminal(status)
    case ExpireTask(id) => id in w.db.tasks && Terminal(w.db.tasks[id].status)
    case AcceptParent(_, g, _, _, _) => g !in w.generations
    case FinishParent(p, g, status, reason, _, order) =>
      Terminal(status) && (reason != "" ==> !status.Completed?) && (set c | c in order) == Roster(w.db, (p, g))
    case ExpireParent(p) => p in w.db.life.parents && Terminal(w.db.life.parents[p].status)
    case Tick(dt) => dt >= 0.0
    case _ => true
  }

  function RequeueOf(w: World, token: string, restore: bool, mode: Release, note: string): Outcome
    requires token in w.claims
  {
    var i := w.claims[token];
    if i.id !in w.db.tasks then
      Requeue(w.db, i.id, i.worker, token, i.source, Payload(Gpu, None, "", "", note), None, "", i.base, mode)
    else
      var t := w.db.tasks[i.id];
      Requeue(w.db, i.id, i.worker, token, if restore then i.source else Pool(t.data.resource), t.data.(note := note),
              if restore then t.assignee else None, if restore then t.assignedAt else "", i.base, mode)
  }

  function BaseOf(db: Redis, id: string): Option<string> {
    if id in db.tasks then db.tasks[id].data.base else None
  }

  /** The keyspace after an event, and the script's reply. */
  function Reply(w: World, e: Event): Outcome
    requires Enabled(w, e)
  {
    var db := w.db;
    match e
    case SubmitTask(id, sub) => Submit(db, id, NewTask(id, sub))
    case RefreshTask(id, sub, known) => ForceRefresh(db, id, NewTask(id, sub), known)
    case ClaimTask(token, v, instance, k, limit) =>
      var (d, got) := ClaimNext(db, k, v, instance, token, limit);
      Outcome(d, if got.Some? then 1 else 0)
    case MarkProcessing(token) =>
      var i := w.claims[token];
      Mark(db, i.id, i.worker, i.instance, i.source, token, i.base)
    case ReturnClaim(token) => Return(db, w.claims[token].id, w.claims[token].worker, w.claims[token].source, token)
    case AckClaim(token, release) => Ack(db, w.claims[token].id, w.claims[token].worker, token, release)
    case FreezeClaim(token) => Freeze(db, w.claims[token].id, token)
    case RequeueClaim(token, restore, mode, note) => RequeueOf(w, token, restore, mode, note)
    case FinalizeClaim(token, status, result, allowFrozen) =>
      Finalize(db, w.claims[token].id, w.claims[token].worker, token, status, result, allowFrozen)
    case ObserveCancelled(_) => Outcome(db, 1)
    case DropStale(token) => Outcome(Forget(db, w.claims[token].id, w.claims[token].worker, token), 1)
    case MoveWaiting(id, src, op, seen, note) => QueueWait(db, id, src, op, seen, note)
    case PopCpu(k) =>
      if Listed(db.queues, k) == [] then Outcome(db, 0) else Outcome(db.(queues := Pop(db.queues, k).0), 1)
    case ReturnCpu(id, k) => Outcome(db.(queues := Push(db.queues, k, id)), 1)
    case MarkCpuTask(id) => MarkCpu(db, id, BaseOf(db, id))
    case CommitClaimless(id, status, result) => Outcome(ClaimlessCommit(db, id, status, result), 1)
    case ExpireTask(id) => Outcome(db.(tasks := db.tasks - {id}), 1)
    case ExpireResult(id) => Outcome(db.(results := db.results - {id}), 1)
    case DiscardChild(id, g) => DiscardTask(db, id, g)
    case CancelId(id) => Outcome(Cancel(db, id), 1)
    case AcceptParent(p, g, hash, timeout, force) => Accept(db, p, g, hash, timeout, force, Planned(p, g))
    case RenewLease(p, g) => Renew(db, p, g)
    case FinishParent(p, g, status, reason, body, order) => Finish(db, p, g, status, reason, body, order)
    case ExpireParent(p) => Outcome(db.(life := db.life.(parents := db.life.parents - {p})), 1)
    case ExpireParentResult(p) => Outcome(db.(life := db.life.(parentResults := db.life.parentResults - {p})), 1)
    case ExpireLease(p) => Outcome(db.(life := db.life.(leases := db.life.leases - {p})), 1)
    case ExpireMarker(n) => Outcome(db.(life := db.life.(cancels := db.life.cancels - {n})), 1)
    case DiscardFinished(p, g) => DiscardParent(db, p, g)
    case Tick(dt) => Outcome(db.(life := db.life.(now := db.life.now + dt)), 1)
  }

  /** The id a claim event took, if it took one. */
  function Grabbed(w: World, e: Event): Option<string>
    requires e.ClaimTask?
  {
    ClaimNext(w.db, e.queue, e.worker, e.instance, e.token, e.limit).1
  }

  function Apply(w: World, e: Event): World
    requires Enabled(w, e)
  {
    var w' := w.(db := Reply(w, e).db);
    match e
    case ClaimTask(token, v, instance, k, _) =>
      var got := Grabbed(w, e);
      if got.None? then w'
      else w'.(claims := w.claims[token := Info(got.value, v, instance, k, BaseOf(w.db, got.value))])
    case MarkProcessing(token) => w'.(dispatched := w.dispatched + {token})
    case ObserveCancelled(token) => w'.(observed := w.observed + {token})
    case PopCpu(k) => if Listed(w.db.queues, k) == [] then w' else w'.(loose := w.loose + {Pop(w.db.queues, k).1})
    case CommitClaimless(id, _, _) => w'.(loose := w.loose + {id})
    case AcceptParent(p, g, _, _, _) => w'.(generations := w.generations[g := p])
    case _ => w'
  }

  // ----- runs

  ghost predicate CanRun(w: World, es: seq<Event>)
    decreases |es|
  {
    es != [] ==> Enabled(w, es[0]) && CanRun(Apply(w, es[0]), es[1..])
  }

  function After(w: World, es: seq<Event>): World
    requires CanRun(w, es)
    decreases |es|
  {
    if es == [] then w else After(Apply(w, es[0]), es[1..])
  }

  // ----- what holds in every reachable world

  /** A task whose only parent marker is that of its own workflow parent. */
  predicate Anchored(t: Task) {
    t.data.base.None? || (t.scope.Some? && t.scope.value.parent == t.data.base.value)
  }

  /** The task will never be admitted again (for an anchored task). */
  predicate Closed(db: Redis, t: Task) {
    !Admitted(db, t) || !Anchored(t)
  }

  ghost predicate Held(w: World, id: string, t: Task, c: Claim) {
    && (t.status.Pending? || t.status.Processing?)
    && NoCopies(w.db.queues, id)
    && OneEntry(w.db.inflight, id, c.token, c.worker)
    && c.token in w.claims && w.claims[c.token] == Info(id, c.worker, c.instance, c.source, t.data.base)
    && c.source == Home(t)
    && (t.status.Pending? <==> c.recovery.Unfenced?)
    && (t.status.Pending? <==> c.token !in w.dispatched)
    && (c.token in w.observed ==> Closed(w.db, t))
  }

  /** A stored task is in exactly one place. */
  ghost predicate PlacedTask(w: World, id: string, t: Task) {
    if t.claim.Some? then Held(w, id, t, t.claim.value)
    else
      && NoEntries(w.db.inflight, id)
      && if Terminal(t.status) then NoCopies(w.db.queues, id)
         else || (t.status.Pending? && OneCopy(w.db.queues, id, Home(t)))
              || (NoCopies(w.db.queues, id) && Closed(w.db, t))
  }

  ghost predicate Placed(w: World, id: string) {
    if id !in w.db.tasks then NoCopies(w.db.queues, id) && NoEntries(w.db.inflight, id)
    else PlacedTask(w, id, w.db.tasks[id]) && Keyed(id, w.db.tasks[id])
  }

  /** Stored and not ended, in no queue and in no hands, though its guard is open. */
  ghost predicate Lost(w: World, id: string) {
    && id in w.db.tasks && !Terminal(w.db.tasks[id].status) && w.db.tasks[id].claim.None?
    && NoCopies(w.db.queues, id) && NoEntries(w.db.inflight, id) && Admitted(w.db, w.db.tasks[id])
  }

  predicate Keyed(id: string, t: Task) {
    Name.Child(id) in t.cancelKeys && (t.data.base.Some? ==> Name.Parent(t.data.base.value) in t.cancelKeys)
  }

  ghost predicate Conserved(w: World) {
    forall id :: id !in w.loose ==> Placed(w, id)
  }

  /** Lifecycle bookkeeping: the active index is exactly the ids with a non-terminal
      parent record, a lease names only the current generation of such a record, every
      record's generation was issued for it, a parent's cancel marker means that it is
      tombstoned or not active, and a task's means that it is tombstoned. */
  ghost predicate Bookkept(life: Lifecycle, generations: map<string, string>) {
    && (forall p :: p in life.active <==> p in life.parents && !Terminal(life.parents[p].status))
    && (forall p :: p in life.leases ==>
         p in life.active && p in life.parents && life.leases[p] == life.parents[p].generation)
    && (forall p :: p in life.parents ==>
          life.parents[p].generation in generations && generations[life.parents[p].generation] == p)
    && (forall p :: Name.Parent(p) in life.cancels ==> Name.Parent(p) in life.tombstones || p !in life.active)
    && (forall c :: Name.Child(c) in life.cancels ==> Name.Child(c) in life.tombstones)
  }

  /** The generation of a stored child was issued for its parent and, while it is the
      parent's current active one, the child stands in the generation's children set. */
  predicate EnrolledTask(w: World, id: string, s: Scope) {
    var life := w.db.life;
    && s.generation in w.generations && w.generations[s.generation] == s.parent
    && (s.parent in life.active && s.parent in life.parents && life.parents[s.parent].generation == s.generation
        ==> id in Roster(w.db, (s.parent, s.generation)))
  }

  ghost predicate Enrolled(w: World) {
    forall id :: id in w.db.tasks && w.db.tasks[id].scope.Some? ==> EnrolledTask(w, id, w.db.tasks[id].scope.value)
  }

  /** Tokens belong to one task for ever, and inflight lists hold issued tokens only. */
  ghost predicate Ticketed(w: World) {
    && (forall id :: id in w.db.tasks && w.db.tasks[id].claim.Some? ==>
          w.db.tasks[id].claim.value.token in w.claims && w.claims[w.db.tasks[id].claim.value.token].id == id)
    && (forall v, token, id :: Entries(w.db.inflight, v, Entry(token, id)) > 0 ==>
          token in w.claims && w.claims[token].id == id && w.claims[token].worker == v)
    && w.dispatched <= w.claims.Keys
    && w.observed <= w.claims.Keys
  }

  ghost predicate Valid(w: World) {
    Bookkept(w.db.life, w.generations) && Enrolled(w) && Ticketed(w) && Conserved(w)
  }
}
