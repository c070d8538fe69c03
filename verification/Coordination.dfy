/** The Redis keyspace that workers, monitors and workflow owners share, one datatype
    field per key family, and the list commands the scripts are made of.

    Queues are sequences with LPUSH at the left and RPOP at the right. What a list
    command does to the rest of the protocol is stated through two counters: `Copies`
    (how often an id sits in a queue) and `Entries` (how often a claim entry sits in an
    inflight list). */
module Coordination {

  datatype Option<+T> = None | Some(value: T)

  datatype Status = Pending | Processing | Completed | Failed | TimedOut

  predicate Terminal(s: Status) {
    s.Completed? || s.Failed? || s.TimedOut?
  }

  datatype Resource = Cpu | Gpu

  datatype Worker = Worker(name: string, gpu: bool)

  datatype Queue = Pool(resource: Resource) | Direct(worker: Worker)

  /** A parent id and a task id never collide: they live in different key families. */
  datatype Name = Parent(text: string) | Child(text: string)

  datatype Recovery = Unfenced | Fenced | Frozen

  /** The claim_* fields of a task hash. They are written and cleared together; an
      absent or empty claim_token is `None` in the task. */
  datatype Claim = Claim(token: string, worker: Worker, instance: string, source: Queue, recovery: Recovery)

  /** One element of a worker's inflight list, "token|id"; anything else is malformed. */
  datatype Entry = Entry(token: string, id: string) | Malformed(text: string)

  /** The serialized `data` field: what the protocol reads from it, and the rest. */
  datatype Payload = Payload(resource: Resource, base: Option<string>, nodeId: string, hostname: string, note: string)

  /** The workflow_* fields of a child task. */
  datatype Scope = Scope(parent: string, generation: string, deadline: real)

  datatype Task = Task(
    status: Status,
    data: Payload,
    submittedAt: string,
    assignee: Option<Worker>,
    assignedAt: string,
    cancelKeys: set<Name>,
    scope: Option<Scope>,
    claim: Option<Claim>)

  datatype ParentTask = ParentTask(
    generation: string,
    status: Status,
    requestHash: string,
    deadline: real,
    planned: seq<string>)

  /** `body` is the controller's result; a `reason` that is not empty is its published error
      message, and then it counts neither as compiled nor as correct. */
  datatype ParentResult = ParentResult(generation: string, status: Status, requestHash: string, body: string,
                                       reason: string)

  /** The workflow side: cancel markers (which may expire), permanent tombstones, parent
      records, leases, the active index and the server clock. */
  datatype Lifecycle = Lifecycle(
    cancels: set<Name>,
    tombstones: set<Name>,
    parents: map<string, ParentTask>,
    parentResults: map<string, ParentResult>,
    leases: map<string, string>,
    active: set<string>,
    now: real)

  /** `rosters` are the children sets, one per parent id and generation. */
  datatype Redis = Redis(
    tasks: map<string, Task>,
    results: map<string, string>,
    queues: Queues,
    inflight: InFlight,
    rosters: map<(string, string), set<string>>,
    life: Lifecycle)

  const EMPTY := Redis(map[], map[], map[], map[], map[], Lifecycle({}, {}, map[], map[], map[], {}, 0.0))

  /** What a script returns: the new keyspace and its integer reply. */
  datatype Outcome = Outcome(db: Redis, code: int)

  type Queues = map<Queue, seq<string>>

  type InFlight = map<Worker, seq<Entry>>

  function Listed(qs: Queues, k: Queue): seq<string> {
    if k in qs then qs[k] else []
  }

  function Running(fl: InFlight, w: Worker): seq<Entry> {
    if w in fl then fl[w] else []
  }

  function Copies(qs: Queues, k: Queue, id: string): nat {
    multiset(Listed(qs, k))[id]
  }

  function Entries(fl: InFlight, w: Worker, e: Entry): nat {
    multiset(Running(fl, w))[e]
  }

  /** The queue a task waits in: its worker's if one is assigned, its resource's if not. */
  function Home(t: Task): Queue {
    if t.assignee.Some? then Direct(t.assignee.value) else Pool(t.data.resource)
  }

  predicate Current(db: Redis, id: string, token: string) {
    id in db.tasks && db.tasks[id].claim.Some? && db.tasks[id].claim.value.token == token
  }

  // ----- list commands on bare sequences

  /** LREM list 0 x */
  function Without<T(==,!new)>(q: seq<T>, x: T): (r: seq<T>)
    ensures multiset(r)[x] == 0
    ensures forall y :: y != x ==> multiset(r)[y] == multiset(q)[y]
    ensures x !in q ==> r == q
  {
    if q == [] then []
    else
      assert q == [q[0]] + q[1..];
      if q[0] == x then Without(q[1..], x) else [q[0]] + Without(q[1..], x)
  }

  /** LREM list 1 x */
  function WithoutFirst<T(==)>(q: seq<T>, x: T): (r: seq<T>)
    ensures multiset(r) == multiset(q) - multiset{x}
    ensures x !in q ==> r == q
  {
    if q == [] then []
    else
      assert q == [q[0]] + q[1..];
      if q[0] == x then q[1..] else [q[0]] + WithoutFirst(q[1..], x)
  }

  // ----- the same commands on all lists of one kind

  function Push(qs: Queues, k: Queue, id: string): (r: Queues)
    ensures forall j, x :: Copies(r, j, x) == Copies(qs, j, x) + if j == k && x == id then 1 else 0
  {
    qs[k := [id] + Listed(qs, k)]
  }

  function Purge(qs: Queues, k: Queue, id: string): (r: Queues)
    ensures forall j, x :: Copies(r, j, x) == if j == k && x == id then 0 else Copies(qs, j, x)
  {
    qs[k := Without(Listed(qs, k), id)]
  }

  /** LREM 0 followed by LPUSH: exactly one copy, at the left. */
  function Repush(qs: Queues, k: Queue, id: string): (r: Queues)
    ensures forall j, x :: Copies(r, j, x) == if j == k && x == id then 1 else Copies(qs, j, x)
  {
    Push(Purge(qs, k, id), k, id)
  }

  function TakeOne(qs: Queues, k: Queue, id: string): (r: Queues)
    ensures forall j, x :: Copies(r, j, x) == Copies(qs, j, x) -
                          if j == k && x == id && Copies(qs, k, id) > 0 then 1 else 0
  {
    qs[k := WithoutFirst(Listed(qs, k), id)]
  }

  /** RPOP on a non-empty queue. */
  function Pop(qs: Queues, k: Queue): (r: (Queues, string))
    requires Listed(qs, k) != []
    ensures Copies(qs, k, r.1) > 0
    ensures forall j, x :: Copies(r.0, j, x) == Copies(qs, j, x) - if j == k && x == r.1 then 1 else 0
  {
    var q := Listed(qs, k);
    assert q == q[..|q| - 1] + [q[|q| - 1]];
    (qs[k := q[..|q| - 1]], q[|q| - 1])
  }

  function PushEntry(fl: InFlight, w: Worker, e: Entry): (r: InFlight)
    ensures forall v, x :: Entries(r, v, x) == Entries(fl, v, x) + if v == w && x == e then 1 else 0
  {
    fl[w := [e] + Running(fl, w)]
  }

  function DropEntry(fl: InFlight, w: Worker, e: Entry): (r: InFlight)
    ensures forall v, x :: Entries(r, v, x) == Entries(fl, v, x) -
                          if v == w && x == e && Entries(fl, w, e) > 0 then 1 else 0
  {
    fl[w := WithoutFirst(Running(fl, w), e)]
  }

  // ----- where one task is

  ghost predicate NoCopies(qs: Queues, id: string) {
    forall k :: Copies(qs, k, id) == 0
  }

  ghost predicate OneCopy(qs: Queues, id: string, home: Queue) {
    Copies(qs, home, id) == 1 && forall k :: k != home ==> Copies(qs, k, id) == 0
  }

  ghost predicate NoEntries(fl: InFlight, id: string) {
    forall w, token :: Entries(fl, w, Entry(token, id)) == 0
  }

  ghost predicate OneEntry(fl: InFlight, id: string, token: string, w: Worker) {
    && Entries(fl, w, Entry(token, id)) == 1
    && forall v, other :: v != w || other != token ==> Entries(fl, v, Entry(other, id)) == 0
  }

  ghost predicate SameCopies(qs: Queues, qs': Queues, id: string) {
    forall k :: Copies(qs', k, id) == Copies(qs, k, id)
  }

  ghost predicate SameEntries(fl: InFlight, fl': InFlight, id: string) {
    forall w, token :: Entries(fl', w, Entry(token, id)) == Entries(fl, w, Entry(token, id))
  }

  /** Nothing about this id differs between two keyspaces. */
  ghost predicate SameSlot(db: Redis, db': Redis, id: string) {
    && (id in db.tasks <==> id in db'.tasks)
    && (id in db.tasks ==> db'.tasks[id] == db.tasks[id])
    && SameCopies(db.queues, db'.queues, id)
    && SameEntries(db.inflight, db'.inflight, id)
  }

  predicate SameResult(db: Redis, db': Redis, id: string) {
    (id in db.results <==> id in db'.results) && (id in db.results ==> db'.results[id] == db.results[id])
  }

  /** A script that concerns one task: every other task keeps its record, its result, its
      copies and its entries, and the workflow side is unchanged. */
  ghost predicate Touches(db: Redis, db': Redis, id: string) {
    db'.life == db.life && forall x :: x != id ==> SameSlot(db, db', x) && SameResult(db, db', x)
  }

  lemma TouchesAgain(a: Redis, b: Redis, c: Redis, id: string)
    requires Touches(a, b, id) && Touches(b, c, id)
    ensures Touches(a, c, id)
  {
    hide Copies, Entries;
    forall x | x != id
      ensures SameSlot(a, c, x) && SameResult(a, c, x)
    {
      assert SameSlot(a, b, x) && SameSlot(b, c, x);
    }
  }

  /** A claim or scope that a stored task carries was there before. */
  predicate Inherits(db: Redis, id: string, t: Task) {
    && (t.claim.Some? ==> Current(db, id, t.claim.value.token))
    && (t.scope.Some? ==> id in db.tasks && db.tasks[id].scope == t.scope)
  }

  /** A script that issues nothing: no new token, no new inflight entry, no new scope. */
  ghost predicate Quiet(db: Redis, db': Redis) {
    && db'.rosters == db.rosters
    && (forall id :: id in db'.tasks ==> Inherits(db, id, db'.tasks[id]))
    && (forall v, e :: Entries(db'.inflight, v, e) <= Entries(db.inflight, v, e))
  }
}
