/** The scripts that own a parent workflow: accept, renew, finish, cancel, discard. */
module WorkflowScripts {
  import opened Coordination
  import opened Guard
  import opened TaskScripts

  /** _ACCEPT: 1 a new generation was created, 0 the request joins the existing one. */
  function AcceptReply(life: Lifecycle, p: string, hash: string, force: bool): int {
    if Name.Parent(p) in life.tombstones then -2
    else if p !in life.parents && p in life.leases then -1
    else if p in life.parents && !Terminal(life.parents[p].status) then
      if life.parents[p].requestHash == hash then 0 else -1
    else if p in life.parents && !force then
      if life.parents[p].requestHash == hash && p in life.parentResults then 0 else -1
    else 1
  }

  function Open(life: Lifecycle, p: string, g: string, hash: string, timeout: real, planned: seq<string>): Lifecycle {
    life.(parents := life.parents[p := ParentTask(g, Pending, hash, life.now + timeout, planned)],
          parentResults := life.parentResults - {p},
          leases := life.leases[p := g],
          cancels := life.cancels - {Name.Parent(p)},
          active := life.active + {p})
  }

  function Accept(db: Redis, p: string, g: string, hash: string, timeout: real, force: bool,
                  planned: seq<string>): (r: Outcome)
    ensures r.db.tasks == db.tasks && r.db.queues == db.queues && r.db.inflight == db.inflight
            && r.db.results == db.results && r.db.rosters == db.rosters
  {
    var code := AcceptReply(db.life, p, hash, force);
    if code == 1 then Outcome(db.(life := Open(db.life, p, g, hash, timeout, planned)), 1) else Outcome(db, code)
  }

  /** _RENEW */
  function Renew(db: Redis, p: string, g: string): (r: Outcome)
    ensures r.db.tasks == db.tasks && r.db.queues == db.queues && r.db.inflight == db.inflight
            && r.db.results == db.results && r.db.rosters == db.rosters
  {
    if !FenceOpen(db.life, p, g) then Outcome(db, 0)
    else Outcome(db.(life := db.life.(parents := db.life.parents[p := db.life.parents[p].(status := Processing)])), 1)
  }

  /** The status a finish publishes, after cancellation, deadline and lease were looked at. */
  function FinalStatus(life: Lifecycle, p: string, g: string, status: Status, reason: string): Status
    requires p in life.parents
  {
    var cancelled := Name.Parent(p) in life.tombstones;
    if life.now >= life.parents[p].deadline then TimedOut
    else if (p !in life.leases || life.leases[p] != g) && !cancelled && reason == "" then Failed
    else if cancelled then Failed
    else status
  }

  const LATE := "Workflow end-to-end deadline exceeded"
  const UNLEASED := "Workflow owner lease expired"

  /** The reason it publishes with that status. */
  function FinalReason(life: Lifecycle, p: string, g: string, reason: string): string
    requires p in life.parents
  {
    if life.now >= life.parents[p].deadline then LATE
    else if Name.Parent(p) in life.tombstones then CANCELLED
    else if (p !in life.leases || life.leases[p] != g) && reason == "" then UNLEASED
    else reason
  }

  /** The parent half of _FINISH. */
  function Close(life: Lifecycle, p: string, g: string, status: Status, reason: string, body: string): Lifecycle
    requires p in life.parents
  {
    var final := FinalStatus(life, p, g, status, reason);
    var why := FinalReason(life, p, g, reason);
    life.(parents := life.parents[p := life.parents[p].(status := final)],
          parentResults := life.parentResults[p := ParentResult(g, final, life.parents[p].requestHash, body, why)],
          leases := life.leases - {p},
          cancels := life.cancels + {Name.Parent(p)},
          active := life.active - {p})
  }

  const ENDED := "Parent workflow ended"

  function WithdrawAll(db: Redis, order: seq<string>): Redis
    decreases |order|
  {
    if order == [] then db else WithdrawAll(Withdraw(db, order[0], ENDED), order[1..])
  }

  predicate Finishable(life: Lifecycle, p: string, g: string) {
    p in life.parents && life.parents[p].generation == g && !Terminal(life.parents[p].status)
  }

  /** _FINISH; `order` is the order in which SMEMBERS listed the generation's children. */
  function Finish(db: Redis, p: string, g: string, status: Status, reason: string, body: string,
                  order: seq<string>): Outcome {
    if !Finishable(db.life, p, g) then Outcome(db, 0)
    else Outcome(WithdrawAll(db.(life := Close(db.life, p, g, status, reason, body)), order), 1)
  }

  function Aliases(id: string): set<Name> {
    {Name.Child(id + "_compile"), Name.Child(id + "_kernel"), Name.Child(id + "_ref")}
  }

  /** The markers a cancellation writes, whether or not the id exists yet. */
  function Condemn(life: Lifecycle, id: string): Lifecycle {
    var names := {Name.Parent(id), Name.Child(id)};
    var planned := if id in life.parents then set c | c in life.parents[id].planned :: Name.Child(c) else {};
    life.(tombstones := life.tombstones + names + Aliases(id) + planned, cancels := life.cancels + names + planned)
  }

  /** cancel-task: a parent is only fenced here; a task is withdrawn as well. */
  function Cancel(db: Redis, id: string): Redis {
    var d := db.(life := Condemn(db.life, id));
    if id in db.life.parents || id !in db.tasks then d else Withdraw(d, id, CANCELLED)
  }

  /** discard-workflow-records, for a child record. */
  function DiscardTask(db: Redis, id: string, g: string): Outcome {
    if id !in db.tasks || db.tasks[id].scope.None? || db.tasks[id].scope.value.generation != g then Outcome(db, 0)
    else if !Terminal(db.tasks[id].status) || db.tasks[id].claim.Some? then Outcome(db, 0)
    else Outcome(db.(tasks := db.tasks - {id}, results := db.results - {id},
                     life := db.life.(cancels := db.life.cancels - {Name.Child(id)})), 1)
  }

  /** discard-workflow-records, for a parent record. */
  function DiscardParent(db: Redis, p: string, g: string): (r: Outcome)
    ensures r.db.tasks == db.tasks && r.db.queues == db.queues && r.db.inflight == db.inflight
            && r.db.results == db.results
  {
    var life := db.life;
    if p !in life.parents || life.parents[p].generation != g || !Terminal(life.parents[p].status) then Outcome(db, 0)
    else Outcome(db.(rosters := db.rosters - {(p, g)},
                     life := life.(parents := life.parents - {p}, parentResults := life.parentResults - {p},
                                   leases := life.leases - {p}, cancels := life.cancels - {Name.Parent(p)})), 1)
  }
}
