/** The shared admission guard, re-evaluated by every script that lets a task move
    towards execution. */
module Guard {
  import opened Coordination

  /** The fence of one workflow generation: the parent record still holds that
      generation, is not terminal, is not tombstoned, its lease still names the
      generation and its deadline has not passed. */
  predicate FenceOpen(life: Lifecycle, p: string, g: string) {
    && Name.Parent(p) !in life.tombstones
    && p in life.parents
    && life.parents[p].generation == g
    && !Terminal(life.parents[p].status)
    && p in life.leases && life.leases[p] == g
    && life.now < life.parents[p].deadline
  }

  /** workflow_allowed: no cancellation key exists and the workflow scope, if there is
      one, is open. */
  predicate Admits(life: Lifecycle, keys: set<Name>, scope: Option<Scope>) {
    && keys !! life.tombstones
    && (scope.Some? ==> FenceOpen(life, scope.value.parent, scope.value.generation) && life.now < scope.value.deadline)
  }

  predicate Admitted(db: Redis, t: Task) {
    Admits(db.life, t.cancelKeys, t.scope)
  }

  /** The short-lived cancel markers a dispatch script also checks: the task's own and,
      when its payload names a base task, that parent's. */
  predicate Marked(life: Lifecycle, id: string, base: Option<string>) {
    Name.Child(id) in life.cancels || (base.Some? && Name.Parent(base.value) in life.cancels)
  }
}
