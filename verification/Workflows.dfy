/** The life of a parent workflow over whole runs. */
module Workflows {
  import opened Coordination
  import opened Guard
  import opened TaskScripts
  import opened WorkflowScripts
  import opened Protocol
  import opened Fences
  import opened Conservation
  import opened Bookkeeping
  import opened Runs
  import opened Tokens

  /** In every reachable world the active index lists exactly the parents that have not
      ended, a lease names the current generation of such a parent, and two generations of
      one parent are never both open. */
  lemma EveryParentIsBookkept(es: seq<Event>, p: string, g: string, other: string)
    requires CanRun(START, es)
    ensures var life := After(START, es).db.life;
            && (p in life.active <==> p in life.parents && !Terminal(life.parents[p].status))
            && (p in life.leases ==>
                 p in life.parents && !Terminal(life.parents[p].status)
                 && life.leases[p] == life.parents[p].generation)
            && (FenceOpen(life, p, g) && FenceOpen(life, p, other) ==> g == other)
  {
    StartIsValid();
    RunsStayValid(START, es);
    hide Conserved, Enrolled, Ticketed, CanRun, After;
  }

  /** While a parent has not ended, a request with the same hash joins it and any other is
      refused; neither changes anything. A new generation starts exactly when the id is not
      cancelled and either unused or ended and explicitly replaced. */
  lemma AcceptJoinsOrRefuses(w: World, p: string, g: string, hash: string, timeout: real, force: bool)
    requires Bookkept(w.db.life, w.generations)
    ensures var o := Accept(w.db, p, g, hash, timeout, force, Planned(p, g));
            var life := w.db.life;
            && (Name.Parent(p) !in life.tombstones && p in life.active ==>
                  o.code == (if life.parents[p].requestHash == hash then 0 else -1))
            && (o.code == 1 <==>
                 Name.Parent(p) !in life.tombstones && p !in life.active && (p in life.parents ==> force))
            && (if o.code == 1
                then
                  && p in o.db.life.parents && (timeout > 0.0 ==> FenceOpen(o.db.life, p, g))
                  && o.db.life.parents[p] == ParentTask(g, Pending, hash, life.now + timeout, Planned(p, g))
                  && p !in o.db.life.parentResults && Name.Parent(p) !in o.db.life.cancels
                  && (forall x :: x != p && x in life.parents ==>
                       x in o.db.life.parents && o.db.life.parents[x] == life.parents[x])
                else o.db == w.db)
  {
  }

  lemma TombstoneStays(w: World, e: Event, n: Name)
    requires Enabled(w, e) && n in w.db.life.tombstones
    ensures n in Apply(w, e).db.life.tombstones
  {
    LifeAfterIsRight(w, e);
    hide Reply;
  }

  lemma {:induction false} TombstonesAreForever(w: World, es: seq<Event>, n: Name)
    requires CanRun(w, es) && n in w.db.life.tombstones
    ensures n in After(w, es).db.life.tombstones
    decreases |es|
  {
    hide Apply, Enabled;
    if es != [] {
      TombstoneStays(w, es[0], n);
      TombstonesAreForever(Apply(w, es[0]), es[1..], n);
    }
  }

  /** A cancelled id is never accepted again, and no task of that id, or with that base, is
      ever admitted again. */
  lemma CancelledForGood(w: World, cancel: Event, es: seq<Event>, g: string, hash: string, timeout: real, force: bool,
                         x: string, t: Task)
    requires cancel.CancelId? && CanRun(Apply(w, cancel), es)
    ensures var later := After(Apply(w, cancel), es);
            && Accept(later.db, cancel.id, g, hash, timeout, force, Planned(cancel.id, g)) == Outcome(later.db, -2)
            && (Keyed(x, t) && (x == cancel.id || t.data.base == Some(cancel.id)) ==> !Admitted(later.db, t))
  {
    hide CanRun, After;
    CancelCondemns(w, cancel);
    TombstonesAreForever(Apply(w, cancel), es, Name.Parent(cancel.id));
    TombstonesAreForever(Apply(w, cancel), es, Name.Child(cancel.id));
  }

  /** Cancelling an id reaches every stage of it, recorded or not, stored or not: no task
      that can be cancelled through the id, its stage aliases or its recorded children is
      ever admitted again. */
  lemma CancelReachesEveryStage(w: World, cancel: Event, es: seq<Event>, n: Name, t: Task)
    requires cancel.CancelId? && CanRun(Apply(w, cancel), es) && n in t.cancelKeys
    requires || n in {Name.Parent(cancel.id), Name.Child(cancel.id)}
             || n in {Name.Child(cancel.id + "_compile"), Name.Child(cancel.id + "_kernel"),
                      Name.Child(cancel.id + "_ref")}
             || (cancel.id in w.db.life.parents && exists c ::
                  c in w.db.life.parents[cancel.id].planned && n == Name.Child(c))
    ensures !Admitted(After(Apply(w, cancel), es).db, t)
  {
    hide CanRun, After;
    CancelMarks(w, cancel, n);
    TombstonesAreForever(Apply(w, cancel), es, n);
  }

  lemma CancelMarks(w: World, cancel: Event, n: Name)
    requires cancel.CancelId?
    requires || n in {Name.Parent(cancel.id), Name.Child(cancel.id)}
             || n in {Name.Child(cancel.id + "_compile"), Name.Child(cancel.id + "_kernel"),
                      Name.Child(cancel.id + "_ref")}
             || (cancel.id in w.db.life.parents && exists c ::
                  c in w.db.life.parents[cancel.id].planned && n == Name.Child(c))
    ensures n in Apply(w, cancel).db.life.tombstones
  {
    LifeAfterIsRight(w, cancel);
    hide Reply;
  }

  /** What a finish publishes, in record and result alike: the controller's own result under the
      request it was accepted for. Late, cancelled and unleased work gets the status and the
      message that say so, and the controller's status and verdict stand exactly behind an open
      fence. Lease, active entry and admission go with it. */
  lemma FinishPublishes(w: World, e: Event)
    requires Enabled(w, e) && e.FinishParent? && Reply(w, e).code == 1
    ensures var before, after := w.db.life, Apply(w, e).db.life;
            var p := e.parent;
            && p in before.parents && p in after.parents && p in after.parentResults
            && var late, cancelled := before.now >= before.parents[p].deadline, Name.Parent(p) in before.tombstones;
               var leased := p in before.leases && before.leases[p] == e.generation;
               var status, why := after.parents[p].status, after.parentResults[p].reason;
               && before.parents[p].generation == e.generation
               && after.parents[p] == before.parents[p].(status := status)
               && after.parentResults[p] ==
                  ParentResult(e.generation, status, before.parents[p].requestHash, e.body, why)
               && (late ==> status == TimedOut && why == "Workflow end-to-end deadline exceeded")
               && (!late && cancelled ==> status == Failed && why == "Task cancelled")
               && (!late && !cancelled && !leased && e.reason == "" ==>
                     status == Failed && why == "Workflow owner lease expired")
               && (!late && !cancelled && (leased || e.reason != "") ==> status == e.status && why == e.reason)
               && (why == "" <==> FenceOpen(before, p, e.generation) && e.reason == "")
               && Terminal(status) && p !in after.leases && p !in after.active && Name.Parent(p) in after.cancels
               && (forall x :: x != p && x in before.parents ==>
                    x in after.parents && after.parents[x] == before.parents[x])
  {
    LifeAfterIsRight(w, e);
    hide WithdrawAll, Finish;
    FinishNeedsActive(w, e);
  }

  /** The events that may take a parent's record or result away. */
  predicate RetiresParent(e: Event, p: string) {
    (e.ExpireParent? || e.ExpireParentResult? || e.DiscardFinished? || e.AcceptParent?) && e.parent == p
  }

  lemma {:induction false} EndedParentForGood(w: World, es: seq<Event>, p: string)
    requires CanRun(w, es) && forall i :: 0 <= i < |es| ==> !RetiresParent(es[i], p)
    requires p in w.db.life.parents && Terminal(w.db.life.parents[p].status) && p in w.db.life.parentResults
    ensures var life := After(w, es).db.life;
            && p in life.parents && life.parents[p] == w.db.life.parents[p]
            && p in life.parentResults && life.parentResults[p] == w.db.life.parentResults[p]
    decreases |es|
  {
    hide Apply, Enabled;
    if es != [] {
      assert !RetiresParent(es[0], p);
      TerminalParentIsFixed(w, es[0], p);
      forall i | 0 <= i < |es[1..]| ensures !RetiresParent(es[1..][i], p) { assert es[1..][i] == es[i + 1]; }
      EndedParentForGood(Apply(w, es[0]), es[1..], p);
    }
  }

  /** And that is final: through every run without a new accept, an expiry or a discard of the
      parent, readers find this very body under this status and request. */
  lemma PublishedForGood(w: World, e: Event, es: seq<Event>)
    requires Enabled(w, e) && e.FinishParent? && Reply(w, e).code == 1 && CanRun(Apply(w, e), es)
    requires forall i :: 0 <= i < |es| ==> !RetiresParent(es[i], e.parent)
    ensures var p, life := e.parent, After(Apply(w, e), es).db.life;
            && p in w.db.life.parents && p in life.parents && Terminal(life.parents[p].status)
            && p in life.parentResults
            && life.parentResults[p].body == e.body && life.parentResults[p].generation == e.generation
            && life.parentResults[p].requestHash == w.db.life.parents[p].requestHash
            && life.parentResults[p].status == life.parents[p].status
            && (FenceOpen(w.db.life, p, e.generation) ==>
                  life.parents[p].status == e.status && life.parentResults[p].reason == e.reason)
  {
    hide CanRun, After, Apply, Reply, Enabled, RetiresParent;
    FinishPublishes(w, e);
    EndedParentForGood(Apply(w, e), es, e.parent);
  }

  lemma FinishNeedsActive(w: World, e: Event)
    requires Enabled(w, e) && e.FinishParent? && Reply(w, e).code == 1
    ensures Finishable(w.db.life, e.parent, e.generation)
  {
    hide WithdrawAll;
  }

  lemma CancelCondemns(w: World, cancel: Event)
    requires cancel.CancelId?
    ensures {Name.Parent(cancel.id), Name.Child(cancel.id)} <= Apply(w, cancel).db.life.tombstones
  {
    LifeAfterIsRight(w, cancel);
    hide Reply;
  }
}
