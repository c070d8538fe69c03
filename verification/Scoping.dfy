/** The scheduler's side of a workflow: child ids carry the parent's generation, and every
    submission first looks whether the parent still lives. */
module Scoping {
  import opened Coordination
  import opened Guard
  import opened TaskScripts
  import opened WorkflowScripts
  import opened Protocol
  import opened Conservation
  import opened Fences
  import opened Bookkeeping
  import opened Runs
  import opened Tokens
  import opened Workflows
  import opened Fencing
  import Store

  /** What a controller knows of the invocation it works for. */
  datatype Workflow = Workflow(parent: string, generation: string, deadline: real)

  /** The id a controller asked for, told apart from the parent's own. */
  function Original(parent: string, asked: string): string {
    if asked == parent then parent + "_kernel" else asked
  }

  function ScopedId(parent: string, asked: string, g: string): string {
    Original(parent, asked) + "_" + g
  }

  function ScopedSubmission(wf: Workflow, asked: string, sub: Submission): Submission {
    sub.(data := sub.data.(base := Some(wf.parent)), source := Some(Original(wf.parent, asked)),
         scope := Some(Scope(wf.parent, wf.generation, wf.deadline)))
  }

  // ----- the ids

  /** Generations are identities of one fixed length, so a scoped id determines both its
      generation and the id it was built from. */
  lemma ScopedIdsAreUnique(parent: string, asked: string, g: string, parent': string, asked': string, g': string)
    requires |g| == |g'|
    ensures ScopedId(parent, asked, g) == ScopedId(parent', asked', g') <==>
              g == g' && Original(parent, asked) == Original(parent', asked')
  {
    var a, b := Original(parent, asked), Original(parent', asked');
    if a + "_" + g == b + "_" + g' {
      assert |a| == |b|;
      assert a == (a + "_" + g)[..|a|] && g == (a + "_" + g)[|a| + 1..];
      assert b == (b + "_" + g')[..|b|] && g' == (b + "_" + g')[|b| + 1..];
    }
  }

  /** The ids the controllers build for their compile, kernel and reference stages, and for
      the parent id itself, are exactly the ones accept has recorded. */
  lemma PlannedIdsAreScopedIds(p: string, g: string)
    ensures Planned(p, g) == [ScopedId(p, p + "_compile", g), ScopedId(p, p + "_kernel", g), ScopedId(p, p + "_ref", g)]
    ensures ScopedId(p, p, g) == Planned(p, g)[1]
  {
    assert (p + "_compile") + "_" == p + "_compile_" && (p + "_kernel") + "_" == p + "_kernel_" && (p + "_ref")
        + "_" == p + "_ref_";
    assert |p + "_compile"| != |p| && |p + "_kernel"| != |p| && |p + "_ref"| != |p|;
  }

  ghost predicate ScopedBy(id: string, g: string) {
    exists o :: id == o + "_" + g
  }

  lemma GenerationsDoNotMeet(x: string, g: string, y: string, g': string)
    requires |g| == |g'| && g != g' && ScopedBy(x, g) && ScopedBy(y, g')
    ensures x != y
  {
    var o :| x == o + "_" + g;
    var o' :| y == o' + "_" + g';
    assert x[|x| - |g|..] == g && y[|y| - |g'|..] == g';
  }

  /** An event about children of one generation only: a task event, a cancel or a discard of
      one of them, or a finish that lists none but them. */
  ghost predicate About(w: World, e: Event, g: string)
    requires Enabled(w, e)
  {
    || (SingleTask(e) && !OnLife(e) && ScopedBy(Subject(w, e), g))
    || ((e.CancelId? || e.DiscardChild?) && ScopedBy(e.id, g))
    || (e.FinishParent? && forall c :: c in e.order ==> ScopedBy(c, g))
  }

  /** However late it comes, such an event leaves the record, result, queue copies and entries
      of every other generation's children alone. */
  lemma OtherGenerationsAreOutOfReach(w: World, late: Event, g: string, y: string, g': string)
    requires Enabled(w, late) && About(w, late, g)
    requires ScopedBy(y, g') && |g| == |g'| && g != g'
    ensures SameSlot(w.db, Apply(w, late).db, y) && SameResult(w.db, Apply(w, late).db, y)
  {
    hide ScopedBy, Apply;
    if late.FinishParent? {
      if y in late.order { GenerationsDoNotMeet(y, g, y, g'); }
      FinishSpares(w, late, y);
    } else if late.CancelId? {
      GenerationsDoNotMeet(late.id, g, y, g');
      CancelSpares(w, late, y);
    } else if late.DiscardChild? {
      GenerationsDoNotMeet(late.id, g, y, g');
      DiscardSpares(w, late, y);
    } else {
      GenerationsDoNotMeet(Subject(w, late), g, y, g');
      OthersKeepTheirResult(w, late, y);
    }
  }

  lemma FinishSpares(w: World, e: Event, y: string)
    requires Enabled(w, e) && e.FinishParent? && y !in e.order
    ensures SameSlot(w.db, Apply(w, e).db, y) && SameResult(w.db, Apply(w, e).db, y)
  {
    hide WithdrawAll, Close, Copies, Entries;
    if Finishable(w.db.life, e.parent, e.generation) {
      WithdrawAllOthers(w.db.(life := Close(w.db.life, e.parent, e.generation, e.status, e.reason, e.body)), e.order,
                        y);
    }
  }

  lemma CancelSpares(w: World, e: Event, y: string)
    requires Enabled(w, e) && e.CancelId? && y != e.id
    ensures SameSlot(w.db, Apply(w, e).db, y) && SameResult(w.db, Apply(w, e).db, y)
  {
    hide Withdraw, Condemn, Copies, Entries;
    var d := w.db.(life := Condemn(w.db.life, e.id));
    assert SameSlot(d, Withdraw(d, e.id, CANCELLED), y);
  }

  lemma DiscardSpares(w: World, e: Event, y: string)
    requires Enabled(w, e) && e.DiscardChild? && y != e.id
    ensures SameSlot(w.db, Apply(w, e).db, y) && SameResult(w.db, Apply(w, e).db, y)
  {
    hide Copies, Entries;
  }

  /** The workflow scripts of a generation that is not the recorded one, or whose parent has no
      record any more, do nothing at all. */
  lemma LateControllersArePowerless(db: Redis, p: string, g: string, status: Status, reason: string, body: string,
                                    order: seq<string>,
                                    child: string, id: string, t: Task)
    requires p in db.life.parents ==> db.life.parents[p].generation != g
    ensures Finish(db, p, g, status, reason, body, order) == Outcome(db, 0)
    ensures Renew(db, p, g) == Outcome(db, 0)
    ensures DiscardParent(db, p, g) == Outcome(db, 0)
    ensures child in db.tasks && db.tasks[child].scope.Some? && db.tasks[child].scope.value.generation != g ==>
              DiscardTask(db, child, g) == Outcome(db, 0)
    ensures t.scope.Some? && t.scope.value.parent == p && t.scope.value.generation == g
            ==> Submit(db, id, t) == Outcome(db, -5)
  {
  }

  /** The parent's record, if there is one, is of another generation. */
  predicate Unrecorded(w: World, p: string, g: string) {
    g in w.generations && (p in w.db.life.parents ==> w.db.life.parents[p].generation != g)
  }

  lemma UnrecordedStays(w: World, e: Event, p: string, g: string)
    requires Enabled(w, e) && Unrecorded(w, p, g)
    ensures Unrecorded(Apply(w, e), p, g)
  {
    LifeAfterIsRight(w, e);
    GenerationsAfterIsRight(w, e);
    hide Apply, Reply, DiscardTask;
  }

  lemma {:induction false} UnrecordedForGood(w: World, es: seq<Event>, p: string, g: string)
    requires CanRun(w, es) && Unrecorded(w, p, g)
    ensures Unrecorded(After(w, es), p, g)
    decreases |es|
  {
    hide Apply, Enabled, Unrecorded;
    if es != [] {
      UnrecordedStays(w, es[0], p, g);
      UnrecordedForGood(Apply(w, es[0]), es[1..], p, g);
    }
  }

  /** Once a generation's record has been replaced or is gone, the generation never comes back:
      in every later run its finish, renewal, discard and submissions do nothing. */
  lemma ReplacedForGood(w: World, es: seq<Event>, p: string, g: string, status: Status, reason: string, body: string,
                        order: seq<string>, id: string, t: Task)
    requires CanRun(w, es) && Unrecorded(w, p, g)
    requires t.scope.Some? && t.scope.value.parent == p && t.scope.value.generation == g
    ensures var db := After(w, es).db;
            && Finish(db, p, g, status, reason, body, order) == Outcome(db, 0)
            && Renew(db, p, g) == Outcome(db, 0) && DiscardParent(db, p, g) == Outcome(db, 0)
            && Submit(db, id, t) == Outcome(db, -5) && !Admitted(db, t)
  {
    hide CanRun, After, Finish, Renew, DiscardParent, Submit;
    UnrecordedForGood(w, es, p, g);
    LateControllersArePowerless(After(w, es).db, p, g, status, reason, body, order, "", id, t);
  }

  /** What the scheduler submits is anchored in its own workflow and can be cancelled
      through its id, its alias and its parent. */
  lemma ScopedTasksAreAnchored(wf: Workflow, asked: string, sub: Submission)
    ensures var id := ScopedId(wf.parent, asked, wf.generation);
            var t := NewTask(id, ScopedSubmission(wf, asked, sub));
            && Anchored(t) && Keyed(id, t)
            && Name.Child(Original(wf.parent, asked)) in t.cancelKeys
            && t.scope == Some(Scope(wf.parent, wf.generation, wf.deadline)) && t.data.base == Some(wf.parent)
            && t.data.(base := sub.data.base) == sub.data && t.assignee == sub.assignee
            && t.submittedAt == sub.submittedAt
  {
  }

  // ----- reconciliation

  /** Why a child makes its parent stop: it is cancelled, frozen, or on a quarantined worker. */
  function ChildReason(db: Redis, child: string, quarantined: set<Worker>): string {
    if Name.Child(child) in db.life.tombstones
       || (child in db.tasks && !(db.tasks[child].cancelKeys !! db.life.tombstones))
    then "Child task " + child + " cancelled"
    else if child !in db.tasks then ""
    else
      var t := db.tasks[child];
      var holder := if t.claim.Some? then Some(t.claim.value.worker) else t.assignee;
      if t.claim.Some? && t.claim.value.recovery.Frozen? then "Infrastructure failure: child " + child + " frozen"
      else if !Terminal(t.status) && holder.Some? && holder.value in quarantined then
        "Infrastructure failure: child " + child + " worker " + holder.value.name + " quarantined"
      else ""
  }

  predicate Stops(db: Redis, child: string, quarantined: set<Worker>) {
    ChildReason(db, child, quarantined) != ""
  }

  /** A child stops its parent exactly if it is tombstoned, itself or through a name it can be
      cancelled by, or contained, or not ended and held by, or while unheld assigned to, a
      quarantined worker. */
  lemma StopsMeans(db: Redis, child: string, quarantined: set<Worker>)
    ensures Stops(db, child, quarantined) <==>
              || Name.Child(child) in db.life.tombstones
              || (child in db.tasks
                  && var t := db.tasks[child];
                     || (exists n :: n in t.cancelKeys && n in db.life.tombstones)
                     || (exists c :: t.claim == Some(c) && c.recovery == Frozen)
                     || (t.status in {Pending, Processing}
                         && exists v :: v in quarantined
                                        && ((t.claim.Some? && t.claim.value.worker == v)
                                            || (t.claim.None? && t.assignee == Some(v)))))
  {
  }

  /** What cancels or contains a child at any time stops its parent at every later look, while the
      containment lasts. */
  lemma CancelledChildStops(w: World, cancel: Event, es: seq<Event>, quarantined: set<Worker>)
    requires cancel.CancelId? && CanRun(Apply(w, cancel), es)
    ensures Stops(After(Apply(w, cancel), es).db, cancel.id, quarantined)
  {
    hide CanRun, After, Apply;
    CancelCondemns(w, cancel);
    TombstonesAreForever(Apply(w, cancel), es, Name.Child(cancel.id));
    StopsMeans(After(Apply(w, cancel), es).db, cancel.id, quarantined);
  }

  lemma FrozenChildStops(w: World, es: seq<Event>, id: string, token: string, quarantined: set<Worker>)
    requires FencesMarked(w) && CanRun(w, es) && FrozenBy(w.db, id, token) && !ThawedIn(es, id, token)
    ensures Stops(After(w, es).db, id, quarantined)
  {
    hide CanRun, After, Stops;
    FrozenUntilThawed(w, es, id, token);
    StopsMeans(After(w, es).db, id, quarantined);
  }

  /** The parent may go on. */
  predicate Healthy(db: Redis, p: string, children: seq<string>, quarantined: set<Worker>) {
    && p in db.life.parents && FenceOpen(db.life, p, db.life.parents[p].generation)
    && forall i :: 0 <= i < |children| ==> !Stops(db, children[i], quarantined)
  }

  method ReasonToStop(store: Store.Store, p: string, children: seq<string>, quarantined: set<Worker>)
      returns (reason: string)
    requires p in store.life.parents && !Terminal(store.life.parents[p].status)
    ensures reason == "" <==> Healthy(store.Value(), p, children, quarantined)
    ensures var life := store.life;
            var late, leased := life.now >= life.parents[p].deadline,
                                p in life.leases && life.leases[p] == life.parents[p].generation;
            && (late ==> reason == "Workflow end-to-end deadline exceeded")
            && (!late && !leased ==> reason == "Workflow owner lease expired")
            && (!late && leased && Name.Parent(p) in life.tombstones ==> reason == "Task cancelled")
            && (reason != "" && FenceOpen(life, p, life.parents[p].generation) ==>
                  exists i :: 0 <= i < |children| && reason == ChildReason(store.Value(), children[i], quarantined))
  {
    hide ChildReason;
    if store.life.now >= store.life.parents[p].deadline { return LATE; }
    if p !in store.life.leases || store.life.leases[p] != store.life.parents[p].generation { return UNLEASED; }
    if Name.Parent(p) in store.life.tombstones { return CANCELLED; }
    for i := 0 to |children|
      invariant forall j :: 0 <= j < i ==> !Stops(store.Value(), children[j], quarantined)
    {
      reason := ChildReason(store.Value(), children[i], quarantined);
      if reason != "" { return; }
    }
    return "";
  }

  function RecordOf(db: Redis, p: string): Option<ParentTask> {
    if p in db.life.parents then Some(db.life.parents[p]) else None
  }

  predicate Active(db: Redis, p: string) {
    p in db.life.parents && !Terminal(db.life.parents[p].status)
  }

  /** reconcile: an active parent that may not go on is finished, on whatever keyspace `mid` the
      finish then meets; anything else is left alone. A record that comes back active stood
      behind an open fence, or is of a later generation. */
  method Reconcile(store: Store.Store, p: string, children: seq<string>, quarantined: set<Worker>, body: string,
                   order: seq<string>)
    returns (record: Option<ParentTask>, ghost mid: Redis)
    modifies store
    ensures var db := old(store.Value());
            if !Active(db, p) || Healthy(db, p, children, quarantined)
            then store.Value() == db
            else
              exists reason :: reason != ""
                               && store.Value() ==
                                  Finish(mid, p, db.life.parents[p].generation, Failed, reason, body, order).db
    ensures record == RecordOf(store.Value(), p)
    ensures record.Some? && !Terminal(record.value.status) ==>
              || (Healthy(old(store.Value()), p, children, quarantined) && store.Value() == old(store.Value()))
              || record.value.generation != old(store.Value()).life.parents[p].generation
  {
    hide WithdrawAll, Finish, Healthy;
    mid := store.Value();
    if p !in store.life.parents { return None, mid; }
    if Terminal(store.life.parents[p].status) { return Some(store.life.parents[p]), mid; }
    var g := store.life.parents[p].generation;
    var reason := ReasonToStop(store, p, children, quarantined);
    if reason != "" {
      store.Wait();
      mid := store.Value();
      var _ := store.FinishParent(p, g, Failed, reason, body, order);
      FinishEnds(mid, p, g, Failed, reason, body, order);
    }
    record := if p in store.life.parents then Some(store.life.parents[p]) else None;
  }

  /** After a finish its generation is not active. */
  lemma FinishEnds(db: Redis, p: string, g: string, status: Status, reason: string, body: string, order: seq<string>)
    requires Terminal(status)
    ensures var d := Finish(db, p, g, status, reason, body, order).db;
            Active(d, p) ==> d.life.parents[p].generation != g
  {
    if Finishable(db.life, p, g) {
      WithdrawAllKeepsLife(db.(life := Close(db.life, p, g, status, reason, body)), order);
    }
    hide WithdrawAll;
  }

  /** submit for a workflow child: None when the parent was found stopped, else the id and the
      script's reply on whatever keyspace `last` the script then meets. */
  method SubmitChild(store: Store.Store, wf: Workflow, asked: string, sub: Submission, children: seq<string>,
                     quarantined: set<Worker>, body: string, order: seq<string>)
    returns (id: string, code: Option<int>, ghost last: Redis)
    modifies store
    ensures id == ScopedId(wf.parent, asked, wf.generation)
    ensures code.Some? ==>
              && Outcome(store.Value(), code.value) == Submit(last, id, NewTask(id, ScopedSubmission(wf, asked, sub)))
              && var record := RecordOf(old(store.Value()), wf.parent);
                 record.Some?
                 && (record.value.generation == wf.generation ==>
                       FenceOpen(old(store.Value()).life, wf.parent, wf.generation))
    ensures old(Healthy(store.Value(), wf.parent, children, quarantined)) ==>
              (code.Some? <==> old(FenceOpen(store.life, wf.parent, wf.generation)))
  {
    id := ScopedId(wf.parent, asked, wf.generation);
    ghost var mid;
    var record;
    record, mid := Reconcile(store, wf.parent, children, quarantined, body, order);
    last := store.Value();
    if record.None? || record.value.generation != wf.generation || Terminal(record.value.status) {
      return id, None, last;
    }
    store.Wait();
    last := store.Value();
    var reply := store.SubmitTask(id, NewTask(id, ScopedSubmission(wf, asked, sub)));
    return id, Some(reply), last;
  }

  // ----- what may come in between

  /** Reconciliation reads first and finishes later. A generation whose fence it found shut has
      it shut whenever the finish comes, so a late finish ends nothing that could still go on;
      and if the generation has ended or been replaced by then, it changes nothing. */
  lemma ReconcileMayBeLate(w: World, es: seq<Event>, p: string, g: string, reason: string, body: string,
                           order: seq<string>)
    requires Valid(w) && CanRun(w, es) && g in w.generations && !FenceOpen(w.db.life, p, g)
    ensures var later := After(w, es);
            var o := Finish(later.db, p, g, Failed, reason, body, order);
            && !FenceOpen(later.db.life, p, g)
            && (o.code == 1 <==> Finishable(later.db.life, p, g))
            && (o.code != 1 ==> o.db == later.db)
  {
    hide CanRun, After, Valid, FenceOpen, WithdrawAll, Close;
    if FenceOpen(After(w, es).db.life, p, g) { OpenNowOpenBefore(w, es, p, g); }
  }

  /** A submission checks the parent first and runs its script later. The script creates the
      child only if the fence is open then, and so was open at the check and ever since. */
  lemma SubmissionIsGuardedThroughout(w: World, es: seq<Event>, wf: Workflow, asked: string, sub: Submission)
    requires Valid(w) && CanRun(w, es) && wf.generation in w.generations
    ensures var later := After(w, es);
            var id := ScopedId(wf.parent, asked, wf.generation);
            var o := Submit(later.db, id, NewTask(id, ScopedSubmission(wf, asked, sub)));
            && (o.code == 1 ==>
                 FenceOpen(later.db.life, wf.parent, wf.generation) && FenceOpen(w.db.life, wf.parent, wf.generation))
            && (o.code != 1 ==> o.db == later.db)
  {
    hide CanRun, After, Valid, FenceOpen, ScopedId, Copies, Purge, Push;
    if FenceOpen(After(w, es).db.life, wf.parent, wf.generation) { OpenNowOpenBefore(w, es, wf.parent, wf.generation); }
  }
}
