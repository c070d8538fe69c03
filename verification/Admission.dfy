/** What decides about a request and about its tasks, told by what has happened: the hash a parent
    was accepted for, and exactly which events, and how much time, close the way of its children. */
module Admission {
  import opened Coordination
  import opened Guard
  import opened TaskScripts
  import opened WorkflowScripts
  import opened Protocol
  import opened Fences
  import opened Conservation
  import opened Bookkeeping
  import opened Runs

  // ----- who joins

  /** While the parent's record is of this generation it carries what the accept was called
      with. */
  predicate Carries(life: Lifecycle, p: string, g: string, hash: string, deadline: real, planned: seq<string>) {
    p in life.parents && life.parents[p].generation == g ==>
      life.parents[p].requestHash == hash && life.parents[p].deadline == deadline && life.parents[p].planned == planned
  }

  /** A new generation starts pending, with this request and deadline, with the lease and
      without a result, a marker of its own, or any other change. */
  lemma AcceptStarts(w: World, e: Event)
    requires Enabled(w, e) && e.AcceptParent? && Reply(w, e).code == 1
    ensures var p, before, after := e.parent, w.db.life, Apply(w, e).db.life;
            && p in after.parents && after.parents[p].status == Pending && after.parents[p].generation == e.generation
            && after.parents[p].requestHash == e.hash && after.parents[p].deadline == before.now + e.timeout
            && after.parents[p].planned == [p + "_compile_" + e.generation, p + "_kernel_" + e.generation,
                                            p + "_ref_" + e.generation]
            && p in after.leases && after.leases[p] == e.generation && p in after.active
            && p !in after.parentResults && Name.Parent(p) !in after.cancels
            && after.tombstones == before.tombstones && after.now == before.now
            && (forall x :: x != p ==>
                  && (x in after.parents <==> x in before.parents) && (x in after.leases <==> x in before.leases)
                  && (x in before.parents ==> after.parents[x] == before.parents[x])
                  && (x in before.leases ==> after.leases[x] == before.leases[x]))
    ensures e.generation in Apply(w, e).generations
    ensures var db := Apply(w, e).db; db.(life := w.db.life) == w.db
  {
    LifeAfterIsRight(w, e);
    ApplyKeepsReply(w, e);
    hide Finish, Cancel, Submit, Mark;
  }

  lemma CarriesStays(w: World, e: Event, p: string, g: string, hash: string, deadline: real, planned: seq<string>)
    requires Enabled(w, e) && g in w.generations && Carries(w.db.life, p, g, hash, deadline, planned)
    ensures Carries(Apply(w, e).db.life, p, g, hash, deadline, planned) && g in Apply(w, e).generations
  {
    LifeAfterIsRight(w, e);
    GenerationsAfterIsRight(w, e);
    hide Apply, Reply, DiscardTask, FinalStatus, FinalReason, FenceOpen;
  }

  lemma {:induction false} CarriesForGood(w: World, es: seq<Event>, p: string, g: string, hash: string, deadline: real,
                                          planned: seq<string>)
    requires CanRun(w, es) && g in w.generations && Carries(w.db.life, p, g, hash, deadline, planned)
    ensures Carries(After(w, es).db.life, p, g, hash, deadline, planned)
    decreases |es|
  {
    hide Apply, Enabled, Carries;
    if es != [] {
      CarriesStays(w, es[0], p, g, hash, deadline, planned);
      CarriesForGood(Apply(w, es[0]), es[1..], p, g, hash, deadline, planned);
    }
  }

  /** Idempotence by request: after a request was accepted, and while its generation is the
      recorded one, a later request for the id, in any world of any run, joins if it is the
      same one and is refused if it is another. Once the generation has ended, the same request
      is answered from the result while that exists, and only an explicit replacement starts a
      new generation. None but that last one changes anything. */
  lemma OnlyTheSameRequestJoins(w: World, e: Event, es: seq<Event>, next: Event)
    requires Enabled(w, e) && e.AcceptParent? && Reply(w, e).code == 1 && CanRun(Apply(w, e), es)
    requires var later := After(Apply(w, e), es);
             && Enabled(later, next) && next.AcceptParent? && next.parent == e.parent
             && e.parent in later.db.life.parents && later.db.life.parents[e.parent].generation == e.generation
    ensures var later := After(Apply(w, e), es);
            var p, life := e.parent, later.db.life;
            && life.parents[p].requestHash == e.hash && life.parents[p].deadline == w.db.life.now + e.timeout
            && Reply(later, next).code ==
               (if Name.Parent(p) in life.tombstones then -2
                else if life.parents[p].status in {Pending, Processing} then if next.hash == e.hash then 0 else -1
                else if next.force then 1
                else if next.hash == e.hash && p in life.parentResults then 0 else -1)
            && (Reply(later, next).code != 1 ==> Reply(later, next).db == later.db)
  {
    hide CanRun, After, Apply, Reply;
    AcceptStarts(w, e);
    var p, g := e.parent, e.generation;
    var planned := [p + "_compile_" + g, p + "_kernel_" + g, p + "_ref_" + g];
    CarriesForGood(Apply(w, e), es, p, g, e.hash, w.db.life.now + e.timeout, planned);
    AcceptRuns(After(Apply(w, e), es), next);
  }

  lemma AcceptRuns(w: World, e: Event)
    requires Enabled(w, e) && e.AcceptParent?
    ensures Reply(w, e) == Accept(w.db, e.parent, e.generation, e.hash, e.timeout, e.force,
                                  Planned(e.parent, e.generation))
  {
    hide Accept;
  }

  /** A renewal succeeds exactly behind an open fence, leaves it open, and makes the parent a
      running one and nothing else. */
  lemma RenewalSucceedsIff(w: World, e: Event)
    requires Enabled(w, e) && e.RenewLease?
    ensures var p, before, after := e.parent, w.db.life, Apply(w, e).db.life;
            && (Reply(w, e).code == 1 <==> FenceOpen(before, p, e.generation))
            && (Reply(w, e).code == 1 ==>
                  && FenceOpen(after, p, e.generation)
                  && after == before.(parents := before.parents[p := before.parents[p].(status := Processing)]))
            && Apply(w, e) == w.(db := w.db.(life := after))
            && (Reply(w, e).code != 1 ==> after == before)
  {
    ApplyKeepsReply(w, e);
  }

  // ----- how long a generation is open

  /** The events that end or fence a generation whose fence is open. */
  predicate Closes(e: Event, p: string, g: string) {
    || (e.CancelId? && e.id == p) || (e.ExpireLease? && e.parent == p)
    || (e.FinishParent? && e.parent == p && e.generation == g)
  }

  function Elapsed(es: seq<Event>): real {
    if es == [] then 0.0 else (if es[0].Tick? then es[0].elapsed else 0.0) + Elapsed(es[1..])
  }

  lemma OpenStep(w: World, e: Event, p: string, g: string)
    requires Enabled(w, e) && FenceOpen(w.db.life, p, g)
    ensures var life := LifeAfter(w, e);
            && life.now == w.db.life.now + Elapsed([e])
            && (FenceOpen(life, p, g) <==>
                  !Closes(e, p, g) && w.db.life.now + Elapsed([e]) < w.db.life.parents[p].deadline)
            && (FenceOpen(life, p, g) ==> life.parents[p].deadline == w.db.life.parents[p].deadline)
  {
    assert [e][1..] == [];
    hide LifeAfter, Enabled, FenceOpen, Closes;
    if e.AcceptParent? || e.RenewLease? { OwnerStep(w, e, p, g); }
    else if e.FinishParent? || e.CancelId? { ClosingStep(w, e, p, g); }
    else { PassingStep(w, e, p, g); }
  }

  lemma OwnerStep(w: World, e: Event, p: string, g: string)
    requires Enabled(w, e) && FenceOpen(w.db.life, p, g)
    requires e.AcceptParent? || e.RenewLease?
    ensures var life := LifeAfter(w, e);
            life.now == w.db.life.now && FenceOpen(life, p, g) && !Closes(e, p, g)
            && w.db.life.now < w.db.life.parents[p].deadline
            && life.parents[p].deadline == w.db.life.parents[p].deadline
  {
  }

  lemma ClosingStep(w: World, e: Event, p: string, g: string)
    requires Enabled(w, e) && FenceOpen(w.db.life, p, g)
    requires e.FinishParent? || e.CancelId?
    ensures var life := LifeAfter(w, e);
            && life.now == w.db.life.now && w.db.life.now < w.db.life.parents[p].deadline
            && (FenceOpen(life, p, g) <==> !Closes(e, p, g))
            && (FenceOpen(life, p, g) ==> life.parents[p].deadline == w.db.life.parents[p].deadline)
  {
    if e.CancelId? { CancelStep(w, e, p); }
    hide Condemn;
  }

  lemma CancelStep(w: World, e: Event, p: string)
    requires Enabled(w, e) && e.CancelId?
    ensures var life, after := w.db.life, LifeAfter(w, e);
            && after.parents == life.parents && after.leases == life.leases && after.now == life.now
            && (Name.Parent(p) in after.tombstones <==> Name.Parent(p) in life.tombstones || e.id == p)
  {
  }

  lemma PassingStep(w: World, e: Event, p: string, g: string)
    requires Enabled(w, e) && FenceOpen(w.db.life, p, g)
    requires !e.AcceptParent? && !e.RenewLease? && !e.FinishParent? && !e.CancelId?
    ensures var life := LifeAfter(w, e);
            && life.now == w.db.life.now + (if e.Tick? then e.elapsed else 0.0)
            && (FenceOpen(life, p, g) <==> !Closes(e, p, g) && life.now < w.db.life.parents[p].deadline)
            && (FenceOpen(life, p, g) ==> life.parents[p].deadline == w.db.life.parents[p].deadline)
  {
    hide DiscardTask;
  }

  lemma {:induction false} ElapsedGrows(w: World, es: seq<Event>)
    requires CanRun(w, es)
    ensures Elapsed(es) >= 0.0
    decreases |es|
  {
    hide Apply;
    if es != [] { ElapsedGrows(Apply(w, es[0]), es[1..]); }
  }

  lemma {:induction false} ClockFollows(w: World, es: seq<Event>)
    requires CanRun(w, es)
    ensures After(w, es).db.life.now == w.db.life.now + Elapsed(es)
    decreases |es|
  {
    if es != [] {
      ClockStep(w, es[0]);
      hide Apply, Enabled;
      ClockFollows(Apply(w, es[0]), es[1..]);
    }
  }

  lemma ClockStep(w: World, e: Event)
    requires Enabled(w, e)
    ensures Apply(w, e).db.life.now == w.db.life.now + if e.Tick? then e.elapsed else 0.0
  {
    LifeAfterIsRight(w, e);
    hide Apply, Reply, DiscardTask;
  }

  /** A generation's life, exactly: from an open fence on, through any run, the fence is open
      until one of three things has happened (the id was cancelled, the lease ran out, the
      generation was finished) or the time to its deadline has elapsed, and not a moment longer or
      shorter. */
  lemma {:induction false} OpenExactlyUntil(w: World, es: seq<Event>, p: string, g: string)
    requires Valid(w) && CanRun(w, es) && g in w.generations && FenceOpen(w.db.life, p, g)
    ensures FenceOpen(After(w, es).db.life, p, g) <==>
              && (forall i :: 0 <= i < |es| ==> !Closes(es[i], p, g))
              && w.db.life.now + Elapsed(es) < w.db.life.parents[p].deadline
    decreases |es|
  {
    if es != [] {
      var w' := Apply(w, es[0]);
      hide FenceOpen, Reply, Bookkept, Closes;
      ElapsedGrows(w', es[1..]);
      ValidStays(w, es[0]);
      LifeAfterIsRight(w, es[0]);
      GenerationsAfterIsRight(w, es[0]);
      OpenStep(w, es[0], p, g);
      assert [es[0]][1..] == [];
      hide Valid, Apply, Enabled;
      if FenceOpen(w'.db.life, p, g) {
        OpenExactlyUntil(w', es[1..], p, g);
        NoneCloses(es, p, g);
      } else {
        if FenceOpen(After(w', es[1..]).db.life, p, g) { OpenNowOpenBefore(w', es[1..], p, g); assert false; }
      }
    } else {
      assert FenceOpen(w.db.life, p, g) ==> w.db.life.now < w.db.life.parents[p].deadline;
    }
  }

  lemma NoneCloses(es: seq<Event>, p: string, g: string)
    requires es != []
    ensures (forall i :: 0 <= i < |es| ==> !Closes(es[i], p, g)) <==>
            !Closes(es[0], p, g) && forall i :: 0 <= i < |es[1..]| ==> !Closes(es[1..][i], p, g)
  {
    if !Closes(es[0], p, g) && forall i :: 0 <= i < |es[1..]| ==> !Closes(es[1..][i], p, g) {
      forall i | 0 <= i < |es| ensures !Closes(es[i], p, g) {
        if i > 0 { assert es[i] == es[1..][i - 1]; }
      }
    } else if Closes(es[0], p, g) {
    } else {
      var i :| 0 <= i < |es[1..]| && Closes(es[1..][i], p, g);
      assert es[i + 1] == es[1..][i];
    }
  }

  /** A request with a positive time limit is open when it is accepted. */
  lemma AcceptedIsOpen(w: World, e: Event)
    requires Valid(w) && Enabled(w, e) && e.AcceptParent? && Reply(w, e).code == 1
    ensures FenceOpen(Apply(w, e).db.life, e.parent, e.generation) <==> e.timeout > 0.0
  {
    hide Apply, Reply, Enabled, Valid;
    AcceptStarts(w, e);
    UntombstonedAccept(w, e);
  }

  lemma UntombstonedAccept(w: World, e: Event)
    requires Enabled(w, e) && e.AcceptParent? && Reply(w, e).code == 1
    ensures Name.Parent(e.parent) !in w.db.life.tombstones
  {
    hide Open;
  }

  // ----- how far a cancellation reaches

  /** The names a cancellation of the id reaches in a world where these parents are recorded. */
  predicate Reaches(parents: map<string, ParentTask>, id: string, n: Name) {
    || n == Name.Parent(id) || n == Name.Child(id)
    || n == Name.Child(id + "_compile") || n == Name.Child(id + "_kernel") || n == Name.Child(id + "_ref")
    || (id in parents && n.Child? && n.text in parents[id].planned)
  }

  lemma CancelReachesExactly(w: World, e: Event, n: Name)
    requires Enabled(w, e)
    ensures n in Apply(w, e).db.life.tombstones <==>
              n in w.db.life.tombstones || (e.CancelId? && Reaches(w.db.life.parents, e.id, n))
    ensures e.CancelId? && (n in {Name.Parent(e.id), Name.Child(e.id)}
                            || (e.id in w.db.life.parents && n.Child? && n.text in w.db.life.parents[e.id].planned))
            ==> n in Apply(w, e).db.life.cancels
  {
    LifeAfterIsRight(w, e);
    hide Apply, Reply, DiscardTask, Open, Close, FenceOpen;
  }

  /** A parent is only fenced by its cancellation: records, leases and every task stay as they are
      until its controller finishes it. */
  lemma CancelOnlyFencesParents(w: World, e: Event)
    requires Enabled(w, e) && e.CancelId? && e.id in w.db.life.parents
    ensures var d := Apply(w, e).db;
            && d.life.parents == w.db.life.parents && d.life.leases == w.db.life.leases
            && d.life.active == w.db.life.active && d.life.parentResults == w.db.life.parentResults
            && d == w.db.(life := d.life)
  {
    CancelRuns(w, e);
    hide Apply, Reply, Enabled;
  }

  /** Some step of the run cancels an id through which this name is reached. */
  ghost predicate GetsCancelled(w: World, es: seq<Event>, n: Name)
    requires CanRun(w, es)
    decreases |es|
  {
    es != []
    && ((es[0].CancelId? && Reaches(w.db.life.parents, es[0].id, n)) || GetsCancelled(Apply(w, es[0]), es[1..], n))
  }

  lemma {:induction false} TombstonesExactly(w: World, es: seq<Event>, n: Name)
    requires CanRun(w, es)
    ensures n in After(w, es).db.life.tombstones <==> n in w.db.life.tombstones || GetsCancelled(w, es, n)
    decreases |es|
  {
    hide Apply, Enabled, Reaches;
    if es != [] {
      CancelReachesExactly(w, es[0], n);
      TombstonesExactly(Apply(w, es[0]), es[1..], n);
    }
  }

  /** And so for a task, by the design's own words: it is admitted exactly while nothing that
      cancels it has happened, its workflow has not been cancelled, finished or left without a
      lease, and neither its parent's deadline nor its own has passed. */
  lemma AdmittedExactlyUntil(w: World, es: seq<Event>, t: Task)
    requires Valid(w) && CanRun(w, es) && Admitted(w.db, t)
    requires t.scope.Some? ==> t.scope.value.generation in w.generations
    ensures Admitted(After(w, es).db, t) <==>
              && (forall n :: n in t.cancelKeys ==> !GetsCancelled(w, es, n))
              && (t.scope.Some? ==>
                    var s := t.scope.value;
                    && (forall i :: 0 <= i < |es| ==> !Closes(es[i], s.parent, s.generation))
                    && w.db.life.now + Elapsed(es) < w.db.life.parents[s.parent].deadline
                    && w.db.life.now + Elapsed(es) < s.deadline)
  {
    hide CanRun, After, FenceOpen, Closes, GetsCancelled, Valid;
    if t.scope.Some? { OpenExactlyUntil(w, es, t.scope.value.parent, t.scope.value.generation); }
    ClockFollows(w, es);
    forall n | n in t.cancelKeys
      ensures n in After(w, es).db.life.tombstones <==> GetsCancelled(w, es, n)
    {
      TombstonesExactly(w, es, n);
    }
  }

  /** Standalone tasks are admitted unless cancelled, and a scoped one at once behind a fresh
      accept: the guard refuses nobody else. */
  lemma FreshWorkIsAdmitted(w: World, e: Event, t: Task)
    requires Valid(w) && Enabled(w, e) && e.AcceptParent? && Reply(w, e).code == 1
    requires t.cancelKeys !! w.db.life.tombstones
    requires t.scope.Some? ==>
               var s := t.scope.value;
               s.parent == e.parent && s.generation == e.generation && e.timeout > 0.0 && w.db.life.now < s.deadline
    ensures Admitted(Apply(w, e).db, t)
  {
    hide Apply, Reply, Valid, FenceOpen;
    AcceptedIsOpen(w, e);
    AcceptStarts(w, e);
  }
}
