/** What the workflow fence does not cover: exactly the tasks that name a base task without
    being scoped by it can be forsaken with nothing standing in their way. */
module Stranding {
  import opened Coordination
  import opened Guard
  import opened TaskScripts
  import opened WorkflowScripts
  import opened Protocol
  import opened Fences
  import opened Conservation
  import opened Bookkeeping
  import opened Phases
  import opened Runs

  // ----- five events, each on any world that allows it

  lemma AcceptStep(w: World, b: string, g: string, force: bool)
    requires g !in w.generations && AcceptReply(w.db.life, b, "", force) == 1
    ensures var e := AcceptParent(b, g, "", 1.0, force);
            && Enabled(w, e)
            && Apply(w, e) == w.(db := w.db.(life := Open(w.db.life, b, g, "", 1.0, Planned(b, g))),
                                 generations := w.generations[g := b])
  {
    hide Open, AcceptReply, Planned;
  }

  lemma FinishStep(w: World, b: string, g: string)
    requires Finishable(w.db.life, b, g) && Roster(w.db, (b, g)) == {}
    ensures var e := FinishParent(b, g, Completed, "", "", []);
            && Enabled(w, e)
            && Apply(w, e) == w.(db := w.db.(life := Close(w.db.life, b, g, Completed, "", "")))
  {
    hide Close;
    assert (set c | c in []) == Roster(w.db, (b, g));
  }

  /** The world after the only id of a queue was claimed. */
  function ClaimedWorld(w: World, id: string, k: Queue, v: Worker, token: string): World
    requires id in w.db.tasks && Listed(w.db.queues, k) != []
  {
    w.(db := Take(w.db.(queues := Pop(w.db.queues, k).0), id, k, v, "", token),
       claims := w.claims[token := Info(id, v, "", k, w.db.tasks[id].data.base)])
  }

  lemma ClaimStep(w: World, id: string, k: Queue, v: Worker, token: string)
    requires Listed(w.db.queues, k) == [id] && Claimable(w.db, id) && token !in w.claims
    ensures var e := ClaimTask(token, v, "", k, 1);
            && Enabled(w, e)
            && Apply(w, e) == ClaimedWorld(w, id, k, v, token)
  {
    hide Take, Copies, Admits;
    var (qs, got) := Pop(w.db.queues, k);
    QueuesDoNotDecide(w.db, qs);
    assert got == id;
  }

  lemma MarkStep(w: World, id: string, v: Worker, k: Queue, token: string)
    requires token in w.claims && token !in w.dispatched && Current(w.db, id, token) && w.db.tasks[id].status.Pending?
    requires w.claims[token] == Info(id, v, "", k, w.db.tasks[id].data.base)
    requires Marked(w.db.life, id, w.db.tasks[id].data.base)
    ensures var e := MarkProcessing(token);
            && Enabled(w, e)
            && Apply(w, e) == w.(db := Surrender(w.db, id, v, token), dispatched := w.dispatched + {token})
  {
    hide Surrender, Forget, Marked, Admits;
  }

  // ----- a waiting task whose base is free

  /** The task waits alone in its home queue; its base is nobody's workflow and no cancel
      marker is about. */
  ghost predicate Ripe(w: World, id: string, b: string) {
    && id in w.db.tasks
    && var t := w.db.tasks[id];
       && t.status.Pending? && t.claim.None? && t.data.base == Some(b) && !Anchored(t) && Keyed(id, t)
       && Admitted(w.db, t)
       && Listed(w.db.queues, Home(t)) == [id] && OneCopy(w.db.queues, id, Home(t)) && NoEntries(w.db.inflight, id)
       && b !in w.db.life.parents && b !in w.db.life.leases && w.db.life.cancels == {}
  }

  /** A change of one parent's records leaves the guard of a task that is not scoped by that
      parent as it is. */
  lemma GuardElsewhere(a: Lifecycle, b: Lifecycle, p: string, keys: set<Name>, scope: Option<Scope>)
    requires b.tombstones == a.tombstones && b.now == a.now
    requires forall x :: x != p ==>
              (x in b.parents <==> x in a.parents) && (x in a.parents ==> b.parents[x] == a.parents[x])
    requires forall x :: x != p ==> (x in b.leases <==> x in a.leases) && (x in a.leases ==> b.leases[x] == a.leases[x])
    requires scope.Some? ==> scope.value.parent != p
    ensures Admits(b, keys, scope) == Admits(a, keys, scope)
  {
  }

  lemma OpenElsewhere(life: Lifecycle, p: string, g: string, keys: set<Name>, scope: Option<Scope>)
    requires scope.Some? ==> scope.value.parent != p
    ensures Admits(Open(life, p, g, "", 1.0, Planned(p, g)), keys, scope) == Admits(life, keys, scope)
  {
    hide Admits;
    GuardElsewhere(life, Open(life, p, g, "", 1.0, Planned(p, g)), p, keys, scope);
  }

  lemma CloseElsewhere(life: Lifecycle, p: string, g: string, keys: set<Name>, scope: Option<Scope>)
    requires p in life.parents
    requires scope.Some? ==> scope.value.parent != p
    ensures Admits(Close(life, p, g, Completed, "", ""), keys, scope) == Admits(life, keys, scope)
  {
    hide Admits, FinalStatus;
    GuardElsewhere(life, Close(life, p, g, Completed, "", ""), p, keys, scope);
  }

  const HOLDER := Worker("", true)

  function Started(w: World, b: string, g: string): World {
    w.(db := w.db.(life := Open(w.db.life, b, g, "", 1.0, Planned(b, g))), generations := w.generations[g := b])
  }

  /** The base has been run as a workflow and has ended: its marker is left behind. */
  function Marker(w: World, b: string, g: string): World {
    var s := Started(w, b, g);
    s.(db := s.db.(life := Close(s.db.life, b, g, Completed, "", "")))
  }

  lemma BaseRuns(w: World, id: string, b: string, g: string)
    requires Ripe(w, id, b) && g !in w.generations && Roster(w.db, (b, g)) == {}
    ensures var es := [AcceptParent(b, g, "", 1.0, false), FinishParent(b, g, Completed, "", "", [])];
            CanRun(w, es) && After(w, es) == Marker(w, b, g)
    ensures var w2 := Marker(w, b, g);
            && w2.db.(life := w.db.life) == w.db
            && Admitted(w2.db, w.db.tasks[id]) && Marked(w2.db.life, id, Some(b))
            && b in w2.db.life.parents && Terminal(w2.db.life.parents[b].status)
               && w2.db.life.cancels == {Name.Parent(b)}
            && Name.Parent(b) !in w2.db.life.tombstones
  {
    hide Apply, Enabled, Admits, NoEntries, OneCopy;
    var t := w.db.tasks[id];
    assert Name.Parent(b) !in w.db.life.tombstones by { AdmittedKeys(w.db, t, Name.Parent(b)); }
    AcceptStep(w, b, g, false);
    FinishStep(Started(w, b, g), b, g);
    OpenElsewhere(w.db.life, b, g, t.cancelKeys, t.scope);
    CloseElsewhere(Started(w, b, g).db.life, b, g, t.cancelKeys, t.scope);
    Unroll(Started(w, b, g), FinishParent(b, g, Completed, "", "", []), []);
    Unroll(w, AcceptParent(b, g, "", 1.0, false), [FinishParent(b, g, Completed, "", "", [])]);
  }

  lemma AdmittedKeys(db: Redis, t: Task, n: Name)
    requires Admitted(db, t) && n in t.cancelKeys
    ensures n !in db.life.tombstones
  {
  }

  lemma Unroll(w: World, e: Event, es: seq<Event>)
    requires Enabled(w, e) && CanRun(Apply(w, e), es)
    ensures CanRun(w, [e] + es) && After(w, [e] + es) == After(Apply(w, e), es)
  {
    hide Enabled, Apply;
    assert ([e] + es)[1..] == es;
  }

  // ----- the claim that meets the marker, and the accept that removes it

  /** The task waits while the marker of its ended base is still there. */
  ghost predicate Met(w: World, id: string, b: string) {
    && id in w.db.tasks
    && var t := w.db.tasks[id];
       && t.status.Pending? && t.claim.None? && t.data.base == Some(b) && !Anchored(t) && Keyed(id, t)
       && Admitted(w.db, t)
       && Listed(w.db.queues, Home(t)) == [id] && OneCopy(w.db.queues, id, Home(t)) && NoEntries(w.db.inflight, id)
       && b in w.db.life.parents && Terminal(w.db.life.parents[b].status)
       && w.db.life.cancels == {Name.Parent(b)} && Name.Parent(b) !in w.db.life.tombstones
  }

  function Forsaken(w: World, id: string, token: string): World
    requires id in w.db.tasks && Listed(w.db.queues, Home(w.db.tasks[id])) != []
  {
    var c := ClaimedWorld(w, id, Home(w.db.tasks[id]), HOLDER, token);
    c.(db := Surrender(c.db, id, HOLDER, token), dispatched := c.dispatched + {token})
  }

  lemma MeetsTheMarker(w: World, id: string, b: string, token: string)
    requires Met(w, id, b) && token !in w.claims && token !in w.dispatched
    ensures var es := [ClaimTask(token, HOLDER, "", Home(w.db.tasks[id]), 1), MarkProcessing(token)];
            CanRun(w, es) && After(w, es) == Forsaken(w, id, token)
  {
    hide Apply, Enabled, Admits, NoEntries, OneCopy, Take;
    var k := Home(w.db.tasks[id]);
    var c := ClaimedWorld(w, id, k, HOLDER, token);
    ClaimStep(w, id, k, HOLDER, token);
    TakenRecord(w.db, id, k, HOLDER, token);
    MarkStep(c, id, HOLDER, k, token);
    Unroll(c, MarkProcessing(token), []);
    Unroll(w, ClaimTask(token, HOLDER, "", k, 1), [MarkProcessing(token)]);
  }

  lemma TakenRecord(db: Redis, id: string, k: Queue, v: Worker, token: string)
    requires id in db.tasks && Listed(db.queues, k) != []
    ensures var d := Take(db.(queues := Pop(db.queues, k).0), id, k, v, "", token);
            && d.life == db.life && id in d.tasks
               && d.tasks[id] == db.tasks[id].(claim := Some(Claim(token, v, "", k, Unfenced)))
  {
  }

  /** Nothing is left but the record itself, as it was submitted. */
  lemma ForsakenIsNowhere(w: World, id: string, b: string, token: string)
    requires Met(w, id, b)
    ensures var f := Forsaken(w, id, token);
            && f.db.tasks == w.db.tasks && f.db.life == w.db.life && f.loose == w.loose
               && f.generations == w.generations
            && NoCopies(f.db.queues, id) && NoEntries(f.db.inflight, id)
  {
    hide Admits, Copies, Entries;
    var t := w.db.tasks[id];
    var f := Forsaken(w, id, token);
    assert Unclaim(t.(claim := Some(Claim(token, HOLDER, "", Home(t), Unfenced)))) == t;
    assert f.db.tasks == w.db.tasks;
  }

  lemma MarkerGoes(w: World, id: string, b: string, g: string)
    requires id in w.db.tasks && w.db.tasks[id].claim.None? && !Terminal(w.db.tasks[id].status)
    requires var t := w.db.tasks[id]; t.data.base == Some(b) && !Anchored(t) && Keyed(id, t) && Admitted(w.db, t)
    requires NoCopies(w.db.queues, id) && NoEntries(w.db.inflight, id)
    requires b in w.db.life.parents && Terminal(w.db.life.parents[b].status)
    requires w.db.life.cancels == {Name.Parent(b)} && Name.Parent(b) !in w.db.life.tombstones && g !in w.generations
    ensures var e := AcceptParent(b, g, "", 1.0, true);
            && CanRun(w, [e])
            && var d := After(w, [e]);
               && d.db.tasks == w.db.tasks && d.loose == w.loose
               && Lost(d, id) && !CancelSeen(d.db.life, id, Some(b))
  {
    hide Apply, Enabled, Admits, NoEntries, NoCopies;
    var t := w.db.tasks[id];
    AdmittedKeys(w.db, t, Name.Child(id));
    AcceptStep(w, b, g, true);
    OpenElsewhere(w.db.life, b, g, t.cancelKeys, t.scope);
    Unroll(w, AcceptParent(b, g, "", 1.0, true), []);
    assert [AcceptParent(b, g, "", 1.0, true)] + [] == [AcceptParent(b, g, "", 1.0, true)];
  }

  lemma {:induction false} RunsJoin(w: World, a: seq<Event>, b: seq<Event>)
    requires CanRun(w, a) && CanRun(After(w, a), b)
    ensures CanRun(w, a + b) && After(w, a + b) == After(After(w, a), b)
    decreases |a|
  {
    hide Apply, Enabled;
    if a == [] {
      assert a + b == b;
    } else {
      assert (a + b)[1..] == a[1..] + b && (a + b)[0] == a[0];
      RunsJoin(Apply(w, a[0]), a[1..], b);
    }
  }

  ghost predicate Forsakes(w: World, d: World, id: string, b: string) {
    d.db.tasks == w.db.tasks && d.loose == w.loose && Lost(d, id) && !CancelSeen(d.db.life, id, Some(b))
  }

  /** From any world in which such a task waits, five events forsake it. */
  lemma RipeIsForsaken(w: World, id: string, b: string, g: string, g': string, token: string)
    requires Ripe(w, id, b) && Roster(w.db, (b, g)) == {}
    requires g !in w.generations && g' !in w.generations && g != g' && token !in w.claims && token !in w.dispatched
    ensures exists es :: CanRun(w, es) && Forsakes(w, After(w, es), id, b)
  {
    hide Apply, Enabled, Admits, NoEntries, OneCopy, NoCopies, CanRun, After, Lost, CancelSeen, Anchored, Marked,
        Surrender, Take, Close, Open;
    var a := [AcceptParent(b, g, "", 1.0, false), FinishParent(b, g, Completed, "", "", [])];
    BaseRuns(w, id, b, g);
    var w2 := Marker(w, b, g);
    assert Met(w2, id, b);
    var c := [ClaimTask(token, HOLDER, "", Home(w2.db.tasks[id]), 1), MarkProcessing(token)];
    MeetsTheMarker(w2, id, b, token);
    ForsakenIsNowhere(w2, id, b, token);
    var w4 := Forsaken(w2, id, token);
    var d := [AcceptParent(b, g', "", 1.0, true)];
    MarkerGoes(w4, id, b, g');
    RunsJoin(w2, c, d);
    RunsJoin(w, a, c + d);
    assert After(w, a + (c + d)) == After(w4, d);
  }

  // ----- from the empty keyspace

  /** A task with this submission's record, as it was submitted, is stranded in some
      reachable world: pending, in no queue, in no hands, admitted, and not cancelled. */
  ghost predicate CanBeStranded(id: string, sub: Submission) {
    exists es :: CanRun(START, es) && StrandedAs(After(START, es), id, NewTask(id, sub))
  }

  ghost predicate StrandedAs(w: World, id: string, t: Task) {
    && id !in w.loose && id in w.db.tasks && w.db.tasks[id] == t
    && Lost(w, id) && !CancelSeen(w.db.life, id, t.data.base)
  }

  function Submitted(w: World, id: string, sub: Submission): World {
    w.(db := Submit(w.db, id, NewTask(id, sub)).db)
  }

  /** An empty keyspace, but for one parent that may just have been accepted. */
  predicate Clear(w: World) {
    w.db.tasks == map[] && w.db.queues == map[] && w.db.inflight == map[] && w.db.rosters == map[]
    && w.db.life.cancels == {} && w.db.life.tombstones == {} && w.claims == map[] && w.dispatched == {} && w.loose == {}
  }

  lemma SubmitStep(w: World, id: string, sub: Submission, b: string)
    requires Clear(w) && sub.data.base == Some(b) && !Anchored(NewTask(id, sub)) && Admitted(w.db, NewTask(id, sub))
    requires b !in w.db.life.parents && b !in w.db.life.leases
    ensures CanRun(w, [SubmitTask(id, sub)]) && After(w, [SubmitTask(id, sub)]) == Submitted(w, id, sub)
    ensures var s := Submitted(w, id, sub);
            && Ripe(s, id, b) && id in s.db.tasks && s.db.tasks[id] == NewTask(id, sub)
            && s.claims == map[] && s.dispatched == {} && s.loose == {} && s.generations == w.generations
            && (forall g :: sub.scope.None? || sub.scope.value.parent != b ==> Roster(s.db, (b, g)) == {})
  {
    hide Admits, Entries, Home, CanRun, After;
    var t := NewTask(id, sub);
    NothingQueued(id);
    SubmitSlot(w.db, id, t);
    OnlyOne(w.db.queues, id, Home(t));
    OneEvent(w, SubmitTask(id, sub));
  }

  lemma OneEvent(w: World, e: Event)
    requires Enabled(w, e)
    ensures CanRun(w, [e]) && After(w, [e]) == Apply(w, e)
  {
    hide Apply, Enabled;
    Unroll(w, e, []);
    assert [e] + [] == [e];
  }

  lemma NothingQueued(id: string)
    ensures NoCopies(map[], id) && NoEntries(map[], id)
  {
  }

  lemma OnlyOne(qs: Queues, id: string, k: Queue)
    requires qs == map[]
    ensures Listed(Push(Purge(qs, k, id), k, id), k) == [id]
  {
    assert Listed(Purge(qs, k, id), k) == [];
  }

  /** Where the submission is first admitted: at once, or once its workflow was accepted. */
  function Scene(scope: Option<Scope>): World {
    if scope.None? then START else Started(START, scope.value.parent, scope.value.generation)
  }

  lemma SceneIsReached(scope: Option<Scope>)
    ensures exists es :: CanRun(START, es) && After(START, es) == Scene(scope)
    ensures Clear(Scene(scope))
  {
    if scope.None? {
      assert CanRun(START, []) && After(START, []) == START;
    } else {
      AcceptStep(START, scope.value.parent, scope.value.generation, false);
      hide Apply, Enabled;
      OneEvent(START, AcceptParent(scope.value.parent, scope.value.generation, "", 1.0, false));
    }
  }

  lemma SceneAdmits(id: string, sub: Submission, b: string)
    requires sub.data.base == Some(b) && !Anchored(NewTask(id, sub))
    requires sub.scope.Some? ==> sub.scope.value.deadline > 0.0
    ensures var w := Scene(sub.scope);
            && Admitted(w.db, NewTask(id, sub)) && b !in w.db.life.parents && b !in w.db.life.leases
            && (forall g :: g in w.generations ==> sub.scope.Some? && g == sub.scope.value.generation)
  {
  }

  lemma UnanchoredNamesABase(id: string, sub: Submission)
    ensures NewTask(id, sub).data == sub.data && NewTask(id, sub).scope == sub.scope
    ensures !Anchored(NewTask(id, sub)) ==>
              sub.data.base.Some? && (sub.scope.Some? ==> sub.scope.value.parent != sub.data.base.value)
  {
  }

  /** Every submission that names a base without being scoped by it, and that can be admitted
      at all, can be stranded. */
  lemma UnanchoredCanBeStranded(id: string, sub: Submission)
    requires !Anchored(NewTask(id, sub)) && (sub.scope.Some? ==> sub.scope.value.deadline > 0.0)
    ensures CanBeStranded(id, sub)
  {
    hide Apply, Enabled, Admits, CanRun, After, Lost, CancelSeen, Ripe, NewTask, Scene, Submitted, Anchored;
    UnanchoredNamesABase(id, sub);
    var b := sub.data.base.value;
    SceneIsReached(sub.scope);
    SceneAdmits(id, sub, b);
    var w := Scene(sub.scope);
    var first :| CanRun(START, first) && After(START, first) == w;
    SubmitStep(w, id, sub, b);
    var s := Submitted(w, id, sub);
    var g := if sub.scope.Some? then sub.scope.value.generation else "";
    assert g + "a" != g && g + "b" != g && (g + "a")[|g|] == 'a' && (g + "b")[|g|] == 'b';
    RipeIsForsaken(s, id, b, g + "a", g + "b", "");
    var last :| CanRun(s, last) && Forsakes(s, After(s, last), id, b);
    RunsJoin(w, [SubmitTask(id, sub)], last);
    RunsJoin(START, first, [SubmitTask(id, sub)] + last);
    assert StrandedAs(After(START, first + ([SubmitTask(id, sub)] + last)), id, NewTask(id, sub));
  }

  // ----- and no other task can

  lemma {:induction false} ClockRuns(w: World, es: seq<Event>)
    requires CanRun(w, es)
    ensures w.db.life.now <= After(w, es).db.life.now
    decreases |es|
  {
    if es != [] {
      hide Reply, DiscardTask;
      LifeAfterIsRight(w, es[0]);
      hide Apply, Enabled;
      ClockRuns(Apply(w, es[0]), es[1..]);
    }
  }

  lemma AnchoredIsNeverStranded(es: seq<Event>, id: string, t: Task)
    requires CanRun(START, es) && StrandedAs(After(START, es), id, t) && t.status.Pending?
    ensures !Anchored(t) && (t.scope.Some? ==> t.scope.value.deadline > 0.0)
  {
    hide CanRun, After, WasShut, Entries, Copies, OneCopy, OneEntry;
    EveryTaskInOnePlace(es, id);
    ClockRuns(START, es);
  }

  /** The exact condition, over all ids and all submissions: a task can be stranded if and only
      if it names a base task it is not scoped by, and can be admitted at all. */
  lemma StrandedIffUnanchored(id: string, sub: Submission)
    ensures CanBeStranded(id, sub) <==>
              !Anchored(NewTask(id, sub)) && (sub.scope.Some? ==> sub.scope.value.deadline > 0.0)
  {
    hide CanRun, After, StrandedAs, Anchored;
    var t := NewTask(id, sub);
    assert t.status.Pending? && t.scope == sub.scope;
    if CanBeStranded(id, sub) {
      var es :| CanRun(START, es) && StrandedAs(After(START, es), id, NewTask(id, sub));
      AnchoredIsNeverStranded(es, id, t);
    }
    if !Anchored(t) && (sub.scope.Some? ==> sub.scope.value.deadline > 0.0) {
      UnanchoredCanBeStranded(id, sub);
    }
  }
}
