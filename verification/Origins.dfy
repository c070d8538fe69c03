/** Where latch records come from. Event ids are random and never used twice, so every record
    of one event names one GPU; and callers report an outcome for the GPU of their record. From
    an empty store these two facts make every outcome update aimed and every alias legible, so
    clears are final and pages stay sent without further provisos. */
module Origins {
  import opened Coordination
  import opened Quarantine
  import opened Latch
  import opened Clearing
  import opened Delivery

  /** The GPU that each event id was issued for. */
  type Registry = map<string, Device>

  /** A whole record of an issued event, naming that event's GPU. */
  predicate Rooted(r: Record, origin: Registry) {
    && r.eventId != "" && r.eventId in origin && Known(origin[r.eventId])
    && Device(r.hostname, r.index) == origin[r.eventId]
    && (r.scope.Physical? || r.scope.WorkerProcess?)
  }

  predicate RootedAt(r: Record, g: Device, origin: Registry) {
    Rooted(r, origin) && IsFor(r, g)
  }

  ghost predicate RootedReplica(x: Replica, origin: Registry) {
    && (forall g :: g in x.devices ==> RootedAt(x.devices[g], g, origin))
    && (forall w :: w in x.workers ==> Rooted(x.workers[w], origin))
  }

  predicate RootedPut(p: Put, origin: Registry) {
    match p
    case SetDevice(_, g, r) => RootedAt(r, g, origin)
    case SetWorker(_, _, r) => Rooted(r, origin)
    case Drop(_, _, _) => true
  }

  predicate RootedPuts(ps: seq<Put>, origin: Registry) {
    forall i :: 0 <= i < |ps| ==> RootedPut(ps[i], origin)
  }

  predicate RootedStage(stage: Stage, g: Device, origin: Registry) {
    match stage
    case Looking(dd, dw, _) =>
      (dd.Some? ==> RootedAt(dd.value, g, origin)) && (dw.Some? ==> Rooted(dw.value, origin))
    case Writing(pending, claim) => RootedPuts(pending, origin) && (claim.Some? ==> Rooted(claim.value, origin))
  }

  /** Every record anywhere, stored or about to be written, is rooted. */
  ghost predicate Traced(w: World, origin: Registry) {
    && RootedReplica(w.latches.disk, origin) && RootedReplica(w.latches.mirror, origin)
    && (forall g :: g in w.sections ==> RootedStage(w.sections[g].stage, g, origin))
  }

  /** A quarantine write draws a new event id. */
  predicate Fresh(s: Step, origin: Registry) {
    s.Begin? && s.op.Write? ==> s.op.latch.eventId != "" && s.op.latch.eventId !in origin
  }

  /** An outcome is reported under the GPU that its event was issued for. */
  predicate OwnGpu(s: Step, origin: Registry) {
    s.Begin? && s.op.Update? && s.op.expected.Event? && s.op.expected.id in origin ==> origin[s.op.expected.id] == s.g
  }

  function Issued(origin: Registry, s: Step): Registry {
    if s.Begin? && s.op.Write? then origin[s.op.latch.eventId := s.g] else origin
  }

  // ----- an invariant of every run

  lemma PathsRooted(side: Side, r: Record, w: string, origin: Registry)
    requires Rooted(r, origin)
    ensures RootedPuts(Paths(side, r, w), origin)
  {
  }

  lemma JoinedRooted(a: seq<Put>, b: seq<Put>, origin: Registry)
    requires RootedPuts(a, origin) && RootedPuts(b, origin)
    ensures RootedPuts(a + b, origin)
  {
  }

  lemma RepairedRooted(r: Option<Record>, w: string, g: Device, origin: Registry)
    requires r.Some? ==> Rooted(r.value, origin)
    ensures var x := Repaired(r, w, g); x.Some? ==> Rooted(x.value, origin)
    ensures var x := Constrained(Repaired(r, w, g), g); x.Some? ==> Rooted(x.value, origin)
  {
  }

  lemma KeyedRooted(r: Option<Record>, g: Device, origin: Registry)
    requires r.Some? ==> RootedAt(r.value, g, origin)
    ensures Keyed(r, g) == r
  {
  }

  ghost predicate RootedSources(s: Sources, g: Device, origin: Registry) {
    && (s.diskDevice.Some? ==> RootedAt(s.diskDevice.value, g, origin))
    && (s.redisDevice.Some? ==> RootedAt(s.redisDevice.value, g, origin))
    && (s.diskWorker.Some? ==> Rooted(s.diskWorker.value, origin))
    && (s.redisWorker.Some? ==> Rooted(s.redisWorker.value, origin))
  }

  lemma MergedRooted(s: Sources, w: string, g: Device, origin: Registry)
    requires RootedSources(s, g, origin)
    ensures Merged(s, w, g).Some? ==> Rooted(Merged(s, w, g).value, origin)
  {
    KeyedRooted(s.diskDevice, g, origin);
    KeyedRooted(s.redisDevice, g, origin);
    RepairedRooted(s.diskDevice, w, g, origin);
    RepairedRooted(s.diskWorker, w, g, origin);
    RepairedRooted(s.redisDevice, w, g, origin);
    RepairedRooted(s.redisWorker, w, g, origin);
    var rs := Ordered(s, w, g);
    assert forall r :: r in rs && r.Some? ==> Rooted(r.value, origin);
    hide Ordered;
    StrongestIsOneOfThem(rs);
  }

  lemma ReadPlanRooted(s: Sources, w: string, g: Device, origin: Registry)
    requires Known(g) && RootedSources(s, g, origin)
    ensures RootedPuts(ReadPlan(s, w, g), origin)
  {
    MergedRooted(s, w, g, origin);
    PhysicalIffSomeSourceIs(s, w, g);
    hide Merged, Ready, Repaired, Impersonates;
    var merged := Merged(s, w, g);
    if merged.Some? { PathsRooted(Disk, merged.value, w, origin); }
  }

  lemma OpenedRooted(l: Latches, g: Device, op: Op, origin: Registry)
    requires RootedReplica(l.disk, origin) && Known(g) && Proper(g, op)
    requires op.Write? ==> op.latch.eventId != "" && op.latch.eventId !in origin
    ensures RootedStage(Opened(l, g, op), g, Issued(origin, Begin(g, op)))
  {
    hide Paths;
    var dd, dw := Lookup(l.disk.devices, g), Lookup(l.disk.workers, op.worker);
    KeyedRooted(dd, g, origin);
    if op.Write? {
      var now := Issued(origin, Begin(g, op));
      var r := Preserved(dd, dw, op.worker, g, op.latch);
      assert Rooted(r, now);
      PathsRooted(Disk, r, op.worker, now);
      PathsRooted(Mirror, r, op.worker, now);
      JoinedRooted(Paths(Disk, r, op.worker), Paths(Mirror, r, op.worker), now);
    } else if op.Update? {
      var t := Target(dd, dw, g, op.scope, op.expected);
      if t.Some? {
        var settles := !t.value.page.state.Sent? || op.state.Sent?;
        var r := if settles then t.value.(page := Page(op.state, op.note)) else t.value;
        PathsRooted(Disk, r, op.worker, origin);
        PathsRooted(Mirror, r, op.worker, origin);
        JoinedRooted(Paths(Disk, r, op.worker), Paths(Mirror, r, op.worker), origin);
      }
    } else if op.Claim? {
      var r := Deliverable(dd, dw, g, op.scope, op.input, op.note);
      if r.Some? { PathsRooted(Disk, r.value, op.worker, origin); }
    }
  }

  lemma LookedRooted(l: Latches, g: Device, x: Section, origin: Registry)
    requires RootedReplica(l.mirror, origin) && Known(g) && RootedStage(x.stage, g, origin)
    requires x.stage.Looking? && (x.op.Read? || x.op.Clear?)
    ensures RootedStage(Looked(l, g, x.op, x.stage), g, origin)
  {
    if x.op.Read? {
      var s := Sources(x.stage.dd, x.stage.dw, Lookup(l.mirror.devices, g), Lookup(l.mirror.workers, x.op.worker));
      ReadPlanRooted(s, x.op.worker, g, origin);
      hide ReadPlan;
    }
  }

  lemma StoreRooted(l: Latches, p: Put, origin: Registry)
    requires RootedReplica(l.disk, origin) && RootedReplica(l.mirror, origin) && RootedPut(p, origin)
    ensures RootedReplica(Done(l, p).disk, origin) && RootedReplica(Done(l, p).mirror, origin)
  {
    hide Rooted, RootedAt;
  }

  /** Issuing one more event leaves rooted what is. */
  lemma IssueKeeps(w: World, s: Step, origin: Registry)
    requires Traced(w, origin) && Fresh(s, origin)
    ensures Traced(w, Issued(origin, s))
  {
    hide IsFor;
    var now := Issued(origin, s);
    forall r | Rooted(r, origin) ensures Rooted(r, now) {}
  }

  lemma TracedStays(w: World, s: Step, origin: Registry)
    requires Steady(w) && Traced(w, origin) && Enabled(w, s) && Fresh(s, origin)
    ensures Traced(Apply(w, s), Issued(origin, s))
  {
    IssueKeeps(w, s, origin);
    hide Opened, Looked, Done, FinishPlan, RootedReplica, Rooted, RootedPut, Fits, PutFits;
    match s
    case Begin(g, op) => BeginsRooted(w, g, op, origin);
    case Look(g) =>
      assert SectionFits(w.sections[g], g);
      LookedRooted(w.latches, g, w.sections[g], origin);
    case Store(g) =>
      assert RootedStage(w.sections[g].stage, g, origin);
      StoreRooted(w.latches, w.sections[g].stage.pending[0], origin);
    case Finish(g, state, note) =>
      FinishRooted(w.sections[g].stage.claim.value, w.sections[g].op.worker, state, note, origin);
    case Release(_) =>
    case LoseMirror => NothingIsRooted(origin);
  }

  lemma BeginsRooted(w: World, g: Device, op: Op, origin: Registry)
    requires Traced(w, origin) && Enabled(w, Begin(g, op)) && Fresh(Begin(g, op), origin)
    ensures RootedStage(Opened(w.latches, g, op), g, Issued(origin, Begin(g, op)))
  {
    OpenedRooted(w.latches, g, op, origin);
  }

  lemma FinishRooted(r: Record, w: string, state: PageState, note: string, origin: Registry)
    requires Rooted(r, origin)
    ensures RootedPuts(FinishPlan(r, w, state, note), origin)
  {
    PathsRooted(Disk, r.(page := Page(state, note)), w, origin);
  }

  lemma NothingIsRooted(origin: Registry)
    ensures RootedReplica(Replica(map[], map[]), origin)
  {
  }

  // ----- what it gives

  /** An outcome reported under its own GPU is aimed. */
  lemma OwnGpuIsAimed(w: World, s: Step, origin: Registry)
    requires Traced(w, origin) && OwnGpu(s, origin)
    ensures AimedStep(w, s)
  {
  }

  /** A clear overlooks no rooted alias. */
  lemma RootedIsLegible(l: Latches, g: Device, onDisk: set<string>, inMirror: set<string>, origin: Registry)
    requires RootedReplica(l.disk, origin) && RootedReplica(l.mirror, origin)
    ensures Legible(l, g, onDisk, inMirror)
  {
  }

  // ----- over runs

  /** A run of honest callers: new event ids, outcomes under their own GPU. */
  ghost predicate Honest(w: World, ss: seq<Step>, origin: Registry)
    requires CanRun(w, ss)
    decreases |ss|
  {
    ss != [] ==>
      Fresh(ss[0], origin) && OwnGpu(ss[0], origin) && Honest(Apply(w, ss[0]), ss[1..], Issued(origin, ss[0]))
  }

  function IssuedAll(origin: Registry, ss: seq<Step>): Registry
    decreases |ss|
  {
    if ss == [] then origin else IssuedAll(Issued(origin, ss[0]), ss[1..])
  }

  lemma OneHonestStep(w: World, s: Step, origin: Registry)
    requires Steady(w) && Traced(w, origin) && Enabled(w, s) && Fresh(s, origin) && OwnGpu(s, origin)
    ensures AimedStep(w, s) && Steady(Apply(w, s)) && Traced(Apply(w, s), Issued(origin, s))
  {
    hide Steady, Traced, Apply, AimedStep;
    OwnGpuIsAimed(w, s, origin);
    SteadyStays(w, s);
    TracedStays(w, s, origin);
  }

  lemma {:induction false} HonestRunsAreTraced(w: World, ss: seq<Step>, origin: Registry)
    requires Steady(w) && Traced(w, origin) && CanRun(w, ss) && Honest(w, ss, origin)
    ensures Steady(After(w, ss)) && Traced(After(w, ss), IssuedAll(origin, ss))
    decreases |ss|
  {
    hide Steady, Traced, Apply, Enabled, Fresh, OwnGpu;
    if ss != [] {
      OneHonestStep(w, ss[0], origin);
      HonestRunsAreTraced(Apply(w, ss[0]), ss[1..], Issued(origin, ss[0]));
    }
  }

  predicate NoWrite(ss: seq<Step>, g: Device) {
    forall i :: 0 <= i < |ss| ==> !(ss[i].Begin? && ss[i].g == g && ss[i].op.Write?)
  }

  predicate NoClear(ss: seq<Step>, g: Device) {
    forall i :: 0 <= i < |ss| ==> !(ss[i].Begin? && ss[i].g == g && ss[i].op.Clear?)
  }

  predicate NoRelease(ss: seq<Step>, g: Device) {
    forall i :: 0 <= i < |ss| ==> ss[i] != Release(g)
  }

  lemma {:induction false} HonestIsAimed(w: World, ss: seq<Step>, origin: Registry, g: Device)
    requires Steady(w) && Traced(w, origin) && CanRun(w, ss) && Honest(w, ss, origin)
    ensures NoWrite(ss, g) ==> Undisturbed(w, ss, g)
    ensures NoClear(ss, g) ==> Uncleared(w, ss, g)
    ensures NoRelease(ss, g) ==> Unbroken(w, ss, g)
    decreases |ss|
  {
    hide Steady, Traced, Apply, Enabled, Fresh, OwnGpu, AimedStep;
    if ss != [] {
      OneHonestStep(w, ss[0], origin);
      HonestIsAimed(Apply(w, ss[0]), ss[1..], Issued(origin, ss[0]), g);
    }
  }

  const EMPTY_SITE := World(Latches(Replica(map[], map[]), Replica(map[], map[])), map[])

  lemma EmptySite()
    ensures Steady(EMPTY_SITE) && Traced(EMPTY_SITE, map[])
  {
  }

  /** A clear is final, with no proviso but honest callers: from an empty store, after any run, a
      clear of any GPU among any other sections leaves the GPU clean once it is done, and clean
      it stays until a quarantine write is started for it. */
  lemma HonestClearIsFinal(ss: seq<Step>, g: Device, worker: string, names: set<string>, during: seq<Step>,
                           after: seq<Step>)
    requires CanRun(EMPTY_SITE, ss) && Enabled(After(EMPTY_SITE, ss), Begin(g, Clear(worker, names)))
    requires var w1 := Apply(After(EMPTY_SITE, ss), Begin(g, Clear(worker, names)));
             CanRun(w1, during) && NoRelease(during, g) && Cleared(After(w1, during), g)
    requires var w2 := After(Apply(After(EMPTY_SITE, ss), Begin(g, Clear(worker, names))), during);
             CanRun(w2, after) && NoWrite(after, g)
    requires Honest(EMPTY_SITE, ss, map[])
    requires var w1 := Apply(After(EMPTY_SITE, ss), Begin(g, Clear(worker, names)));
             && Honest(w1, during, IssuedAll(map[], ss))
             && Honest(After(w1, during), after, IssuedAll(IssuedAll(map[], ss), during))
    ensures var w2 := After(Apply(After(EMPTY_SITE, ss), Begin(g, Clear(worker, names))), during);
            Clean(w2.latches, g) && Clean(After(w2, after).latches, g)
  {
    var w := After(EMPTY_SITE, ss);
    var clear := Begin(g, Clear(worker, names));
    var origin := IssuedAll(map[], ss);
    EmptySite();
    HonestRunsAreTraced(EMPTY_SITE, ss, map[]);
    assert Fresh(clear, origin) && OwnGpu(clear, origin) && Issued(origin, clear) == origin;
    RootedIsLegible(w.latches, g, {worker}, {worker} + names + MirrorAliases(w.latches, g), origin);
    hide CanRun, After, Honest, Traced, Steady, Legible, Clean, Undisturbed, Unbroken, Enabled, Apply, NoWrite;
    hide NoRelease, Cleared, EMPTY_SITE;
    OneHonestStep(w, clear, origin);
    var w1 := Apply(w, clear);
    HonestIsAimed(w1, during, origin, g);
    HonestRunsAreTraced(w1, during, origin);
    HonestIsAimed(After(w1, during), after, IssuedAll(origin, during), g);
    ClearIsFinal(w, g, worker, names, during, after);
  }

  /** Recorded as sent, sent for good, with no proviso but honest callers. */
  lemma HonestSentForGood(ss: seq<Step>, later: seq<Step>, g: Device, id: Identity, worker: string, scope: Extent,
                          input: Identity, note: string)
    requires CanRun(EMPTY_SITE, ss) && Honest(EMPTY_SITE, ss, map[]) && Settled(After(EMPTY_SITE, ss), g, id, true)
    requires CanRun(After(EMPTY_SITE, ss), later) && Honest(After(EMPTY_SITE, ss), later, IssuedAll(map[], ss))
    requires NoClear(later, g)
    ensures var l := After(After(EMPTY_SITE, ss), later).latches;
            && Recorded(l, g, id, true)
            && Deliverable(Lookup(l.disk.devices, g), Lookup(l.disk.workers, worker), g, scope, input, note) == None
  {
    EmptySite();
    hide CanRun, After, Honest, Traced, Steady, Settled, Recorded, NoClear, Uncleared, EMPTY_SITE;
    HonestRunsAreTraced(EMPTY_SITE, ss, map[]);
    HonestIsAimed(After(EMPTY_SITE, ss), later, IssuedAll(map[], ss), g);
    SentForGood(After(EMPTY_SITE, ss), later, g, id, worker, scope, input, note);
  }
}
