/** The other half of delivery: a page that was never delivered stays due. A quarantine write
    makes it due, and from then on whoever claims it is told to send, through crashes, reads,
    failed deliveries and a lost Redis, until someone reports it sent or the latch is cleared. */
module Paging {
  import opened Coordination
  import opened Quarantine
  import opened Latch
  import opened Clearing
  import opened Delivery
  import WorkerDelivery
  import opened Origins

  // ----- a page that nobody has reported as sent

  predicate Blank(r: Record, e: string) {
    r.eventId == e ==> !r.page.state.Sent?
  }

  ghost predicate BlankReplica(x: Replica, e: string) {
    && (forall g :: g in x.devices ==> Blank(x.devices[g], e))
    && (forall w :: w in x.workers ==> Blank(x.workers[w], e))
  }

  predicate BlankPut(p: Put, e: string) {
    !p.Drop? ==> Blank(p.record, e)
  }

  predicate BlankPuts(ps: seq<Put>, e: string) {
    forall i :: 0 <= i < |ps| ==> BlankPut(ps[i], e)
  }

  predicate BlankStage(stage: Stage, e: string) {
    match stage
    case Looking(dd, dw, _) => (dd.Some? ==> Blank(dd.value, e)) && (dw.Some? ==> Blank(dw.value, e))
    case Writing(pending, claim) => BlankPuts(pending, e) && (claim.Some? ==> Blank(claim.value, e))
  }

  /** No record of this event, stored or about to be written, is marked sent. */
  ghost predicate Unsent(w: World, e: string) {
    && BlankReplica(w.latches.disk, e) && BlankReplica(w.latches.mirror, e)
    && forall g :: g in w.sections ==> BlankStage(w.sections[g].stage, e)
  }

  /** The step reports a delivery of this event's page. */
  predicate Reports(w: World, s: Step, e: string) {
    || (s.Begin? && s.op.Update? && s.op.expected == Event(e) && s.op.state.Sent?)
    || (s.Finish? && s.state.Sent? && s.g in w.sections && w.sections[s.g].stage.Writing?
        && w.sections[s.g].stage.claim.Some? && w.sections[s.g].stage.claim.value.eventId == e)
  }

  lemma PathsBlank(side: Side, r: Record, w: string, e: string)
    requires Blank(r, e)
    ensures BlankPuts(Paths(side, r, w), e)
  {
  }

  lemma JoinedBlank(a: seq<Put>, b: seq<Put>, e: string)
    requires BlankPuts(a, e) && BlankPuts(b, e)
    ensures BlankPuts(a + b, e)
  {
  }

  lemma RepairedBlank(r: Option<Record>, w: string, g: Device, e: string)
    requires r.Some? ==> Blank(r.value, e)
    ensures var x := Repaired(r, w, g); x.Some? ==> Blank(x.value, e)
    ensures var x := Repaired(Keyed(r, g), w, g); x.Some? ==> Blank(x.value, e)
    ensures var x := Constrained(Repaired(r, w, g), g); x.Some? ==> Blank(x.value, e)
  {
  }

  predicate BlankSources(s: Sources, e: string) {
    && (s.diskDevice.Some? ==> Blank(s.diskDevice.value, e)) && (s.diskWorker.Some? ==> Blank(s.diskWorker.value, e))
    && (s.redisDevice.Some? ==> Blank(s.redisDevice.value, e))
    && (s.redisWorker.Some? ==> Blank(s.redisWorker.value, e))
  }

  lemma MergedBlank(s: Sources, w: string, g: Device, e: string)
    requires e != "" && BlankSources(s, e)
    ensures Merged(s, w, g).Some? ==> Blank(Merged(s, w, g).value, e)
  {
    hide Merged, Repaired, Constrained, Keyed, Blank;
    RepairedBlank(s.diskDevice, w, g, e);
    RepairedBlank(s.diskWorker, w, g, e);
    RepairedBlank(s.redisDevice, w, g, e);
    RepairedBlank(s.redisWorker, w, g, e);
    SentOnlyFromSameGeneration(s, w, g);
    if Merged(s, w, g).Some? { SentMeansBlank(Ordered(s, w, g), Merged(s, w, g).value, e); }
    assert forall r :: r in Ordered(s, w, g) && r.Some? ==> Blank(r.value, e);
  }

  lemma SentMeansBlank(rs: seq<Option<Record>>, m: Record, e: string)
    requires e != "" && forall r :: r in rs && r.Some? ==> Blank(r.value, e)
    requires m.page.state.Sent? ==> exists r :: r in rs && r.Some? && r.value.page.state.Sent?
                                                && Generation(r.value) == Generation(m)
    ensures Blank(m, e)
  {
  }

  lemma ReadPlanBlank(s: Sources, w: string, g: Device, e: string)
    requires e != "" && BlankSources(s, e)
    ensures BlankPuts(ReadPlan(s, w, g), e)
  {
    MergedBlank(s, w, g, e);
    hide Merged, Ready, Repaired, Paths;
    var m := Merged(s, w, g);
    if m.Some? { PathsBlank(Disk, m.value, w, e); }
  }

  lemma OpenedBlank(l: Latches, g: Device, op: Op, e: string)
    requires e != "" && BlankReplica(l.disk, e) && Proper(g, op)
    requires !(op.Update? && op.expected == Event(e) && op.state.Sent?)
    ensures BlankStage(Opened(l, g, op), e)
  {
    hide Paths;
    var dd, dw := Lookup(l.disk.devices, g), Lookup(l.disk.workers, op.worker);
    if op.Write? {
      var r := Preserved(dd, dw, op.worker, g, op.latch);
      PathsBlank(Disk, r, op.worker, e);
      PathsBlank(Mirror, r, op.worker, e);
      JoinedBlank(Paths(Disk, r, op.worker), Paths(Mirror, r, op.worker), e);
    } else if op.Update? {
      UpdateBlank(dd, dw, g, op, e);
    } else if op.Claim? {
      var r := Deliverable(dd, dw, g, op.scope, op.input, op.note);
      if r.Some? { PathsBlank(Disk, r.value, op.worker, e); }
    }
  }

  lemma UpdateBlank(dd: Option<Record>, dw: Option<Record>, g: Device, op: Op, e: string)
    requires e != "" && op.Update? && !(op.expected == Event(e) && op.state.Sent?)
    requires (dd.Some? ==> Blank(dd.value, e)) && (dw.Some? ==> Blank(dw.value, e))
    ensures BlankPuts(UpdatePlan(dd, dw, op.worker, g, op.scope, op.expected, op.state, op.note), e)
  {
    var t := Target(dd, dw, g, op.scope, op.expected);
    if t.Some? {
      var settles := !t.value.page.state.Sent? || op.state.Sent?;
      var r := if settles then t.value.(page := Page(op.state, op.note)) else t.value;
      PathsBlank(Disk, r, op.worker, e);
      PathsBlank(Mirror, r, op.worker, e);
      hide Paths;
      JoinedBlank(Paths(Disk, r, op.worker), Paths(Mirror, r, op.worker), e);
    }
  }

  lemma LookedBlank(l: Latches, g: Device, x: Section, e: string)
    requires e != "" && BlankReplica(l.mirror, e) && BlankStage(x.stage, e)
    requires x.stage.Looking? && (x.op.Read? || x.op.Clear?)
    ensures BlankStage(Looked(l, g, x.op, x.stage), e)
  {
    if x.op.Read? {
      var s := Sources(x.stage.dd, x.stage.dw, Lookup(l.mirror.devices, g), Lookup(l.mirror.workers, x.op.worker));
      ReadPlanBlank(s, x.op.worker, g, e);
      hide ReadPlan;
    }
  }

  lemma StoreBlank(l: Latches, p: Put, e: string)
    requires BlankReplica(l.disk, e) && BlankReplica(l.mirror, e) && BlankPut(p, e)
    ensures BlankReplica(Done(l, p).disk, e) && BlankReplica(Done(l, p).mirror, e)
  {
    hide Blank;
  }

  /** Nothing but a report of its delivery marks a page as sent. */
  lemma UnsentStays(w: World, s: Step, e: string)
    requires e != "" && Unsent(w, e) && Enabled(w, s) && !Reports(w, s, e)
    ensures Unsent(Apply(w, s), e)
  {
    hide Opened, Looked, Done, FinishPlan, BlankReplica, Blank, BlankPut, Proper;
    match s
    case Begin(g, op) => OpenedBlank(w.latches, g, op, e);
    case Look(g) => LookedBlank(w.latches, g, w.sections[g], e);
    case Store(g) => StoreBlank(w.latches, w.sections[g].stage.pending[0], e);
    case Finish(g, state, note) =>
      FinishBlank(w.sections[g].stage.claim.value, w.sections[g].op.worker, state, note, e);
    case Release(_) =>
    case LoseMirror => NothingIsBlank(e);
  }

  lemma FinishBlank(r: Record, w: string, state: PageState, note: string, e: string)
    requires r.eventId == e ==> !state.Sent?
    ensures BlankPuts(FinishPlan(r, w, state, note), e)
  {
    PathsBlank(Disk, r.(page := Page(state, note)), w, e);
  }

  lemma NothingIsBlank(e: string)
    ensures BlankReplica(Replica(map[], map[]), e)
  {
  }

  // ----- due over runs

  ghost predicate Unreported(w: World, ss: seq<Step>, e: string)
    requires CanRun(w, ss)
    decreases |ss|
  {
    ss != [] ==> !Reports(w, ss[0], e) && Unreported(Apply(w, ss[0]), ss[1..], e)
  }

  /** A claim for this event's page of the GPU, by any process, is told to send it. */
  predicate Due(l: Latches, g: Device, e: string, worker: string, note: string) {
    var r := Deliverable(Lookup(l.disk.devices, g), Lookup(l.disk.workers, worker), g, Physical, Event(e), note);
    r.Some? && r.value.eventId == e && IsFor(r.value, g) && r.value.page == Page(Sending, note)
  }

  lemma UnsentIsDue(w: World, g: Device, e: string, worker: string, note: string)
    requires e != "" && Recorded(w.latches, g, Event(e), false) && Unsent(w, e)
    ensures Due(w.latches, g, e, worker, note)
  {
  }

  /** Due, due until delivered: through every run of aimed steps without a clear of the GPU in
      which nobody reports this page as sent, with senders crashing or failing anywhere, every
      claim for it is told to send. */
  lemma {:induction false} DueUntilReported(w: World, ss: seq<Step>, g: Device, e: string, worker: string, note: string)
    requires Steady(w) && e != "" && Settled(w, g, Event(e), false) && Unsent(w, e)
    requires CanRun(w, ss) && Uncleared(w, ss, g) && Unreported(w, ss, e)
    ensures Due(After(w, ss).latches, g, e, worker, note)
    decreases |ss|
  {
    hide Steady, Enabled, Apply, AimedStep, Due, Unsent, Reports;
    if ss == [] {
      UnsentIsDue(w, g, e, worker, note);
    } else {
      hide Settled;
      SteadyStays(w, ss[0]);
      SettledStays(w, ss[0], g, Event(e), false);
      UnsentStays(w, ss[0], e);
      DueUntilReported(Apply(w, ss[0]), ss[1..], g, e, worker, note);
    }
  }

  /** Where that begins: the first record of a quarantine write for a GPU without a latch is the
      new latch as it is, pending page and all. */
  lemma WriteIsDue(w: World, g: Device, x: string, latch: Record)
    requires Steady(w) && Enabled(w, Begin(g, Write(x, latch))) && latch.scope.Physical? && latch.eventId != ""
    requires g !in w.latches.disk.devices
    requires x in w.latches.disk.workers ==> !IsFor(w.latches.disk.workers[x], g)
    requires Unsent(w, latch.eventId)
    ensures var w1 := Apply(w, Begin(g, Write(x, latch)));
            && Enabled(w1, Store(g))
            && var w2 := Apply(w1, Store(g));
               && g in w2.latches.disk.devices && w2.latches.disk.devices[g] == latch
               && Steady(w2) && Settled(w2, g, Event(latch.eventId), false) && Unsent(w2, latch.eventId)
  {
    var begin := Begin(g, Write(x, latch));
    var w1 := Apply(w, begin);
    assert WritePlan(None, Lookup(w.latches.disk.workers, x), x, g, latch)[0] == SetDevice(Disk, g, latch);
    SteadyStays(w, begin);
    UnsentStays(w, begin, latch.eventId);
    SteadyStays(w1, Store(g));
    UnsentStays(w1, Store(g), latch.eventId);
    hide Steady, Unsent, Generation;
    PathsKeep(Disk, latch, x, g, Event(latch.eventId), false) by { LatchBears(latch, g); }
    PathsKeep(Mirror, latch, x, g, Event(latch.eventId), false) by { LatchBears(latch, g); }
    LatchBears(latch, g);
    assert AllKeep(w1.sections[g].stage.pending, g, Event(latch.eventId), false);
  }

  lemma LatchBears(latch: Record, g: Device)
    requires latch.eventId != "" && IsFor(latch, g)
    ensures Bears(latch, g, Event(latch.eventId), false)
  {
  }

  // ----- the same for a worker latch

  /** A claim for this event's page of the worker is told to send it, unless the GPU itself is
      latched by now: then its own page has the say. */
  predicate WorkerDue(l: Latches, x: string, g: Device, e: string, note: string) {
    var r := Deliverable(Lookup(l.disk.devices, g), Lookup(l.disk.workers, x), g, WorkerProcess, Event(e), note);
    || g in l.disk.devices
    || (r.Some? && r.value.eventId == e && r.value.worker == x && r.value.page == Page(Sending, note))
  }

  lemma UnsentIsWorkerDue(w: World, x: string, g: Device, e: string, note: string)
    requires e != "" && WorkerDelivery.AliasRecorded(w.latches, x, g, Event(e), false) && Unsent(w, e)
    ensures WorkerDue(w.latches, x, g, e, note)
  {
  }

  /** A worker's page is due until it is delivered or its GPU is latched, through every run
      whose sections that name the worker run under its GPU's lock. */
  lemma {:induction false} WorkerDueUntilReported(w: World, ss: seq<Step>, x: string, g: Device, e: string,
                                                  note: string)
    requires Steady(w) && e != "" && x != "" && Known(g)
    requires WorkerDelivery.PageSettled(w, x, g, Event(e), false) && Unsent(w, e)
    requires CanRun(w, ss) && WorkerDelivery.AtHome(w, ss, x, g) && Unreported(w, ss, e)
    ensures WorkerDue(After(w, ss).latches, x, g, e, note)
    decreases |ss|
  {
    hide Steady, Enabled, Apply, AimedStep, WorkerDue, Unsent, Reports, WorkerDelivery.Homed;
    if ss == [] {
      UnsentIsWorkerDue(w, x, g, e, note);
    } else {
      hide WorkerDelivery.PageSettled;
      SteadyStays(w, ss[0]);
      WorkerDelivery.PageSettledStays(w, ss[0], x, g, Event(e), false);
      UnsentStays(w, ss[0], e);
      WorkerDueUntilReported(Apply(w, ss[0]), ss[1..], x, g, e, note);
    }
  }

  /** A worker latch written where neither the GPU nor the worker has a latch of that kind. */
  lemma WorkerWriteIsDue(w: World, g: Device, x: string, latch: Record)
    requires Steady(w) && Enabled(w, Begin(g, Write(x, latch))) && latch.scope.WorkerProcess? && latch.eventId != ""
    requires g !in w.latches.disk.devices
    requires x in w.latches.disk.workers ==>
               var r := w.latches.disk.workers[x];
               !IsFor(r, g) && !(r.scope.WorkerProcess? && r.worker == x && r.hostname == g.hostname
                                 && r.index == g.index)
    requires forall o :: o in w.sections ==> WorkerDelivery.Foreign(w.sections[o], x)
    requires Unsent(w, latch.eventId)
    ensures var w1 := Apply(w, Begin(g, Write(x, latch)));
            && Enabled(w1, Store(g))
            && var w2 := Apply(w1, Store(g));
               && x in w2.latches.disk.workers && w2.latches.disk.workers[x] == latch
               && Steady(w2) && WorkerDelivery.PageSettled(w2, x, g, Event(latch.eventId), false)
               && Unsent(w2, latch.eventId)
  {
    var begin := Begin(g, Write(x, latch));
    var w1 := Apply(w, begin);
    var pending := w1.sections[g].stage.pending;
    assert latch.(worker := x) == latch;
    assert pending == [SetWorker(Disk, x, latch), SetWorker(Mirror, x, latch)];
    assert pending[1..] == [SetWorker(Mirror, x, latch)];
    SteadyStays(w, begin);
    UnsentStays(w, begin, latch.eventId);
    SteadyStays(w1, Store(g));
    UnsentStays(w1, Store(g), latch.eventId);
    hide Steady, Unsent, Preserved, UpdatePlan;
  }

  // ----- among honest callers

  lemma FreshIsUnsent(w: World, origin: Registry, e: string)
    requires Traced(w, origin) && e !in origin
    ensures Unsent(w, e)
  {
    hide IsFor;
    assert forall r :: Rooted(r, origin) ==> Blank(r, e);
    hide Rooted, Blank;
  }

  /** With no proviso but honest callers: from an empty store, after any run, a new latch of a GPU
      that has none makes its page due, and due it is in every later world until somebody reports
      it as sent or a clear of the GPU is started. */
  lemma HonestWriteIsPaged(ss: seq<Step>, g: Device, x: string, latch: Record, later: seq<Step>, worker: string,
                           note: string)
    requires CanRun(EMPTY_SITE, ss) && Honest(EMPTY_SITE, ss, map[])
    requires var w := After(EMPTY_SITE, ss);
             && Enabled(w, Begin(g, Write(x, latch))) && Fresh(Begin(g, Write(x, latch)), IssuedAll(map[], ss))
             && latch.scope.Physical? && g !in w.latches.disk.devices
             && (x in w.latches.disk.workers ==> !IsFor(w.latches.disk.workers[x], g))
    requires var w1 := Apply(After(EMPTY_SITE, ss), Begin(g, Write(x, latch)));
             Enabled(w1, Store(g)) ==>
               && CanRun(Apply(w1, Store(g)), later) && NoClear(later, g)
               && Unreported(Apply(w1, Store(g)), later, latch.eventId)
               && Honest(Apply(w1, Store(g)), later, IssuedAll(map[], ss)[latch.eventId := g])
    ensures var w1 := Apply(After(EMPTY_SITE, ss), Begin(g, Write(x, latch)));
            && Enabled(w1, Store(g))
            && Due(After(Apply(w1, Store(g)), later).latches, g, latch.eventId, worker, note)
  {
    EmptySite();
    HonestRunsAreTraced(EMPTY_SITE, ss, map[]);
    var w, origin := After(EMPTY_SITE, ss), IssuedAll(map[], ss);
    FreshIsUnsent(w, origin, latch.eventId);
    WriteIsDue(w, g, x, latch);
    var begin := Begin(g, Write(x, latch));
    assert Issued(origin, begin) == origin[latch.eventId := g] && OwnGpu(begin, origin);
    hide CanRun, After, Honest, Traced, Steady, Settled, Unsent, Due, NoClear, Uncleared, Unreported, EMPTY_SITE, Apply;
    OneHonestStep(w, begin, origin);
    var w1, now := Apply(w, begin), origin[latch.eventId := g];
    OneHonestStep(w1, Store(g), now);
    HonestIsAimed(Apply(w1, Store(g)), later, now, g);
    DueUntilReported(Apply(w1, Store(g)), later, g, latch.eventId, worker, note);
  }
}
