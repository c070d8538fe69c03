/** Paging for worker latches. A worker record lies outside every GPU's lock: what holds for a
    GPU's record without further ado holds for a worker's while all sections that name the
    worker run under one GPU's lock, and not otherwise. */
module WorkerDelivery {
  import opened Coordination
  import opened Quarantine
  import opened Latch
  import opened Clearing

  /** A worker latch of this generation that names its worker and its GPU; with `sent`, one that
      is marked sent. */
  predicate BearsAlias(r: Record, x: string, g: Device, id: Identity, sent: bool) {
    && r.scope.WorkerProcess? && (sent ==> r.page.state.Sent?) && Generation(r) == id
    && r.worker == x && r.hostname == g.hostname && r.index == g.index
  }

  /** The worker's record says sent, or a physical latch of its GPU has superseded it. */
  predicate AliasRecorded(l: Latches, x: string, g: Device, id: Identity, sent: bool) {
    g in l.disk.devices || (x in l.disk.workers && BearsAlias(l.disk.workers[x], x, g, id, sent))
  }

  /** While that is so, every worker-latch claim for the worker is told not to send: as a
      duplicate, for another generation, or because the stronger alert has the say. */
  lemma NobodyIsToldForWorker(l: Latches, x: string, g: Device, id: Identity, input: Identity, note: string)
    requires AliasRecorded(l, x, g, id, true)
    ensures Deliverable(Lookup(l.disk.devices, g), Lookup(l.disk.workers, x), g, WorkerProcess, input, note) == None
  {
  }

  // ----- what sections may still do

  predicate Spares(p: Put, x: string) {
    p.side.Disk? ==> !(p.SetWorker? && p.worker == x) && !(p.Drop? && x in p.workers)
  }

  predicate Escalates(p: Put, g: Device) {
    p.SetDevice? && p.side.Disk? && p.g == g
  }

  /** Whoever overwrites the worker's record leaves it sent, or has latched the GPU before. */
  ghost predicate Guarded(ps: seq<Put>, x: string, g: Device, id: Identity, sent: bool) {
    forall i :: 0 <= i < |ps| ==>
      && !ps[i].Drop?
      && (|| Spares(ps[i], x)
          || (ps[i].SetWorker? && BearsAlias(ps[i].record, x, g, id, sent))
          || exists j :: 0 <= j < i && Escalates(ps[j], g))
  }

  /** A section of another GPU. */
  ghost predicate Foreign(s: Section, x: string) {
    s.op.worker != x && (s.stage.Writing? ==> forall i :: 0 <= i < |s.stage.pending| ==> Spares(s.stage.pending[i], x))
  }

  /** A section of the worker's own GPU, begun while no physical latch stood. */
  ghost predicate Own(l: Latches, s: Section, x: string, g: Device, id: Identity, sent: bool) {
    match s.stage
    case Looking(dd, dw, _) => s.op.Read? && dd.None? && (s.op.worker == x ==> dw == Lookup(l.disk.workers, x))
    case Writing(pending, claim) =>
      && Guarded(pending, x, g, id, sent)
      && (claim.Some? && s.op.worker == x ==> !sent && BearsAlias(claim.value, x, g, id, sent))
  }

  ghost predicate NoDrops(s: Section) {
    !s.op.Clear? && (s.stage.Writing? ==> forall i :: 0 <= i < |s.stage.pending| ==> !s.stage.pending[i].Drop?)
  }

  ghost predicate Standing(w: World, x: string, g: Device, id: Identity, sent: bool) {
    && x in w.latches.disk.workers && BearsAlias(w.latches.disk.workers[x], x, g, id, sent)
    && g !in w.latches.disk.devices
    && (forall o :: o in w.sections && o != g ==> Foreign(w.sections[o], x))
    && (g in w.sections ==> Own(w.latches, w.sections[g], x, g, id, sent))
  }

  /** The page of the worker's latch is settled: sent and kept, or superseded. */
  ghost predicate PageSettled(w: World, x: string, g: Device, id: Identity, sent: bool) {
    && (g in w.sections ==> NoDrops(w.sections[g]))
    && (g in w.latches.disk.devices || Standing(w, x, g, id, sent))
  }

  /** Sections that name the worker belong to its GPU, and nobody starts a clear of either. */
  predicate Homed(s: Step, x: string, g: Device) {
    s.Begin? ==> (s.op.worker == x ==> s.g == g && !s.op.Clear?) && (s.g == g ==> !s.op.Clear?)
  }

  // ----- sections without drops

  lemma PathsHaveNoDrops(side: Side, r: Record, w: string)
    ensures forall i :: 0 <= i < |Paths(side, r, w)| ==> !Paths(side, r, w)[i].Drop?
    ensures forall i, x :: 0 <= i < |Paths(side, r, w)| && w != x ==> Spares(Paths(side, r, w)[i], x)
  {
  }

  lemma OpenedHasNoDrops(l: Latches, g: Device, op: Op, x: string)
    requires !op.Clear?
    ensures NoDrops(Section(op, Opened(l, g, op)))
    ensures op.worker != x ==> Foreign(Section(op, Opened(l, g, op)), x)
  {
    hide Paths, Preserved, Target, Deliverable, Spares;
    var dd, dw := Lookup(l.disk.devices, g), Lookup(l.disk.workers, op.worker);
    if op.Write? {
      PathsHaveNoDrops(Disk, Preserved(dd, dw, op.worker, g, op.latch), op.worker);
      PathsHaveNoDrops(Mirror, Preserved(dd, dw, op.worker, g, op.latch), op.worker);
    } else if op.Update? {
      var t := Target(dd, dw, g, op.scope, op.expected);
      if t.Some? {
        var r := if !t.value.page.state.Sent? || op.state.Sent? then t.value.(page := Page(op.state, op.note))
            else t.value;
        PathsHaveNoDrops(Disk, r, op.worker);
        PathsHaveNoDrops(Mirror, r, op.worker);
      }
    } else if op.Claim? {
      var r := Deliverable(dd, dw, g, op.scope, op.input, op.note);
      if r.Some? { PathsHaveNoDrops(Disk, r.value, op.worker); }
    }
  }

  lemma ReadPlanHasNoDrops(s: Sources, w: string, g: Device, x: string)
    ensures forall i :: 0 <= i < |ReadPlan(s, w, g)| ==> !ReadPlan(s, w, g)[i].Drop?
    ensures w != x ==> forall i :: 0 <= i < |ReadPlan(s, w, g)| ==> Spares(ReadPlan(s, w, g)[i], x)
  {
    hide Paths, Merged, Ready, Repaired;
    var m := Merged(s, w, g);
    if m.Some? { PathsHaveNoDrops(Disk, m.value, w); }
  }

  /** A clear of another GPU does not recognise a worker latch as one of its aliases. */
  lemma ClearPlanSpares(l: Latches, w: string, g: Device, aliases: set<string>, x: string)
    requires w != x && x in l.disk.workers && l.disk.workers[x].scope.WorkerProcess?
    ensures forall i :: 0 <= i < 4 ==> Spares(ClearPlan(l, w, g, aliases)[i], x)
  {
  }

  // ----- sections of the worker's own GPU

  lemma SplitGuards(a: seq<Put>, b: seq<Put>, x: string, g: Device, id: Identity, sent: bool)
    requires Guarded(a, x, g, id, sent) && Guarded(b, x, g, id, sent)
    ensures Guarded(a + b, x, g, id, sent)
  {
    var ps := a + b;
    forall i | 0 <= i < |ps|
      ensures !ps[i].Drop?
      ensures Spares(ps[i], x) || (ps[i].SetWorker? && BearsAlias(ps[i].record, x, g, id, sent)) || exists j ::
                0 <= j < i && Escalates(ps[j], g)
    {
      if i < |a| {
        assert ps[i] == a[i];
        if j :| 0 <= j < i && Escalates(a[j], g) { assert Escalates(ps[j], g); }
      } else {
        assert ps[i] == b[i - |a|];
        if j :| 0 <= j < i - |a| && Escalates(b[j], g) { assert Escalates(ps[|a| + j], g); }
      }
    }
  }

  lemma SparingIsGuarded(ps: seq<Put>, x: string, g: Device, id: Identity, sent: bool)
    requires forall i :: 0 <= i < |ps| ==> !ps[i].Drop? && Spares(ps[i], x)
    ensures Guarded(ps, x, g, id, sent)
  {
  }

  lemma PathsGuarded(side: Side, r: Record, w: string, x: string, g: Device, id: Identity, sent: bool)
    requires Known(g)
    requires side.Mirror? || w != x || IsFor(r, g) || BearsAlias(r, x, g, id, sent)
    ensures Guarded(Paths(side, r, w), x, g, id, sent)
  {
    if side.Disk? && w == x && IsFor(r, g) {
      assert Escalates(Paths(side, r, w)[0], g);
    }
  }

  lemma OpenedOwn(l: Latches, x: string, g: Device, id: Identity, sent: bool, op: Op)
    requires Known(g) && Proper(g, op) && !op.Clear? && g !in l.disk.devices
    requires x in l.disk.workers && BearsAlias(l.disk.workers[x], x, g, id, sent)
    ensures Own(l, Section(op, Opened(l, g, op)), x, g, id, sent)
  {
    hide Paths, Guarded;
    var dd, dw := Lookup(l.disk.devices, g), Lookup(l.disk.workers, op.worker);
    if op.Write? {
      var r := Preserved(dd, dw, op.worker, g, op.latch);
      PathsGuarded(Disk, r, op.worker, x, g, id, sent);
      PathsGuarded(Mirror, r, op.worker, x, g, id, sent);
      SplitGuards(Paths(Disk, r, op.worker), Paths(Mirror, r, op.worker), x, g, id, sent);
    } else if op.Update? {
      OwnUpdate(l, x, g, id, sent, op);
    } else if op.Claim? {
      var r := Deliverable(dd, dw, g, op.scope, op.input, op.note);
      NothingIsGuarded(x, g, id, sent);
      if r.Some? {
        SamePageSameGeneration(dw.value, Page(Sending, op.note));
        PathsGuarded(Disk, r.value, op.worker, x, g, id, sent);
      }
    }
  }

  lemma OwnUpdate(l: Latches, x: string, g: Device, id: Identity, sent: bool, op: Op)
    requires Known(g) && op.Update? && g !in l.disk.devices
    requires x in l.disk.workers && BearsAlias(l.disk.workers[x], x, g, id, sent)
    ensures Own(l, Section(op, Opened(l, g, op)), x, g, id, sent)
  {
    hide Paths, Guarded;
    var dd, dw := Lookup(l.disk.devices, g), Lookup(l.disk.workers, op.worker);
    var t := Target(dd, dw, g, op.scope, op.expected);
    NothingIsGuarded(x, g, id, sent);
    if t.Some? {
      var r := if !t.value.page.state.Sent? || op.state.Sent? then t.value.(page := Page(op.state, op.note))
          else t.value;
      SamePageSameGeneration(t.value, Page(op.state, op.note));
      PathsGuarded(Disk, r, op.worker, x, g, id, sent);
      PathsGuarded(Mirror, r, op.worker, x, g, id, sent);
      SplitGuards(Paths(Disk, r, op.worker), Paths(Mirror, r, op.worker), x, g, id, sent);
    }
  }

  lemma NothingIsGuarded(x: string, g: Device, id: Identity, sent: bool)
    ensures Guarded([], x, g, id, sent)
  {
  }

  /** A read that finds no physical source repairs the worker's record and keeps its mark. */
  lemma UnescalatedMerge(s: Sources, x: string, g: Device, id: Identity, sent: bool)
    requires Known(g) && s.diskDevice.None? && s.diskWorker.Some? && x != ""
    requires BearsAlias(s.diskWorker.value, x, g, id, sent)
    requires !IsPhysical(Merged(s, x, g))
    ensures Merged(s, x, g) == Repaired(s.diskWorker, x, g)
    ensures Merged(s, x, g).Some? && BearsAlias(Merged(s, x, g).value, x, g, id, sent)
  {
    var rs := Ordered(s, x, g);
    StrongestScope(rs);
    NoneSent(rs);
    assert rs[0].None? && rs[1] == Repaired(s.diskWorker, x, g) && rs[1].Some?;
    FirstOfAny(rs);
  }

  lemma {:induction false} NoneSent(rs: seq<Option<Record>>)
    requires forall i :: 0 <= i < |rs| ==> !IsPhysical(rs[i])
    ensures First(rs, IsSent).None? && First(rs, IsPhysical).None?
  {
    if rs != [] { NoneSent(rs[1..]); }
  }

  lemma FirstOfAny(rs: seq<Option<Record>>)
    requires |rs| >= 2 && rs[0].None? && rs[1].Some?
    ensures First(rs, r => true) == rs[1]
  {
    assert First(rs, r => true) == First(rs[1..], r => true);
  }

  lemma LookedOwn(l: Latches, x: string, g: Device, id: Identity, sent: bool, s: Section)
    requires Known(g) && x != "" && g !in l.disk.devices
    requires x in l.disk.workers && BearsAlias(l.disk.workers[x], x, g, id, sent)
    requires s.stage.Looking? && s.op.Read? && Own(l, s, x, g, id, sent)
    ensures Own(l, s.(stage := Looked(l, g, s.op, s.stage)), x, g, id, sent)
  {
    var src := Sources(s.stage.dd, s.stage.dw, Lookup(l.mirror.devices, g), Lookup(l.mirror.workers, s.op.worker));
    if s.op.worker == x {
      GuardedRead(src, x, g, id, sent);
    } else {
      ReadPlanHasNoDrops(src, s.op.worker, g, x);
      SparingIsGuarded(ReadPlan(src, s.op.worker, g), x, g, id, sent);
    }
  }

  lemma GuardedRead(s: Sources, x: string, g: Device, id: Identity, sent: bool)
    requires Known(g) && x != "" && s.diskDevice.None? && s.diskWorker.Some?
    requires BearsAlias(s.diskWorker.value, x, g, id, sent)
    ensures Guarded(ReadPlan(s, x, g), x, g, id, sent)
  {
    PhysicalIffSomeSourceIs(s, x, g);
    if !IsPhysical(Merged(s, x, g)) { UnescalatedMerge(s, x, g, id, sent); }
    hide Merged, Ready, Repaired, Guarded, Paths, BearsAlias, Impersonates;
    var m := Merged(s, x, g).value;
    var disk := if Ready(s, x, g, m) then [] else Paths(Disk, m, x);
    var device := if m.scope.Physical? && Repaired(Keyed(s.redisDevice, g), x, g) != Some(m)
        then [SetDevice(Mirror, g, m)] else [];
    var worker := if Repaired(s.redisWorker, x, g) != Some(m.(worker := x))
        then [SetWorker(Mirror, x, m.(worker := x))] else [];
    NothingIsGuarded(x, g, id, sent);
    PathsGuarded(Disk, m, x, x, g, id, sent);
    SparingIsGuarded(device, x, g, id, sent);
    SparingIsGuarded(worker, x, g, id, sent);
    SplitGuards(disk, device, x, g, id, sent);
    SplitGuards(disk + device, worker, x, g, id, sent);
    assert ReadPlan(s, x, g) == disk + device + worker;
  }

  // ----- one step

  lemma OwnStore(l: Latches, ps: seq<Put>, x: string, g: Device, id: Identity, sent: bool)
    requires ps != [] && Guarded(ps, x, g, id, sent)
    requires x in l.disk.workers && BearsAlias(l.disk.workers[x], x, g, id, sent)
    ensures var d := Done(l, ps[0]);
            && AliasRecorded(d, x, g, id, sent)
            && (g !in d.disk.devices ==> Guarded(ps[1..], x, g, id, sent))
  {
    var d := Done(l, ps[0]);
    if g !in d.disk.devices {
      assert !Escalates(ps[0], g);
      forall i | 0 <= i < |ps[1..]|
        ensures !ps[1..][i].Drop?
        ensures Spares(ps[1..][i], x) || (ps[1..][i].SetWorker? && BearsAlias(ps[1..][i].record, x, g, id, sent))
                || exists j :: 0 <= j < i && Escalates(ps[1..][j], g)
      {
        assert ps[1..][i] == ps[i + 1];
        if j :| 0 <= j < i + 1 && Escalates(ps[j], g) { assert ps[1..][j - 1] == ps[j]; }
      }
    }
  }

  lemma SparedStore(l: Latches, p: Put, x: string, g: Device, id: Identity, sent: bool)
    requires Spares(p, x) && x in l.disk.workers
    ensures Lookup(Done(l, p).disk.workers, x) == Lookup(l.disk.workers, x)
  {
  }

  lemma DeviceStays(l: Latches, p: Put, g: Device, o: Device)
    requires g in l.disk.devices && PutFits(p, o) && (o == g ==> !p.Drop?)
    ensures g in Done(l, p).disk.devices
  {
  }

  lemma DropsStayAway(w: World, s: Step, x: string, g: Device, id: Identity, sent: bool)
    requires Steady(w) && PageSettled(w, x, g, id, sent) && Enabled(w, s) && Homed(s, x, g)
    ensures g in Apply(w, s).sections ==> NoDrops(Apply(w, s).sections[g])
    ensures g in w.latches.disk.devices ==> g in Apply(w, s).latches.disk.devices
  {
    hide Opened, ReadPlan, Done, Standing, Fits, PutFits, FinishPlan, Proper;
    if s.Begin? && s.g == g {
      OpenedHasNoDrops(w.latches, g, s.op, x);
    } else if s.Look? && s.g == g {
      var t := w.sections[g];
      ReadPlanHasNoDrops(Sources(t.stage.dd, t.stage.dw, Lookup(w.latches.mirror.devices, g),
                                 Lookup(w.latches.mirror.workers, t.op.worker)),
                         t.op.worker, g, x);
    } else if s.Finish? && s.g == g {
      FinishHasNoDrops(w.sections[g].stage.claim.value, w.sections[g].op.worker, s.state, s.note, x);
    } else if s.Store? {
      assert SectionFits(w.sections[s.g], s.g);
      if g in w.latches.disk.devices { DeviceStays(w.latches, w.sections[s.g].stage.pending[0], g, s.g); }
    }
  }

  lemma FinishHasNoDrops(r: Record, w: string, state: PageState, note: string, x: string)
    ensures forall i :: 0 <= i < |FinishPlan(r, w, state, note)| ==> !FinishPlan(r, w, state, note)[i].Drop?
    ensures w != x ==> forall i ::
              0 <= i < |FinishPlan(r, w, state, note)| ==> Spares(FinishPlan(r, w, state, note)[i], x)
  {
    PathsHaveNoDrops(Disk, r.(page := Page(state, note)), w);
  }

  lemma StandingStays(w: World, s: Step, x: string, g: Device, id: Identity, sent: bool)
    requires Steady(w) && x != "" && Known(g) && Enabled(w, s) && Homed(s, x, g)
    requires Standing(w, x, g, id, sent) && (g in w.sections ==> NoDrops(w.sections[g]))
    ensures g in Apply(w, s).latches.disk.devices || Standing(Apply(w, s), x, g, id, sent)
  {
    hide Done, Fits, PutFits, FinishPlan, Spares, Guarded, BearsAlias;
    match s
    case Begin(o, op) =>
      hide Opened;
      if o == g { OpenedOwn(w.latches, x, g, id, sent, op); }
      else if op.Clear? { ForeignClearOpens(w.latches, o, op, x); }
      else { OpenedHasNoDrops(w.latches, o, op, x); }
    case Look(o) =>
      hide Looked, ReadPlan, ClearPlan;
      if o == g { LookedOwn(w.latches, x, g, id, sent, w.sections[g]); } else {
        LookedForeign(w.latches, o, w.sections[o], x, g, id, sent);
      }
    case Store(o) =>
      assert SectionFits(w.sections[o], o);
      StoreStays(w, o, x, g, id, sent);
    case Finish(o, state, note) =>
      var t := w.sections[o];
      FinishHasNoDrops(t.stage.claim.value, t.op.worker, state, note, x);
      if t.op.worker != x {
        SparingIsGuarded(FinishPlan(t.stage.claim.value, t.op.worker, state, note), x, g, id, sent);
      } else if o == g {
        FinishOwn(t.stage.claim.value, x, state, note, g, id);
      }
    case Release(_) =>
    case LoseMirror =>
  }

  lemma FinishOwn(r: Record, x: string, state: PageState, note: string, g: Device, id: Identity)
    requires Known(g) && BearsAlias(r, x, g, id, false)
    ensures Guarded(FinishPlan(r, x, state, note), x, g, id, false)
  {
    SamePageSameGeneration(r, Page(state, note));
    PathsGuarded(Disk, r.(page := Page(state, note)), x, x, g, id, false);
  }

  lemma ForeignClearOpens(l: Latches, o: Device, op: Op, x: string)
    requires op.Clear? && op.worker != x
    ensures Foreign(Section(op, Opened(l, o, op)), x)
  {
  }

  lemma LookedForeign(l: Latches, o: Device, s: Section, x: string, g: Device, id: Identity, sent: bool)
    requires Foreign(s, x) && s.stage.Looking? && (s.op.Read? || s.op.Clear?)
    requires x in l.disk.workers && BearsAlias(l.disk.workers[x], x, g, id, sent)
    ensures Foreign(s.(stage := Looked(l, o, s.op, s.stage)), x)
  {
    hide ReadPlan, Spares;
    if s.op.Read? {
      ReadPlanHasNoDrops(Sources(s.stage.dd, s.stage.dw, Lookup(l.mirror.devices, o),
                                 Lookup(l.mirror.workers, s.op.worker)), s.op.worker, o, x);
    } else {
      ClearPlanSpares(l, s.op.worker, o, s.stage.aliases, x);
    }
  }

  lemma StoreStays(w: World, o: Device, x: string, g: Device, id: Identity, sent: bool)
    requires Standing(w, x, g, id, sent) && Enabled(w, Store(o)) && AllFit(w.sections[o].stage.pending, o) && Known(o)
    ensures g in Apply(w, Store(o)).latches.disk.devices || Standing(Apply(w, Store(o)), x, g, id, sent)
  {
    hide Done, Fits, PutFits, Spares, Guarded, BearsAlias;
    var ps := w.sections[o].stage.pending;
    if o == g {
      OwnStore(w.latches, ps, x, g, id, sent);
    } else {
      SparedStore(w.latches, ps[0], x, g, id, sent);
    }
  }

  lemma PageSettledStays(w: World, s: Step, x: string, g: Device, id: Identity, sent: bool)
    requires Steady(w) && x != "" && Known(g) && Enabled(w, s) && Homed(s, x, g) && PageSettled(w, x, g, id, sent)
    ensures PageSettled(Apply(w, s), x, g, id, sent)
  {
    DropsStayAway(w, s, x, g, id, sent);
    hide Apply, Standing, NoDrops;
    if g !in w.latches.disk.devices { StandingStays(w, s, x, g, id, sent); }
  }

  // ----- over runs

  ghost predicate AtHome(w: World, ss: seq<Step>, x: string, g: Device)
    requires CanRun(w, ss)
    decreases |ss|
  {
    ss != [] ==> AimedStep(w, ss[0]) && Homed(ss[0], x, g) && AtHome(Apply(w, ss[0]), ss[1..], x, g)
  }

  /** Recorded as sent, sent for good, for a worker latch: through every run whose sections
      that name the worker run under its GPU's lock, without a clear of either, nobody who
      claims a delivery of the worker's latch is told to send, crashes included. */
  lemma {:induction false} WorkerSentForGood(w: World, ss: seq<Step>, x: string, g: Device, id: Identity,
                                             input: Identity, note: string)
    requires Steady(w) && x != "" && Known(g) && PageSettled(w, x, g, id, true) && CanRun(w, ss) && AtHome(w, ss, x, g)
    ensures var l := After(w, ss).latches;
            && AliasRecorded(l, x, g, id, true)
            && Deliverable(Lookup(l.disk.devices, g), Lookup(l.disk.workers, x), g, WorkerProcess, input, note) == None
    decreases |ss|
  {
    hide Steady, Enabled, Apply, AimedStep, Homed, Deliverable, BearsAlias;
    if ss == [] {
      NobodyIsToldForWorker(w.latches, x, g, id, input, note);
    } else {
      hide PageSettled;
      SteadyStays(w, ss[0]);
      PageSettledStays(w, ss[0], x, g, id, true);
      WorkerSentForGood(Apply(w, ss[0]), ss[1..], x, g, id, input, note);
    }
  }

  /** Where that begins: a sender that reports success and writes its first record, no section
      of another GPU naming the worker. */
  lemma WorkerFinishRecords(w: World, x: string, g: Device, note: string)
    requires Steady(w) && Enabled(w, Finish(g, Sent, note))
    requires w.sections[g].op.worker == x
    requires var r := w.sections[g].stage.claim.value;
             r.scope.WorkerProcess? && r.worker == x && r.hostname == g.hostname && r.index == g.index
    requires forall o :: o in w.sections && o != g ==> Foreign(w.sections[o], x)
    ensures var w1 := Apply(w, Finish(g, Sent, note));
            && Enabled(w1, Store(g))
            && PageSettled(Apply(w1, Store(g)), x, g, Generation(w.sections[g].stage.claim.value), true)
  {
    hide Generation, Opened, Looked, Fits, PutFits, Spares;
    var r := w.sections[g].stage.claim.value;
    SamePageSameGeneration(r, Page(Sent, note));
    var sent := r.(page := Page(Sent, note), worker := x);
    assert sent == r.(page := Page(Sent, note));
    assert FinishPlan(r, x, Sent, note) == [SetWorker(Disk, x, sent)];
    NothingIsGuarded(x, g, Generation(r), true);
  }

  // ----- why the sections must share a lock

  /** A run of aimed steps that starts no clear and names only this worker. */
  ghost predicate Ordinary(w: World, ss: seq<Step>, x: string)
    requires CanRun(w, ss)
    decreases |ss|
  {
    ss != [] ==>
      && AimedStep(w, ss[0]) && (ss[0].Begin? ==> ss[0].op.worker == x && !ss[0].op.Clear?)
      && Ordinary(Apply(w, ss[0]), ss[1..], x)
  }

  lemma Unroll(w: World, s: Step, ss: seq<Step>, x: string)
    requires Enabled(w, s) && CanRun(Apply(w, s), ss)
    ensures CanRun(w, [s] + ss) && After(w, [s] + ss) == After(Apply(w, s), ss)
    ensures AimedStep(w, s) && (s.Begin? ==> s.op.worker == x && !s.op.Clear?) && Ordinary(Apply(w, s), ss, x)
            ==> Ordinary(w, [s] + ss, x)
  {
    hide Enabled, Apply, AimedStep;
    assert ([s] + ss)[1..] == ss;
  }

  function Latched(x: string, g: Device, state: PageState): Record {
    Record(WorkerProcess, x, g.hostname, g.index, "e", "", "", Page(state, ""), true)
  }

  function With(x: string, g: Device, state: PageState, sections: map<Device, Section>): World {
    World(Latches(Replica(map[], map[x := Latched(x, g, state)]), Replica(map[], map[])), sections)
  }

  function LateFailure(x: string): Op {
    Update(x, WorkerProcess, Event("e"), PageState.Failed, "")
  }

  function Sender(x: string): Op {
    Op.Claim(x, WorkerProcess, Event("e"), "")
  }

  function Late(x: string, g: Device): Section {
    Section(LateFailure(x), Writing([SetWorker(Disk, x, Latched(x, g, PageState.Failed)),
                                     SetWorker(Mirror, x, Latched(x, g, PageState.Failed))], None))
  }

  function Send(x: string, pending: seq<Put>, claim: Option<Record>): Section {
    Section(Sender(x), Writing(pending, claim))
  }

  lemma LateBegins(x: string, g: Device, o: Device)
    requires Known(g) && Known(o)
    ensures var w := With(x, g, PageState.Pending, map[]);
            var s := Begin(o, LateFailure(x));
            Enabled(w, s) && AimedStep(w, s) && Apply(w, s) == With(x, g, PageState.Pending, map[o := Late(x, g)])
  {
    var w := With(x, g, PageState.Pending, map[]);
    var empty: map<Device, Section> := map[];
    assert Opened(w.latches, o, LateFailure(x)) == Late(x, g).stage;
    assert empty[o := Late(x, g)] == map[o := Late(x, g)];
  }

  lemma SenderBegins(x: string, g: Device, o: Device)
    requires Known(g) && Known(o) && g != o
    ensures var w := With(x, g, PageState.Pending, map[o := Late(x, g)]);
            var s := Begin(g, Sender(x));
            var sending := Latched(x, g, Sending);
            && Enabled(w, s) && AimedStep(w, s)
            && Apply(w, s) == With(x, g, PageState.Pending,
                                   map[o := Late(x, g), g := Send(x, [SetWorker(Disk, x, sending)], Some(sending))])
  {
    var sending := Latched(x, g, Sending);
    var w := With(x, g, PageState.Pending, map[o := Late(x, g)]);
    var section := Send(x, [SetWorker(Disk, x, sending)], Some(sending));
    assert Opened(w.latches, g, Sender(x)) == section.stage;
    assert map[o := Late(x, g)][g := section] == map[o := Late(x, g), g := section];
  }

  lemma SenderStores(x: string, g: Device, o: Device, before: PageState, after: PageState, claim: Option<Record>)
    requires g != o
    ensures var w := With(x, g, before,
                          map[o := Late(x, g), g := Send(x, [SetWorker(Disk, x, Latched(x, g, after))], claim)]);
            Enabled(w, Store(g)) && Apply(w, Store(g)) == With(x, g, after,
                                                               map[o := Late(x, g), g := Send(x, [], claim)])
  {
    var m := map[x := Latched(x, g, before)];
    assert m[x := Latched(x, g, after)] == map[x := Latched(x, g, after)];
    var section := Send(x, [SetWorker(Disk, x, Latched(x, g, after))], claim);
    assert section.stage.pending[1..] == [];
    assert map[o := Late(x, g), g := section][g := Send(x, [], claim)] == map[o := Late(x, g), g := Send(x, [], claim)];
  }

  lemma SenderFinishes(x: string, g: Device, o: Device)
    requires g != o
    ensures var w := With(x, g, Sending, map[o := Late(x, g), g := Send(x, [], Some(Latched(x, g, Sending)))]);
            && Enabled(w, Finish(g, Sent, ""))
            && Apply(w, Finish(g, Sent, "")) ==
               With(x, g, Sending, map[o := Late(x, g), g := Send(x, [SetWorker(Disk, x, Latched(x, g, Sent))], None)])
  {
    var section := Send(x, [], Some(Latched(x, g, Sending)));
    var next := Send(x, [SetWorker(Disk, x, Latched(x, g, Sent))], None);
    assert FinishPlan(Latched(x, g, Sending), x, Sent, "") == next.stage.pending;
    assert map[o := Late(x, g), g := section][g := next] == map[o := Late(x, g), g := next];
  }

  lemma LateStores(x: string, g: Device, o: Device)
    requires g != o
    ensures var w := With(x, g, Sent, map[o := Late(x, g), g := Send(x, [], None)]);
            && Enabled(w, Store(o))
            && var l := Apply(w, Store(o)).latches;
               l.disk.devices == map[] && x in l.disk.workers && l.disk.workers[x] == Latched(x, g, PageState.Failed)
  {
  }

  /** The sender's whole run; the late update has read the record before the page was sent. */
  lemma SenderRuns(x: string, g: Device, o: Device)
    requires Known(g) && Known(o) && g != o
    ensures exists ss :: var w := With(x, g, PageState.Pending, map[o := Late(x, g)]);
                         && CanRun(w, ss) && Ordinary(w, ss, x)
                         && After(w, ss) == With(x, g, Sent, map[o := Late(x, g), g := Send(x, [], None)])
  {
    var w1 := With(x, g, PageState.Pending, map[o := Late(x, g)]);
    SenderBegins(x, g, o);
    SenderStores(x, g, o, PageState.Pending, Sending, Some(Latched(x, g, Sending)));
    SenderFinishes(x, g, o);
    SenderStores(x, g, o, Sending, Sent, None);
    hide Enabled, Apply, With, Late, Send, CanRun, After, Ordinary;
    var w2 := Apply(w1, Begin(g, Sender(x)));
    var w3 := Apply(w2, Store(g));
    var w4 := Apply(w3, Finish(g, Sent, ""));
    EmptyRun(Apply(w4, Store(g)), x);
    Unroll(w4, Store(g), [], x);
    Unroll(w3, Finish(g, Sent, ""), [Store(g)] + [], x);
    Unroll(w2, Store(g), [Finish(g, Sent, "")] + ([Store(g)] + []), x);
    Unroll(w1, Begin(g, Sender(x)), [Store(g)] + ([Finish(g, Sent, "")] + ([Store(g)] + [])), x);
  }

  /** For every worker and every two GPUs: if sections that name the worker run under both
      locks, a delivery that was durably recorded as sent is forgotten, and the next claimant is
      told to send again. */
  lemma TwoLocksForgetTheDelivery(x: string, g: Device, o: Device)
    requires Known(g) && Known(o) && g != o
    ensures exists w, ss, tt ::
              && Steady(w) && CanRun(w, ss) && Ordinary(w, ss, x) && SentThen(After(w, ss), tt, x, g)
  {
    var w := With(x, g, PageState.Pending, map[]);
    LateBegins(x, g, o);
    SenderRuns(x, g, o);
    var sent := With(x, g, Sent, map[o := Late(x, g), g := Send(x, [], None)]);
    ForgottenAfter(sent, x, g, o);
    assert Steady(w) by { NoSectionsIsSteady(x, g); }
    hide Enabled, Apply, With, Late, Send, CanRun, After, Ordinary, SentThen, Steady;
    var w1 := With(x, g, PageState.Pending, map[o := Late(x, g)]);
    var ss :| CanRun(w1, ss) && Ordinary(w1, ss, x) && After(w1, ss) == sent;
    Unroll(w, Begin(o, LateFailure(x)), ss, x);
    assert SentThen(After(w, [Begin(o, LateFailure(x))] + ss), [Store(o)], x, g);
  }

  lemma EmptyRun(w: World, x: string)
    ensures CanRun(w, []) && After(w, []) == w && Ordinary(w, [], x)
  {
  }

  lemma NoSectionsIsSteady(x: string, g: Device)
    ensures Steady(With(x, g, PageState.Pending, map[]))
  {
  }

  /** Recorded as sent here, and after these further steps a claimant is told to send. */
  ghost predicate SentThen(w: World, ss: seq<Step>, x: string, g: Device) {
    && AliasRecorded(w.latches, x, g, Event("e"), true) && g !in w.latches.disk.devices
    && CanRun(w, ss) && Ordinary(w, ss, x)
    && var l := After(w, ss).latches;
       Deliverable(Lookup(l.disk.devices, g), Lookup(l.disk.workers, x), g, WorkerProcess, Event("e"), "").Some?
  }

  lemma ForgottenAfter(w: World, x: string, g: Device, o: Device)
    requires g != o && w == With(x, g, Sent, map[o := Late(x, g), g := Send(x, [], None)])
    ensures SentThen(w, [Store(o)], x, g)
  {
    LateStores(x, g, o);
    hide Apply, Enabled;
    EmptyRun(Apply(w, Store(o)), x);
    Unroll(w, Store(o), [], x);
    assert [Store(o)] + [] == [Store(o)];
  }
}
