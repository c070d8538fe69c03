/** A completed manual clear is never revived, and exactly what a clear must find for that. */
module Clearing {
  import opened Coordination
  import opened Quarantine
  import opened Latch

  // ----- no section writes for another GPU

  ghost predicate SectionFits(x: Section, g: Device) {
    Known(g) && Proper(g, x.op)
    && (x.stage.Writing? ==> AllFit(x.stage.pending, g) && (x.stage.claim.Some? ==> Fits(x.stage.claim.value, g)))
  }

  ghost predicate Steady(w: World) {
    forall g :: g in w.sections ==> SectionFits(w.sections[g], g)
  }

  /** An outcome update that starts here does not fall back on a worker record of another GPU. */
  predicate AimedStep(w: World, s: Step) {
    s.Begin? && s.op.Update? ==>
      Aimed(Lookup(w.latches.disk.devices, s.g), Lookup(w.latches.disk.workers, s.op.worker), s.g, s.op.scope,
            s.op.expected)
  }

  lemma OpenedFits(l: Latches, g: Device, op: Op)
    requires Known(g) && Proper(g, op)
    requires op.Update? ==> Aimed(Lookup(l.disk.devices, g), Lookup(l.disk.workers, op.worker), g, op.scope,
                                  op.expected)
    ensures SectionFits(Section(op, Opened(l, g, op)), g)
  {
    hide ClaimPlan, UpdatePlan, WritePlan, Deliverable, Fits, PutFits, MirrorAliases;
    var dd, dw := Lookup(l.disk.devices, g), Lookup(l.disk.workers, op.worker);
    if op.Write? {
      WritePlanFits(dd, dw, op.worker, g, op.latch);
    } else if op.Update? {
      UpdateFitsIffAimed(dd, dw, op.worker, g, op.scope, op.expected, op.state, op.note);
    } else if op.Claim? {
      ClaimFits(dd, dw, op.worker, g, op.scope, op.input, op.note);
    }
  }

  lemma LookedFits(l: Latches, g: Device, x: Section)
    requires SectionFits(x, g) && x.stage.Looking? && (x.op.Read? || x.op.Clear?)
    ensures SectionFits(x.(stage := Looked(l, g, x.op, x.stage)), g)
  {
    hide ReadPlan, Fits;
    if x.op.Read? {
      ReadPlanFits(Sources(x.stage.dd, x.stage.dw, Lookup(l.mirror.devices, g), Lookup(l.mirror.workers, x.op.worker)),
                   x.op.worker, g);
    }
  }

  lemma FinishFits(r: Record, w: string, state: PageState, note: string, g: Device)
    requires Fits(r, g) && Known(g)
    ensures AllFit(FinishPlan(r, w, state, note), g)
  {
    PathsFit(Disk, r.(page := Page(state, note)), w, g);
  }

  lemma SteadyStays(w: World, s: Step)
    requires Steady(w) && Enabled(w, s) && AimedStep(w, s)
    ensures Steady(Apply(w, s))
  {
    hide Opened, Looked, Done, FinishPlan, Fits, Aimed, PutFits, Proper;
    match s
    case Begin(g, op) => OpenedFits(w.latches, g, op);
    case Look(g) => LookedFits(w.latches, g, w.sections[g]);
    case Finish(g, state, note) => FinishFits(w.sections[g].stage.claim.value, w.sections[g].op.worker, state, note, g);
    case _ =>
  }

  // ----- a clear state stays clear

  /** Nothing anywhere closes this GPU, nor would close it after being read. */
  ghost predicate Clean(l: Latches, g: Device) {
    && g !in l.disk.devices && g !in l.mirror.devices
    && (forall x :: x in l.disk.workers ==> !Impersonates(l.disk.workers[x], g))
    && (forall x :: x in l.mirror.workers ==> !Impersonates(l.mirror.workers[x], g))
  }

  predicate MilderPut(p: Put) {
    !p.SetDevice? && (p.SetWorker? ==> p.record.scope.WorkerProcess?)
  }

  /** A section of the GPU that has seen nothing to revive and writes nothing that could. */
  ghost predicate Mild(x: Section, g: Device) {
    && !x.op.Write?
    && match x.stage
       case Looking(dd, dw, _) => x.op.Read? ==> dd.None? && (dw.Some? ==> !Impersonates(dw.value, g))
       case Writing(pending, claim) =>
         (forall i :: 0 <= i < |pending| ==> MilderPut(pending[i]))
             && (claim.Some? ==> claim.value.scope.WorkerProcess?)
  }

  ghost predicate Quiet(w: World, g: Device) {
    Clean(w.latches, g) && (g in w.sections ==> Mild(w.sections[g], g))
  }

  lemma OpenedMild(l: Latches, g: Device, op: Op)
    requires Clean(l, g) && Known(g) && Proper(g, op) && !op.Write?
    requires op.Update? ==> Aimed(Lookup(l.disk.devices, g), Lookup(l.disk.workers, op.worker), g, op.scope,
                                  op.expected)
    ensures Mild(Section(op, Opened(l, g, op)), g)
  {
    hide Generation, MirrorAliases;
    if op.Update? {
      assert Target(None, Lookup(l.disk.workers, op.worker), g, op.scope, op.expected).Some?
          ==> op.scope.WorkerProcess?;
    }
  }

  lemma LookedMild(l: Latches, g: Device, x: Section)
    requires Clean(l, g) && SectionFits(x, g) && Mild(x, g) && x.stage.Looking? && (x.op.Read? || x.op.Clear?)
    ensures Mild(x.(stage := Looked(l, g, x.op, x.stage)), g)
  {
    hide Merged, Ready, Repaired, Keyed, Generation;
    if x.op.Read? {
      PhysicalIffSomeSourceIs(Sources(x.stage.dd, x.stage.dw, Lookup(l.mirror.devices, g),
                                      Lookup(l.mirror.workers, x.op.worker)), x.op.worker, g);
    }
  }

  lemma MildPut(l: Latches, g: Device, p: Put)
    requires Clean(l, g) && MilderPut(p)
    ensures Clean(Done(l, p), g)
  {
  }

  lemma ForeignPut(l: Latches, g: Device, p: Put, other: Device)
    requires Clean(l, g) && PutFits(p, other) && other != g && Known(other)
    ensures Clean(Done(l, p), g)
  {
  }

  /** Without a new quarantine write for the GPU, a clean GPU stays clean, whatever readers,
      notifiers, outcome updates and clears are in flight on it or on others. */
  lemma CleanStays(w: World, s: Step, g: Device)
    requires Steady(w) && Quiet(w, g) && Enabled(w, s) && AimedStep(w, s)
    requires !(s.Begin? && s.g == g && s.op.Write?)
    ensures Quiet(Apply(w, s), g)
  {
    hide Opened, Looked, Done, Fits, Aimed, PutFits, Proper, Impersonates, MilderPut;
    if s.Begin? && s.g == g {
      OpenedMild(w.latches, g, s.op);
    } else if s.Look? && s.g == g {
      LookedMild(w.latches, g, w.sections[g]);
    } else if s.Store? {
      assert SectionFits(w.sections[s.g], s.g);
      var p := w.sections[s.g].stage.pending[0];
      if s.g == g { MildPut(w.latches, g, p); } else { ForeignPut(w.latches, g, p, s.g); }
    } else if s.Finish? && s.g == g {
      FinishMild(w.sections[g].stage.claim.value, w.sections[g].op.worker, s.state, s.note);
    }
  }

  lemma FinishMild(r: Record, w: string, state: PageState, note: string)
    requires r.scope.WorkerProcess?
    ensures forall i :: 0 <= i < |FinishPlan(r, w, state, note)| ==> MilderPut(FinishPlan(r, w, state, note)[i])
  {
  }

  /** A run in which no quarantine write is started for the GPU and every outcome update is
      aimed. */
  ghost predicate Undisturbed(w: World, ss: seq<Step>, g: Device)
    requires CanRun(w, ss)
    decreases |ss|
  {
    ss != [] ==>
        AimedStep(w, ss[0]) && !(ss[0].Begin? && ss[0].g == g && ss[0].op.Write?)
        && Undisturbed(Apply(w, ss[0]), ss[1..], g)
  }

  lemma {:induction false} NeverRevived(w: World, ss: seq<Step>, g: Device)
    requires Steady(w) && Quiet(w, g) && CanRun(w, ss) && Undisturbed(w, ss, g)
    ensures Steady(After(w, ss)) && Quiet(After(w, ss), g)
    decreases |ss|
  {
    hide Steady, Quiet, Enabled, Apply, AimedStep;
    if ss != [] {
      SteadyStays(w, ss[0]);
      CleanStays(w, ss[0], g);
      NeverRevived(Apply(w, ss[0]), ss[1..], g);
    }
  }

  // ----- what a clear leaves

  /** A record a clear would overlook: it would close the GPU when read, but is not one the
      clear recognises, because its scope, hostname or device is missing or unknown. */
  predicate Overlooked(side: Side, r: Record, g: Device) {
    Impersonates(r, g) && !(r.hostname == g.hostname && r.index == g.index
                            && (r.scope.Physical? || (side.Mirror? && r.scope.Missing?)))
  }

  /** No worker record but those the clear names is one it would overlook. */
  ghost predicate Legible(l: Latches, g: Device, onDisk: set<string>, inMirror: set<string>) {
    && (forall x :: x in l.disk.workers && x !in onDisk ==> !Overlooked(Disk, l.disk.workers[x], g))
    && (forall x :: x in l.mirror.workers && x !in inMirror ==> !Overlooked(Mirror, l.mirror.workers[x], g))
  }

  /** An uninterrupted clear leaves the GPU clean exactly when it has overlooked nothing. */
  lemma ClearCleansIffLegible(l: Latches, g: Device, w: string, before: set<string>)
    requires Known(g)
    ensures var plan := ClearPlan(l, w, g, before + MirrorAliases(l, g));
            Clean(AllDone(l, plan), g) <==> Legible(l, g, {w}, plan[3].workers)
  {
    var plan := ClearPlan(l, w, g, before + MirrorAliases(l, g));
    var d := AllDone(l, plan);
    DropsOneByOne(l, w, g, before + MirrorAliases(l, g));
    if Clean(d, g) {
      forall x | x in l.disk.workers && x != w ensures !Overlooked(Disk, l.disk.workers[x], g) {
        assert x in d.disk.workers || x in DiskAliases(l, g);
      }
      forall x | x in l.mirror.workers && x !in plan[3].workers ensures !Overlooked(Mirror, l.mirror.workers[x], g) {
        assert x in d.mirror.workers;
      }
    } else if Legible(l, g, {w}, plan[3].workers) {
      forall x | x in d.disk.workers ensures !Impersonates(d.disk.workers[x], g) {
        assert x in l.disk.workers && !Overlooked(Disk, l.disk.workers[x], g);
      }
      forall x | x in d.mirror.workers ensures !Impersonates(d.mirror.workers[x], g) {
        assert x in l.mirror.workers && !Overlooked(Mirror, l.mirror.workers[x], g);
      }
    }
  }

  lemma DropsOneByOne(l: Latches, w: string, g: Device, aliases: set<string>)
    ensures var plan := ClearPlan(l, w, g, aliases);
            AllDone(l, plan) == Latches(Replica(l.disk.devices - {g}, l.disk.workers - (DiskAliases(l, g) + {w})),
                                        Replica(l.mirror.devices - {g}, l.mirror.workers - plan[3].workers))
  {
    var plan := ClearPlan(l, w, g, aliases);
    hide DiskAliases, MirrorAliases, AllDone;
    FourDone(l, plan);
    var d := Done(Done(Done(Done(l, plan[0]), plan[1]), plan[2]), plan[3]);
    assert d.disk.devices == l.disk.devices - {g} && d.disk.workers == l.disk.workers - (DiskAliases(l, g) + {w});
  }

  /** And it takes nothing else: other GPUs' records stay, and of the worker records only the
      clearing worker's, the GPU's physical aliases, and in Redis the names found before or in
      those aliases go. */
  lemma ClearSparesOthers(l: Latches, g: Device, w: string, before: set<string>, o: Device, x: string)
    ensures var d := AllDone(l, ClearPlan(l, w, g, before + MirrorAliases(l, g)));
            && Lookup(d.disk.devices, o) == (if o == g then None else Lookup(l.disk.devices, o))
            && Lookup(d.mirror.devices, o) == (if o == g then None else Lookup(l.mirror.devices, o))
            && Lookup(d.disk.workers, x) ==
               (if x == w || (x in l.disk.workers && IsFor(l.disk.workers[x], g)) then None
                else Lookup(l.disk.workers, x))
            && (x in l.mirror.workers ==> (x !in d.mirror.workers <==>
                  || x == w || x in before
                  || ((l.mirror.workers[x].scope == Physical || l.mirror.workers[x].scope == Missing)
                      && l.mirror.workers[x].hostname == g.hostname && l.mirror.workers[x].index == g.index)
                  || (x != "" && exists y :: y in l.disk.workers && IsFor(l.disk.workers[y], g)
                                             && l.disk.workers[y].worker == x)))
            && (x in d.mirror.workers ==> x in l.mirror.workers && d.mirror.workers[x] == l.mirror.workers[x])
  {
    DropsOneByOne(l, w, g, before + MirrorAliases(l, g));
  }

  lemma FourDone(l: Latches, ps: seq<Put>)
    requires |ps| == 4
    ensures AllDone(l, ps) == Done(Done(Done(Done(l, ps[0]), ps[1]), ps[2]), ps[3])
  {
    hide Done;
    var a := Done(l, ps[0]);
    var b := Done(a, ps[1]);
    var c := Done(b, ps[2]);
    assert ps[1..][1..] == ps[2..] && ps[2..][1..] == ps[3..] && ps[3..][1..] == [];
    assert AllDone(l, ps) == AllDone(a, ps[1..]);
    assert AllDone(a, ps[1..]) == AllDone(b, ps[2..]);
    assert AllDone(b, ps[2..]) == AllDone(c, ps[3..]);
    assert AllDone(c, ps[3..]) == AllDone(Done(c, ps[3]), []);
  }

  /** And an overlooked worker record is no small matter: the next reader of that worker on
      that GPU writes a physical latch for it. */
  lemma OverlookedIsRevived(s: Sources, w: string, g: Device)
    requires Known(g)
    requires (s.diskWorker.Some? && Impersonates(s.diskWorker.value, g))
            || (s.redisWorker.Some? && Impersonates(s.redisWorker.value, g))
    requires s.diskDevice.None?
    ensures exists r :: SetDevice(Disk, g, r) in ReadPlan(s, w, g) && IsFor(r, g)
  {
    PhysicalIffSomeSourceIs(s, w, g);
    hide Merged, Repaired, Generation;
    var m := Merged(s, w, g).value;
    assert !Ready(s, w, g, m);
    assert Paths(Disk, m, w)[0] == SetDevice(Disk, g, m);
  }

  // ----- a clear among other sections

  ghost predicate DropsWorker(ps: seq<Put>, side: Side, x: string) {
    exists i :: 0 <= i < |ps| && ps[i].Drop? && ps[i].side == side && x in ps[i].workers
  }

  ghost predicate DropsDevice(ps: seq<Put>, side: Side, g: Device) {
    exists i :: 0 <= i < |ps| && ps[i].Drop? && ps[i].side == side && g in ps[i].devices
  }

  /** Whatever still closes the GPU is about to be dropped. */
  ghost predicate Covered(l: Latches, ps: seq<Put>, g: Device) {
    && (forall i :: 0 <= i < |ps| ==> ps[i].Drop?)
    && (g in l.disk.devices ==> DropsDevice(ps, Disk, g))
    && (g in l.mirror.devices ==> DropsDevice(ps, Mirror, g))
    && (forall x :: x in l.disk.workers && Impersonates(l.disk.workers[x], g) ==> DropsWorker(ps, Disk, x))
    && (forall x :: x in l.mirror.workers && Impersonates(l.mirror.workers[x], g) ==> DropsWorker(ps, Mirror, x))
  }

  /** A clear of the GPU is under way and will have overlooked nothing. */
  ghost predicate Closing(w: World, g: Device) {
    && g in w.sections && w.sections[g].op.Clear?
    && var x := w.sections[g];
       match x.stage
       case Looking(_, _, aliases) => Legible(w.latches, g, {x.op.worker}, {x.op.worker} + aliases)
                                      && (forall n :: n in MirrorAliases(w.latches, g) ==> n in aliases)
       case Writing(pending, claim) => Covered(w.latches, pending, g) && claim.None?
  }

  lemma PlanCovers(l: Latches, w: string, g: Device, aliases: set<string>)
    requires Legible(l, g, {w}, {w} + aliases) && forall n :: n in MirrorAliases(l, g) ==> n in aliases
    ensures Covered(l, ClearPlan(l, w, g, aliases), g)
  {
    var plan := ClearPlan(l, w, g, aliases);
    assert g in plan[1].devices && g in plan[3].devices;
    forall x | x in l.disk.workers && Impersonates(l.disk.workers[x], g) ensures DropsWorker(plan, Disk, x) {
      if x == w { assert x in plan[2].workers; } else { assert x in plan[0].workers; }
    }
    forall x | x in l.mirror.workers && Impersonates(l.mirror.workers[x], g) ensures DropsWorker(plan, Mirror, x) {
      assert x in plan[3].workers;
    }
  }

  lemma OwnDrop(l: Latches, ps: seq<Put>, g: Device)
    requires Covered(l, ps, g) && ps != []
    ensures Covered(Done(l, ps[0]), ps[1..], g)
  {
    var d := Done(l, ps[0]);
    forall side, x | DropsWorker(ps, side, x)
      ensures DropsWorker(ps[1..], side, x) || (side == ps[0].side && x in ps[0].workers)
    {
      var i :| 0 <= i < |ps| && ps[i].Drop? && ps[i].side == side && x in ps[i].workers;
      if i > 0 { assert ps[1..][i - 1] == ps[i]; }
    }
    forall side | DropsDevice(ps, side, g)
      ensures DropsDevice(ps[1..], side, g) || (side == ps[0].side && g in ps[0].devices)
    {
      var i :| 0 <= i < |ps| && ps[i].Drop? && ps[i].side == side && g in ps[i].devices;
      if i > 0 { assert ps[1..][i - 1] == ps[i]; }
    }
    hide DropsWorker, DropsDevice, Impersonates;
  }

  lemma ForeignDrop(l: Latches, ps: seq<Put>, g: Device, p: Put, other: Device)
    requires Covered(l, ps, g) && PutFits(p, other) && other != g && Known(other)
    ensures Covered(Done(l, p), ps, g)
  {
    hide DropsWorker, DropsDevice;
  }

  lemma ForeignLegible(l: Latches, g: Device, onDisk: set<string>, inMirror: set<string>, p: Put, other: Device)
    requires Legible(l, g, onDisk, inMirror) && PutFits(p, other) && other != g && Known(other)
    requires forall n :: n in MirrorAliases(l, g) ==> n in inMirror
    ensures Legible(Done(l, p), g, onDisk, inMirror) && forall n :: n in MirrorAliases(Done(l, p), g) ==> n in inMirror
  {
  }

  /** The clear keeps its grip whatever the other sections do, until it ends. */
  lemma ClosingStays(w: World, s: Step, g: Device)
    requires Steady(w) && Closing(w, g) && Enabled(w, s) && AimedStep(w, s) && s != Release(g)
    ensures Closing(Apply(w, s), g)
  {
    hide Opened, Done, Fits, Aimed, PutFits, Proper, Covered, ClearPlan;
    var x := w.sections[g];
    if s.Look? && s.g == g {
      PlanCovers(w.latches, x.op.worker, g, x.stage.aliases);
    } else if s.Store? {
      assert SectionFits(w.sections[s.g], s.g);
      var p := w.sections[s.g].stage.pending[0];
      if s.g == g {
        OwnDrop(w.latches, x.stage.pending, g);
      } else if x.stage.Writing? {
        ForeignDrop(w.latches, x.stage.pending, g, p, s.g);
      } else {
        hide Legible, MirrorAliases;
        StillLegible(w, s, g, p);
      }
    } else if s.LoseMirror? {
      LostMirror(w.latches, if x.stage.Writing? then x.stage.pending else [], g);
    }
  }

  lemma StillLegible(w: World, s: Step, g: Device, p: Put)
    requires Closing(w, g) && w.sections[g].stage.Looking? && s.Store? && Enabled(w, s) && s.g != g
    requires p == w.sections[s.g].stage.pending[0] && PutFits(p, s.g) && Known(s.g)
    ensures Closing(Apply(w, s), g)
  {
    hide Done, PutFits, Covered, ClearPlan, Opened, Overlooked;
    var x := w.sections[g];
    var aliases := x.stage.aliases;
    assert Legible(w.latches, g, {x.op.worker}, {x.op.worker} + aliases);
    forall n | n in MirrorAliases(Done(w.latches, p), g) ensures n in aliases {
      NewAlias(w.latches, p, g, s.g, n);
    }
    hide MirrorAliases, Legible;
    ForeignLegible(w.latches, g, {x.op.worker}, {x.op.worker} + aliases, p, s.g);
  }

  lemma NewAlias(l: Latches, p: Put, g: Device, other: Device, n: string)
    requires PutFits(p, other) && other != g && n in MirrorAliases(Done(l, p), g)
    ensures n in MirrorAliases(l, g)
  {
  }

  lemma LostMirror(l: Latches, ps: seq<Put>, g: Device)
    ensures var d := l.(mirror := Replica(map[], map[]));
            && (Covered(l, ps, g) ==> Covered(d, ps, g))
            && MirrorAliases(d, g) == {}
            && forall a, b :: Legible(l, g, a, b) ==> Legible(d, g, a, b)
  {
    hide DropsWorker, DropsDevice, Impersonates, Overlooked;
  }

  /** Every aimed step but the end of this GPU's section. */
  ghost predicate Unbroken(w: World, ss: seq<Step>, g: Device)
    requires CanRun(w, ss)
    decreases |ss|
  {
    ss != [] ==> AimedStep(w, ss[0]) && ss[0] != Release(g) && Unbroken(Apply(w, ss[0]), ss[1..], g)
  }

  lemma {:induction false} ClosingThroughout(w: World, ss: seq<Step>, g: Device)
    requires Steady(w) && Closing(w, g) && CanRun(w, ss) && Unbroken(w, ss, g)
    ensures Steady(After(w, ss)) && Closing(After(w, ss), g)
    decreases |ss|
  {
    hide Steady, Closing, Enabled, Apply, AimedStep;
    if ss != [] {
      SteadyStays(w, ss[0]);
      ClosingStays(w, ss[0], g);
      ClosingThroughout(Apply(w, ss[0]), ss[1..], g);
    }
  }

  predicate Cleared(w: World, g: Device) {
    g in w.sections && w.sections[g].op.Clear? && w.sections[g].stage.Writing? && w.sections[g].stage.pending == []
  }

  lemma ClearedIsQuiet(w: World, g: Device)
    requires Closing(w, g) && Cleared(w, g)
    ensures Quiet(w, g)
  {
  }

  lemma ClearBegins(w: World, g: Device, worker: string, before: set<string>)
    requires Enabled(w, Begin(g, Clear(worker, before)))
    requires Legible(w.latches, g, {worker}, {worker} + before + MirrorAliases(w.latches, g))
    ensures Closing(Apply(w, Begin(g, Clear(worker, before))), g)
  {
    assert {worker} + before + MirrorAliases(w.latches, g) == {worker} + (before + MirrorAliases(w.latches, g));
  }

  /** A clear that finds nothing it would overlook, whatever other sections run while it
      works, leaves the GPU clean when it is done; and clean it stays, whatever was in flight
      anywhere, until a quarantine write is started for it. */
  lemma ClearIsFinal(w: World, g: Device, worker: string, before: set<string>, during: seq<Step>, after: seq<Step>)
    requires Steady(w) && Enabled(w, Begin(g, Clear(worker, before)))
    requires Legible(w.latches, g, {worker}, {worker} + before + MirrorAliases(w.latches, g))
    requires var w1 := Apply(w, Begin(g, Clear(worker, before)));
             CanRun(w1, during) && Unbroken(w1, during, g) && Cleared(After(w1, during), g)
    requires var w2 := After(Apply(w, Begin(g, Clear(worker, before))), during);
             CanRun(w2, after) && Undisturbed(w2, after, g)
    ensures var w2 := After(Apply(w, Begin(g, Clear(worker, before))), during);
            Clean(w2.latches, g) && Clean(After(w2, after).latches, g)
  {
    hide CanRun, After, Unbroken, Undisturbed, Closing, Clean, Legible;
    var w1 := Apply(w, Begin(g, Clear(worker, before)));
    SteadyStays(w, Begin(g, Clear(worker, before)));
    ClearBegins(w, g, worker, before);
    ClosingThroughout(w1, during, g);
    ClearedIsQuiet(After(w1, during), g);
    NeverRevived(After(w1, during), after, g);
  }

  /** Why updates have to be aimed: one that fell back on a worker record of another GPU, read
      before that GPU was cleared, revives the other latch with its very first write. */
  lemma UnaimedUpdateRevives(dd: Option<Record>, dw: Option<Record>, g: Device, w: string, expected: Identity,
                             state: PageState, note: string,
                             cleared: Latches, other: Device)
    requires !Aimed(dd, dw, g, Physical, expected)
    requires Known(other) && IsFor(dw.value, other) && Clean(cleared, other)
    ensures var plan := UpdatePlan(dd, dw, w, g, Physical, expected, state, note);
            plan != [] && !Clean(Done(cleared, plan[0]), other)
  {
  }
}
