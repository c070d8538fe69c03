/** The quarantine latch as a protocol: records on disk and in Redis, one lock per GPU, and
    readers, writers, notifiers, outcome updates and manual clears that each hold the lock of
    the GPU they were called for. A section reads first and then writes one key at a time;
    sections of other GPUs run in between and share the worker records; any section may stop
    between two writes. */
module Latch {
  import opened Coordination
  import opened Quarantine

  datatype Side = Disk | Mirror

  datatype Replica = Replica(devices: map<Device, Record>, workers: map<string, Record>)

  datatype Latches = Latches(disk: Replica, mirror: Replica)

  datatype Put =
    | SetDevice(side: Side, g: Device, record: Record)
    | SetWorker(side: Side, worker: string, record: Record)
    | Drop(side: Side, workers: set<string>, devices: set<Device>)

  function Lookup<K, V>(m: map<K, V>, k: K): Option<V> {
    if k in m then Some(m[k]) else None
  }

  function Changed(r: Replica, p: Put): Replica {
    match p
    case SetDevice(_, g, x) => r.(devices := r.devices[g := x])
    case SetWorker(_, w, x) => r.(workers := r.workers[w := x])
    case Drop(_, ws, gs) => Replica(r.devices - gs, r.workers - ws)
  }

  function Done(l: Latches, p: Put): Latches {
    if p.side.Disk? then l.(disk := Changed(l.disk, p)) else l.(mirror := Changed(l.mirror, p))
  }

  function AllDone(l: Latches, ps: seq<Put>): Latches
    decreases |ps|
  {
    if ps == [] then l else AllDone(Done(l, ps[0]), ps[1..])
  }

  // ----- what each operation writes, given what it has read

  /** _records_for_durable_paths: the GPU's record, if it is a physical latch, and the worker's. */
  function Paths(side: Side, r: Record, w: string): seq<Put> {
    (if r.scope.Physical? && r.hostname != "" && r.index != ""
     then [SetDevice(side, Device(r.hostname, r.index), r)] else [])
    + [SetWorker(side, w, r.(worker := w))]
  }

  /** Whether the disk already holds the merged record as it should be. */
  predicate Ready(s: Sources, w: string, g: Device, m: Record) {
    if m.scope.Physical? then
      var d := Keyed(s.diskDevice, g);
      d.Some? && Repaired(d, w, g) == d && Generation(d.value) == Generation(m)
    else
      var d := s.diskWorker;
      d.Some? && Repaired(d, w, g) == d && d.value.scope.WorkerProcess? && Generation(d.value) == Generation(m)
  }

  /** read_gpu_quarantine, under the lock: the merge is made durable and mirrored. */
  function ReadPlan(s: Sources, w: string, g: Device): seq<Put> {
    var merged := Merged(s, w, g);
    if merged.None? then []
    else
      var m := merged.value;
      (if Ready(s, w, g, m) then [] else Paths(Disk, m, w))
      + (if m.scope.Physical? && Repaired(Keyed(s.redisDevice, g), w, g) != Some(m) 
         then [SetDevice(Mirror, g, m)] else [])
      + (if Repaired(s.redisWorker, w, g) != Some(m.(worker := w)) then [SetWorker(Mirror, w, m.(worker := w))] else [])
  }

  function Existing(dd: Option<Record>, dw: Option<Record>, g: Device): Option<Record> {
    if dd.Some? then Keyed(dd, g) else dw
  }

  /** What a quarantine write stores: an existing latch of the same kind, or the new one. */
  function Preserved(dd: Option<Record>, dw: Option<Record>, w: string, g: Device, latch: Record): Record {
    var found := Existing(dd, dw, g);
    if found.None? then latch
    else
      var r := found.value;
      if IsFor(r, g) || (latch.scope.WorkerProcess? && r.scope.WorkerProcess? && r.worker == w
                         && r.hostname == g.hostname && r.index == g.index)
      then if r.page.state.Unset? then r.(page := r.page.(state := PageState.Pending)) else r
      else latch
  }

  function WritePlan(dd: Option<Record>, dw: Option<Record>, w: string, g: Device, latch: Record): seq<Put> {
    var r := Preserved(dd, dw, w, g, latch);
    Paths(Disk, r, w) + Paths(Mirror, r, w)
  }

  /** The record an outcome update is about, if it is still the expected one. */
  function Target(dd: Option<Record>, dw: Option<Record>, g: Device, scope: Extent,
                  expected: Identity): Option<Record> {
    var r := if scope.WorkerProcess? then dw else Existing(dd, dw, g);
    if r.None? || r.value.scope != scope || Generation(r.value) != expected then None else r
  }

  function UpdatePlan(dd: Option<Record>, dw: Option<Record>, w: string, g: Device, scope: Extent, expected: Identity,
                      state: PageState, note: string): seq<Put> {
    var target := Target(dd, dw, g, scope, expected);
    if target.None? then []
    else
      var r := if !target.value.page.state.Sent? || state.Sent? then target.value.(page := Page(state, note))
          else target.value;
      Paths(Disk, r, w) + Paths(Mirror, r, w)
  }

  /** A notification claim: the record to deliver, if this process is told to send it. */
  function Deliverable(dd: Option<Record>, dw: Option<Record>, g: Device, scope: Extent, input: Identity,
                       note: string): Option<Record> {
    var device := Keyed(dd, g);
    var current := if scope.Physical? then device
                   else if device.Some? then None
                   else if dw.Some? && dw.value.scope == scope then dw else None;
    if current.None? || Generation(current.value) != input || current.value.page.state.Sent? then None
    else Some(current.value.(page := Page(Sending, note)))
  }

  function ClaimPlan(r: Option<Record>, w: string): seq<Put> {
    if r.None? then [] else Paths(Disk, r.value, w)
  }

  function FinishPlan(r: Record, w: string, state: PageState, note: string): seq<Put> {
    Paths(Disk, r.(page := Page(state, note)), w)
  }

  /** The aliases a clear finds: in Redis by key, with an empty scope counting as physical. */
  function MirrorAliases(l: Latches, g: Device): set<string> {
    set x | x in l.mirror.workers && (l.mirror.workers[x].scope.Physical? || l.mirror.workers[x].scope.Missing?)
            && l.mirror.workers[x].hostname == g.hostname && l.mirror.workers[x].index == g.index
  }

  function DiskAliases(l: Latches, g: Device): set<string> {
    set x | x in l.disk.workers && IsFor(l.disk.workers[x], g)
  }

  /** clear_gpu_quarantine, once the Redis aliases are known: disk first, then Redis. */
  function ClearPlan(l: Latches, w: string, g: Device, aliases: set<string>): seq<Put> {
    var names := set x | x in DiskAliases(l, g) && l.disk.workers[x].worker != "" :: l.disk.workers[x].worker;
    [Drop(Disk, DiskAliases(l, g), {}), Drop(Disk, {}, {g}), Drop(Disk, {w}, {}),
     Drop(Mirror, {w} + aliases + names, {g})]
  }

  // ----- the protocol

  datatype Op =
    | Read(worker: string)
    | Write(worker: string, latch: Record)
    | Update(worker: string, scope: Extent, expected: Identity, state: PageState, note: string)
    | Claim(worker: string, scope: Extent, input: Identity, note: string)
    | Clear(worker: string, before: set<string>)

  /** A section that has read the disk, or the Redis aliases, but not yet the rest; then one
      with writes left, and with the record it delivers, if it was told to send one. */
  datatype Stage =
    | Looking(dd: Option<Record>, dw: Option<Record>, aliases: set<string>)
    | Writing(pending: seq<Put>, claim: Option<Record>)

  datatype Section = Section(op: Op, stage: Stage)

  datatype World = World(latches: Latches, sections: map<Device, Section>)

  datatype Step =
    | Begin(g: Device, op: Op)
    | Look(g: Device)
    | Store(g: Device)
    | Finish(g: Device, state: PageState, note: string)
    | Release(g: Device)
    | LoseMirror

  predicate Proper(g: Device, op: Op) {
    match op
    case Write(w, r) =>
      (r.scope.Physical? || r.scope.WorkerProcess?) && r.worker == w && r.hostname == g.hostname && r.index == g.index
      && r.page == Page(PageState.Pending, "") && r.canonical
    case Update(_, scope, _, state, _) =>
      (scope.Physical? || scope.WorkerProcess?) && (state.Pending? || state.Sent? || state.Failed?)
    case Claim(_, scope, _, _) => scope.Physical? || scope.WorkerProcess?
    case _ => true
  }

  /** A lock is exclusive; a stage follows the one before; anything may be released early. */
  predicate Enabled(w: World, s: Step) {
    match s
    case Begin(g, op) => g !in w.sections && Known(g) && Proper(g, op)
    case Look(g) => g in w.sections && w.sections[g].stage.Looking?
        && (w.sections[g].op.Read? || w.sections[g].op.Clear?)
    case Store(g) => g in w.sections && w.sections[g].stage.Writing? && w.sections[g].stage.pending != []
    case Finish(g, state, _) =>
      g in w.sections && w.sections[g].op.Claim? && w.sections[g].stage.Writing? && w.sections[g].stage.pending == []
      && w.sections[g].stage.claim.Some? && (state.Sent? || state.Failed?)
    case Release(g) => g in w.sections
    case LoseMirror => true
  }

  function Opened(l: Latches, g: Device, op: Op): Stage {
    var dd, dw := Lookup(l.disk.devices, g), Lookup(l.disk.workers, op.worker);
    match op
    case Read(_) => Looking(dd, dw, {})
    case Write(x, latch) => Writing(WritePlan(dd, dw, x, g, latch), None)
    case Update(x, scope, expected, state, note) =>
      Writing(UpdatePlan(dd, dw, x, g, scope, expected, state, note), None)
    case Claim(x, scope, input, note) =>
      var r := Deliverable(dd, dw, g, scope, input, note);
      Writing(ClaimPlan(r, x), r)
    case Clear(_, before) => Looking(None, None, before + MirrorAliases(l, g))
  }

  function Looked(l: Latches, g: Device, op: Op, stage: Stage): Stage
    requires stage.Looking? && (op.Read? || op.Clear?)
  {
    if op.Read? then
      var s := Sources(stage.dd, stage.dw, Lookup(l.mirror.devices, g), Lookup(l.mirror.workers, op.worker));
      Writing(ReadPlan(s, op.worker, g), None)
    else Writing(ClearPlan(l, op.worker, g, stage.aliases), None)
  }

  function Apply(w: World, s: Step): World
    requires Enabled(w, s)
  {
    match s
    case Begin(g, op) => w.(sections := w.sections[g := Section(op, Opened(w.latches, g, op))])
    case Look(g) =>
      var x := w.sections[g];
      w.(sections := w.sections[g := x.(stage := Looked(w.latches, g, x.op, x.stage))])
    case Store(g) =>
      var x := w.sections[g];
      World(Done(w.latches, x.stage.pending[0]),
            w.sections[g := x.(stage := x.stage.(pending := x.stage.pending[1..]))])
    case Finish(g, state, note) =>
      var x := w.sections[g];
      var stage := Writing(FinishPlan(x.stage.claim.value, x.op.worker, state, note), None);
      w.(sections := w.sections[g := x.(stage := stage)])
    case Release(g) => w.(sections := w.sections - {g})
    case LoseMirror => w.(latches := w.latches.(mirror := Replica(map[], map[])))
  }

  ghost predicate CanRun(w: World, ss: seq<Step>)
    decreases |ss|
  {
    ss != [] ==> Enabled(w, ss[0]) && CanRun(Apply(w, ss[0]), ss[1..])
  }

  function After(w: World, ss: seq<Step>): World
    requires CanRun(w, ss)
    decreases |ss|
  {
    if ss == [] then w else After(Apply(w, ss[0]), ss[1..])
  }

  // ----- sections write only what belongs to their GPU

  predicate PutFits(p: Put, g: Device) {
    match p
    case SetDevice(_, x, r) => x == g && Fits(r, g)
    case SetWorker(_, _, r) => Fits(r, g)
    case Drop(_, _, gs) => gs <= {g}
  }

  predicate AllFit(ps: seq<Put>, g: Device) {
    forall i :: 0 <= i < |ps| ==> PutFits(ps[i], g)
  }

  lemma PathsFit(side: Side, r: Record, w: string, g: Device)
    requires Fits(r, g) && Known(g)
    ensures AllFit(Paths(side, r, w), g)
  {
  }

  lemma ReadPlanFits(s: Sources, w: string, g: Device)
    requires Known(g)
    ensures AllFit(ReadPlan(s, w, g), g)
  {
    PhysicalIffSomeSourceIs(s, w, g);
    hide Merged, Ready, Repaired, Keyed, Impersonates, Generation;
    var merged := Merged(s, w, g);
    if merged.Some? { PathsFit(Disk, merged.value, w, g); }
  }

  lemma WritePlanFits(dd: Option<Record>, dw: Option<Record>, w: string, g: Device, latch: Record)
    requires Known(g) && Proper(g, Write(w, latch))
    ensures AllFit(WritePlan(dd, dw, w, g, latch), g)
  {
    var r := Preserved(dd, dw, w, g, latch);
    PathsFit(Disk, r, w, g);
    PathsFit(Mirror, r, w, g);
  }

  /** An outcome update stays within its GPU exactly when the worker record it falls back on
      does not name another one. */
  predicate Aimed(dd: Option<Record>, dw: Option<Record>, g: Device, scope: Extent, expected: Identity) {
    scope.Physical? && dd.None? && dw.Some? && dw.value.scope.Physical? && Generation(dw.value) == expected ==>
      IsFor(dw.value, g)
  }

  lemma UpdateFitsIffAimed(dd: Option<Record>, dw: Option<Record>, w: string, g: Device, scope: Extent,
                           expected: Identity,
                           state: PageState, note: string)
    requires Known(g) && (scope.Physical? || scope.WorkerProcess?)
    ensures AllFit(UpdatePlan(dd, dw, w, g, scope, expected, state, note), g) <==> Aimed(dd, dw, g, scope, expected)
  {
    var target := Target(dd, dw, g, scope, expected);
    if target.Some? {
      var r := if !target.value.page.state.Sent? || state.Sent? then target.value.(page := Page(state, note))
          else target.value;
      var plan := UpdatePlan(dd, dw, w, g, scope, expected, state, note);
      assert plan == Paths(Disk, r, w) + Paths(Mirror, r, w);
      if Aimed(dd, dw, g, scope, expected) {
        PathsFit(Disk, r, w, g);
        PathsFit(Mirror, r, w, g);
      } else {
        assert plan[|plan| - 1] == SetWorker(Mirror, w, r.(worker := w)) && !PutFits(plan[|plan| - 1], g);
      }
    }
  }

  lemma ClaimFits(dd: Option<Record>, dw: Option<Record>, w: string, g: Device, scope: Extent, input: Identity,
                  note: string)
    requires Known(g) && (scope.Physical? || scope.WorkerProcess?)
    ensures var r := Deliverable(dd, dw, g, scope, input, note);
            AllFit(ClaimPlan(r, w), g) && (r.Some? ==> Fits(r.value, g))
  {
    var r := Deliverable(dd, dw, g, scope, input, note);
    if r.Some? { PathsFit(Disk, r.value, w, g); }
  }
}
