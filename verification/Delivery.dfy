/** Paging for physical latches: once a delivery is durably recorded as sent in the GPU's
    record, nobody is told to send again. WorkerDelivery is about worker latches. */
module Delivery {
  import opened Coordination
  import opened Quarantine
  import opened Latch
  import opened Clearing

  /** A physical record of this generation as a reader of the GPU sees it; with `sent`, one that
      is marked sent. What is proved for both comes to two results: sent pages stay sent, and
      (in Paging) a page that is due stays due. */
  predicate Bears(r: Record, g: Device, id: Identity, sent: bool) {
    (sent ==> r.page.state.Sent?) && Generation(Keyed(Some(r), g).value) == id
  }

  predicate Recorded(l: Latches, g: Device, id: Identity, sent: bool) {
    g in l.disk.devices && Bears(l.disk.devices[g], g, id, sent)
  }

  predicate Keeps(p: Put, g: Device, id: Identity, sent: bool) {
    match p
    case SetDevice(side, x, r) => side.Disk? && x == g ==> Bears(r, g, id, sent)
    case SetWorker(_, _, _) => true
    case Drop(side, _, gs) => side.Disk? ==> g !in gs
  }

  predicate AllKeep(ps: seq<Put>, g: Device, id: Identity, sent: bool) {
    forall i :: 0 <= i < |ps| ==> Keeps(ps[i], g, id, sent)
  }

  /** A section of the GPU that will leave the record as it is and delivers no other page, nor
      one that is sent. */
  ghost predicate Faithful(l: Latches, x: Section, g: Device, id: Identity, sent: bool) {
    !x.op.Clear?
    && match x.stage
       case Looking(dd, _, _) => dd == Lookup(l.disk.devices, g)
       case Writing(pending, claim) =>
         && AllKeep(pending, g, id, sent)
         && (claim.Some? ==> !sent && claim.value.scope.Physical? && Bears(claim.value, g, id, sent))
  }

  ghost predicate Settled(w: World, g: Device, id: Identity, sent: bool) {
    Recorded(w.latches, g, id, sent) && (g in w.sections ==> Faithful(w.latches, w.sections[g], g, id, sent))
  }

  lemma PathsKeep(side: Side, r: Record, w: string, g: Device, id: Identity, sent: bool)
    requires r.scope.Physical? && Device(r.hostname, r.index) == g ==> Bears(r, g, id, sent)
    ensures AllKeep(Paths(side, r, w), g, id, sent)
  {
  }

  lemma OpenedFaithful(l: Latches, g: Device, op: Op, id: Identity, sent: bool)
    requires Recorded(l, g, id, sent) && Known(g) && Proper(g, op) && !op.Clear?
    ensures Faithful(l, Section(op, Opened(l, g, op)), g, id, sent)
  {
    var dd, dw := Lookup(l.disk.devices, g), Lookup(l.disk.workers, op.worker);
    if op.Write? {
      var r := Preserved(dd, dw, op.worker, g, op.latch);
      PathsKeep(Disk, r, op.worker, g, id, sent);
      PathsKeep(Mirror, r, op.worker, g, id, sent);
    } else if op.Update? {
      var target := Target(dd, dw, g, op.scope, op.expected);
      if target.Some? {
        var r := if !target.value.page.state.Sent? || op.state.Sent? then target.value.(page := Page(op.state, op.note))
            else target.value;
        SamePageSameGeneration(Keyed(dd, g).value, Page(op.state, op.note));
        PathsKeep(Disk, r, op.worker, g, id, sent);
        PathsKeep(Mirror, r, op.worker, g, id, sent);
      }
    } else if op.Claim? {
      if sent { NobodyIsTold(l, g, id, dw, op.scope, op.input, op.note); }
      var r := Deliverable(dd, dw, g, op.scope, op.input, op.note);
      if r.Some? {
        SamePageSameGeneration(Keyed(dd, g).value, Page(Sending, op.note));
        PathsKeep(Disk, r.value, op.worker, g, id, sent);
      }
    }
  }

  /** While the record says sent, every claim on the GPU is told not to send: for its own
      generation as a duplicate, for any other and for a mere worker latch as superseded. */
  lemma NobodyIsTold(l: Latches, g: Device, id: Identity, dw: Option<Record>, scope: Extent, input: Identity,
                     note: string)
    requires Recorded(l, g, id, true)
    ensures Deliverable(Lookup(l.disk.devices, g), dw, g, scope, input, note) == None
  {
  }

  lemma LookedFaithful(l: Latches, g: Device, x: Section, id: Identity, sent: bool)
    requires Recorded(l, g, id, sent) && Known(g) && Faithful(l, x, g, id, sent) && x.stage.Looking? && x.op.Read?
    ensures Faithful(l, x.(stage := Looked(l, g, x.op, x.stage)), g, id, sent)
  {
    var s := Sources(x.stage.dd, x.stage.dw, Lookup(l.mirror.devices, g), Lookup(l.mirror.workers, x.op.worker));
    DurableDeviceRules(s, x.op.worker, g);
    var m := Merged(s, x.op.worker, g).value;
    hide Merged, Ready, Repaired;
    assert Keyed(Some(m), g) == Some(m);
    PathsKeep(Disk, m, x.op.worker, g, id, sent);
  }

  lemma StoreKeeps(l: Latches, p: Put, g: Device, id: Identity, sent: bool)
    requires Recorded(l, g, id, sent) && Keeps(p, g, id, sent)
    ensures Recorded(Done(l, p), g, id, sent)
  {
  }

  lemma ForeignStoreKeeps(l: Latches, p: Put, g: Device, other: Device)
    requires PutFits(p, other) && other != g
    ensures Lookup(Done(l, p).disk.devices, g) == Lookup(l.disk.devices, g)
  {
  }

  lemma SettledStays(w: World, s: Step, g: Device, id: Identity, sent: bool)
    requires Steady(w) && Settled(w, g, id, sent) && Enabled(w, s)
    requires !(s.Begin? && s.g == g && s.op.Clear?)
    ensures Settled(Apply(w, s), g, id, sent)
  {
    hide Opened, Looked, Done, Fits, PutFits, Proper, Bears, Keeps, FinishPlan;
    if s.Begin? && s.g == g {
      OpenedFaithful(w.latches, g, s.op, id, sent);
    } else if s.Look? && s.g == g {
      assert SectionFits(w.sections[g], g);
      LookedFaithful(w.latches, g, w.sections[g], id, sent);
    } else if s.Store? {
      assert SectionFits(w.sections[s.g], s.g);
      var p := w.sections[s.g].stage.pending[0];
      if s.g == g { StoreKeeps(w.latches, p, g, id, sent); } else { ForeignStoreKeeps(w.latches, p, g, s.g); }
    } else if s.Finish? && s.g == g {
      FinishKeeps(w.sections[g].stage.claim.value, w.sections[g].op.worker, s.state, s.note, g, id);
    }
  }

  lemma FinishKeeps(r: Record, w: string, state: PageState, note: string, g: Device, id: Identity)
    requires r.scope.Physical? && Bears(r, g, id, false)
    ensures AllKeep(FinishPlan(r, w, state, note), g, id, false)
  {
    SamePageSameGeneration(Keyed(Some(r), g).value, Page(state, note));
    PathsKeep(Disk, r.(page := Page(state, note)), w, g, id, false);
  }

  /** A run of aimed steps in which no clear of the GPU is started. */
  ghost predicate Uncleared(w: World, ss: seq<Step>, g: Device)
    requires CanRun(w, ss)
    decreases |ss|
  {
    ss != [] ==>
        AimedStep(w, ss[0]) && !(ss[0].Begin? && ss[0].g == g && ss[0].op.Clear?)
        && Uncleared(Apply(w, ss[0]), ss[1..], g)
  }

  /** Recorded as sent, sent for good: through every run without a clear, with senders
      crashing anywhere, the record keeps its generation and its mark, and no process that
      claims a delivery on this GPU is told to send. */
  lemma {:induction false} SentForGood(w: World, ss: seq<Step>, g: Device, id: Identity, worker: string, scope: Extent,
                                       input: Identity, note: string)
    requires Steady(w) && Settled(w, g, id, true) && CanRun(w, ss) && Uncleared(w, ss, g)
    ensures Recorded(After(w, ss).latches, g, id, true)
    ensures var l := After(w, ss).latches;
            Deliverable(Lookup(l.disk.devices, g), Lookup(l.disk.workers, worker), g, scope, input, note) == None
    decreases |ss|
  {
    hide Steady, Enabled, Apply, AimedStep, Deliverable, Bears;
    if ss == [] {
      NobodyIsTold(w.latches, g, id, Lookup(w.latches.disk.workers, worker), scope, input, note);
    } else {
      hide Settled;
      SteadyStays(w, ss[0]);
      SettledStays(w, ss[0], g, id, true);
      SentForGood(Apply(w, ss[0]), ss[1..], g, id, worker, scope, input, note);
    }
  }

  /** Where that begins: a sender that reports success and writes its first record. */
  lemma FinishRecords(w: World, g: Device, note: string)
    requires Steady(w) && Enabled(w, Finish(g, Sent, note)) && w.sections[g].stage.claim.value.scope.Physical?
    ensures var w1 := Apply(w, Finish(g, Sent, note));
            && Enabled(w1, Store(g))
            && Settled(Apply(w1, Store(g)), g, Generation(w.sections[g].stage.claim.value), true)
  {
    assert SectionFits(w.sections[g], g);
    var r := w.sections[g].stage.claim.value;
    SamePageSameGeneration(r, Page(Sent, note));
    hide Generation, Opened, Looked;
    var sent := r.(page := Page(Sent, note));
    assert Keyed(Some(sent), g) == Some(sent);
    assert FinishPlan(r, w.sections[g].op.worker, Sent, note)[1..] == [SetWorker(Disk, w.sections[g].op.worker,
        sent.(worker := w.sections[g].op.worker))];
  }

  /** The durable record that decides about a latch of this scope, as claims and outcomes read
      it: the GPU's for a physical latch, or its worker's if the GPU has none; the worker's
      for a worker latch. */
  function Deciding(dd: Option<Record>, dw: Option<Record>, g: Device, scope: Extent): Option<Record> {
    if scope.Physical? && dd.Some? then Keyed(dd, g)
    else if dw.Some? && dw.value.scope == scope then dw
    else None
  }

  /** An outcome or a claim for another generation than the deciding record's, of either scope,
      or without any such record, changes nothing. */
  lemma OlderOutcomesAreIgnored(dd: Option<Record>, dw: Option<Record>, w: string, g: Device, scope: Extent,
                                expected: Identity,
                                state: PageState, note: string)
    requires scope.Physical? || scope.WorkerProcess?
    requires var r := Deciding(dd, dw, g, scope); r.None? || Generation(r.value) != expected
    ensures UpdatePlan(dd, dw, w, g, scope, expected, state, note) == []
    ensures ClaimPlan(Deliverable(dd, dw, g, scope, expected, note), w) == []
  {
  }

  /** An outcome that does apply keeps everything but the page, never turns sent into anything
      else, and otherwise is recorded as it was reported. */
  lemma OutcomesKeepTheLatch(dd: Option<Record>, dw: Option<Record>, w: string, g: Device, scope: Extent,
                             expected: Identity,
                             state: PageState, note: string, p: Put)
    requires p in UpdatePlan(dd, dw, w, g, scope, expected, state, note) && !p.Drop?
    ensures var target := Target(dd, dw, g, scope, expected);
            && target.Some? && Generation(target.value) == expected
            && p.record.(page := target.value.page, worker := target.value.worker) == target.value
            && p.record.page == if target.value.page.state == Sent && state != Sent then target.value.page
                                else Page(state, note)
  {
  }

  /** And it is recorded: on disk and in Redis, for the worker and, if physical, for the GPU. */
  lemma OutcomesAreRecorded(dd: Option<Record>, dw: Option<Record>, w: string, g: Device, scope: Extent,
                            expected: Identity, state: PageState, note: string)
    requires scope.Physical? || scope.WorkerProcess?
    requires var r := Deciding(dd, dw, g, scope); r.Some? && Generation(r.value) == expected
    ensures var r := Deciding(dd, dw, g, scope).value;
            var x := if r.page.state == Sent && state != Sent then r else r.(page := Page(state, note));
            var plan := UpdatePlan(dd, dw, w, g, scope, expected, state, note);
            && SetWorker(Disk, w, x.(worker := w)) in plan && SetWorker(Mirror, w, x.(worker := w)) in plan
            && (scope.Physical? && x.hostname != "" && x.index != "" ==>
                  SetDevice(Disk, Device(x.hostname, x.index), x) in plan
                  && SetDevice(Mirror, Device(x.hostname, x.index), x) in plan)
  {
    var r := Deciding(dd, dw, g, scope).value;
    var x := if r.page.state == Sent && state != Sent then r else r.(page := Page(state, note));
    assert UpdatePlan(dd, dw, w, g, scope, expected, state, note) == Paths(Disk, x, w) + Paths(Mirror, x, w) by {
      assert Target(dd, dw, g, scope, expected) == Some(r);
    }
    hide UpdatePlan, Paths, Generation, Deciding;
    assert x.scope == scope by { DecidingScope(dd, dw, g, scope); }
    PathsHold(Disk, x, w);
    PathsHold(Mirror, x, w);
  }

  lemma DecidingScope(dd: Option<Record>, dw: Option<Record>, g: Device, scope: Extent)
    ensures var r := Deciding(dd, dw, g, scope); r.Some? ==> r.value.scope == scope
  {
  }

  lemma PathsHold(side: Side, x: Record, w: string)
    ensures SetWorker(side, w, x.(worker := w)) in Paths(side, x, w)
    ensures x.scope.Physical? && x.hostname != "" && x.index != "" ==>
              SetDevice(side, Device(x.hostname, x.index), x) in Paths(side, x, w)
  {
    var ps := Paths(side, x, w);
    assert ps[|ps| - 1] == SetWorker(side, w, x.(worker := w));
    assert |ps| == 2 ==> ps[0] == SetDevice(side, Device(x.hostname, x.index), x);
  }

  // ----- why outcome updates have to be aimed

  /** An outcome update that fell back on a worker record of another GPU, read before that GPU's
      page was sent, takes the mark away with its very first write, and the next claimant of the
      GPU is told to send. Latch.UpdateFitsIffAimed says exactly which updates these are. */
  lemma UnaimedUpdateUnsends(dd: Option<Record>, dw: Option<Record>, o: Device, x: string, expected: Identity,
                             state: PageState, note: string, l: Latches, g: Device)
    requires !Aimed(dd, dw, o, Physical, expected) && !state.Sent? && !dw.value.page.state.Sent?
    requires Known(g) && IsFor(dw.value, g) && Recorded(l, g, expected, true)
    ensures var plan := UpdatePlan(dd, dw, x, o, Physical, expected, state, note);
            && plan != [] && !AllFit(plan, o)
            && var d := Done(l, plan[0]);
               && !Recorded(d, g, expected, true)
               && Deliverable(Lookup(d.disk.devices, g), Lookup(d.disk.workers, x), g, Physical, expected, note).Some?
  {
    var r := dw.value.(page := Page(state, note));
    SamePageSameGeneration(dw.value, Page(state, note));
    var plan := UpdatePlan(dd, dw, x, o, Physical, expected, state, note);
    assert plan == Paths(Disk, r, x) + Paths(Mirror, r, x);
    assert plan[0] == SetDevice(Disk, g, r) && !PutFits(plan[0], o);
    assert Keyed(Some(r), g) == Some(r);
  }

  /** A run that starts no clear. */
  ghost predicate Ordinary(w: World, ss: seq<Step>)
    requires CanRun(w, ss)
    decreases |ss|
  {
    ss != [] ==> !(ss[0].Begin? && ss[0].op.Clear?) && Ordinary(Apply(w, ss[0]), ss[1..])
  }

  lemma Unroll(w: World, s: Step, ss: seq<Step>)
    requires Enabled(w, s) && CanRun(Apply(w, s), ss)
    ensures CanRun(w, [s] + ss) && After(w, [s] + ss) == After(Apply(w, s), ss)
    ensures !(s.Begin? && s.op.Clear?) && Ordinary(Apply(w, s), ss) ==> Ordinary(w, [s] + ss)
  {
    hide Enabled, Apply;
    assert ([s] + ss)[1..] == ss;
  }

  function Latched(x: string, g: Device, state: PageState): Record {
    Record(Physical, x, g.hostname, g.index, "e", "", "", Page(state, ""), true)
  }

  function With(x: string, g: Device, gpu: PageState, alias: PageState, sections: map<Device, Section>): World {
    var disk := Replica(map[g := Latched(x, g, gpu)], map[x := Latched(x, g, alias)]);
    World(Latches(disk, Replica(map[], map[])), sections)
  }

  /** The late outcome, called for the wrong GPU. */
  function Late(x: string, g: Device): Section {
    var r := Latched(x, g, PageState.Failed);
    Section(Update(x, Physical, Event("e"), PageState.Failed, ""),
            Writing([SetDevice(Disk, g, r), SetWorker(Disk, x, r), SetDevice(Mirror, g, r), SetWorker(Mirror, x, r)],
                    None))
  }

  function Send(x: string, pending: seq<Put>, claim: Option<Record>): Section {
    Section(Op.Claim(x, Physical, Event("e"), ""), Writing(pending, claim))
  }

  function Both(x: string, g: Device, state: PageState): seq<Put> {
    [SetDevice(Disk, g, Latched(x, g, state)), SetWorker(Disk, x, Latched(x, g, state))]
  }

  lemma LateBegins(x: string, g: Device, o: Device)
    requires Known(g) && Known(o) && g != o
    ensures var w := With(x, g, PageState.Pending, PageState.Pending, map[]);
            var s := Begin(o, Late(x, g).op);
            && Enabled(w, s) && !AimedStep(w, s)
            && Apply(w, s) == With(x, g, PageState.Pending, PageState.Pending, map[o := Late(x, g)])
  {
    var w := With(x, g, PageState.Pending, PageState.Pending, map[]);
    var empty: map<Device, Section> := map[];
    assert Opened(w.latches, o, Late(x, g).op) == Late(x, g).stage;
    assert empty[o := Late(x, g)] == map[o := Late(x, g)];
  }

  lemma SenderBegins(x: string, g: Device, o: Device)
    requires Known(g) && Known(o) && g != o
    ensures var w := With(x, g, PageState.Pending, PageState.Pending, map[o := Late(x, g)]);
            var next := Send(x, Both(x, g, Sending), Some(Latched(x, g, Sending)));
            var s := Begin(g, next.op);
            && Enabled(w, s)
            && Apply(w, s) == With(x, g, PageState.Pending, PageState.Pending, map[o := Late(x, g), g := next])
  {
    var w := With(x, g, PageState.Pending, PageState.Pending, map[o := Late(x, g)]);
    var next := Send(x, Both(x, g, Sending), Some(Latched(x, g, Sending)));
    assert Opened(w.latches, g, next.op) == next.stage;
    assert map[o := Late(x, g)][g := next] == map[o := Late(x, g), g := next];
  }

  lemma FirstStore(x: string, g: Device, o: Device, before: PageState, after: PageState, claim: Option<Record>)
    requires g != o
    ensures var w := With(x, g, before, before, map[o := Late(x, g), g := Send(x, Both(x, g, after), claim)]);
            var next := Send(x, [SetWorker(Disk, x, Latched(x, g, after))], claim);
            Enabled(w, Store(g)) && Apply(w, Store(g)) == With(x, g, after, before, map[o := Late(x, g), g := next])
  {
    var first := Send(x, Both(x, g, after), claim);
    var next := Send(x, [SetWorker(Disk, x, Latched(x, g, after))], claim);
    assert first.stage.pending[1..] == next.stage.pending;
    assert map[g := Latched(x, g, before)][g := Latched(x, g, after)] == map[g := Latched(x, g, after)];
    assert map[o := Late(x, g), g := first][g := next] == map[o := Late(x, g), g := next];
  }

  lemma SecondStore(x: string, g: Device, o: Device, before: PageState, after: PageState, claim: Option<Record>)
    requires g != o
    ensures var last := Send(x, [SetWorker(Disk, x, Latched(x, g, after))], claim);
            var w := With(x, g, after, before, map[o := Late(x, g), g := last]);
            && Enabled(w, Store(g))
            && Apply(w, Store(g)) == With(x, g, after, after, map[o := Late(x, g), g := Send(x, [], claim)])
  {
    var last := Send(x, [SetWorker(Disk, x, Latched(x, g, after))], claim);
    assert last.stage.pending[1..] == [];
    assert map[x := Latched(x, g, before)][x := Latched(x, g, after)] == map[x := Latched(x, g, after)];
    assert map[o := Late(x, g), g := last][g := Send(x, [], claim)] == map[o := Late(x, g), g := Send(x, [], claim)];
  }

  lemma SenderFinishes(x: string, g: Device, o: Device)
    requires Known(g) && g != o
    ensures var w := With(x, g, Sending, Sending, map[o := Late(x, g), g := Send(x, [], Some(Latched(x, g, Sending)))]);
            && Enabled(w, Finish(g, Sent, ""))
            && Apply(w, Finish(g, Sent, "")) ==
               With(x, g, Sending, Sending, map[o := Late(x, g), g := Send(x, Both(x, g, Sent), None)])
  {
    var first, next := Send(x, [], Some(Latched(x, g, Sending))), Send(x, Both(x, g, Sent), None);
    assert FinishPlan(Latched(x, g, Sending), x, Sent, "") == next.stage.pending;
    assert map[o := Late(x, g), g := first][g := next] == map[o := Late(x, g), g := next];
  }

  /** Recorded as sent here; but after one more write the mark is gone and a claimant is told to
      send. */
  ghost predicate SentThenNot(w: World, s: Step, x: string, g: Device) {
    && Settled(w, g, Event("e"), true) && Enabled(w, s) && !s.Begin?
    && var l := Apply(w, s).latches;
       && !Recorded(l, g, Event("e"), true)
       && Deliverable(Lookup(l.disk.devices, g), Lookup(l.disk.workers, x), g, Physical, Event("e"), "").Some?
  }

  /** The page is durably recorded as sent, and the late outcome has still to be written. */
  function JustSent(x: string, g: Device, o: Device): World {
    With(x, g, Sent, Sending, map[o := Late(x, g), g := Send(x, [SetWorker(Disk, x, Latched(x, g, Sent))], None)])
  }

  lemma LateStores(x: string, g: Device, o: Device)
    requires g != o
    ensures SentThenNot(JustSent(x, g, o), Store(o), x, g)
  {
    var w := JustSent(x, g, o);
    assert Keyed(Some(Latched(x, g, Sent)), g) == Some(Latched(x, g, Sent));
    var l := Apply(w, Store(o)).latches;
    assert l.disk.devices[g] == Latched(x, g, PageState.Failed);
    assert Keyed(Some(l.disk.devices[g]), g) == Some(Latched(x, g, PageState.Failed));
  }

  /** The sender's whole run, up to its first write after the delivery. */
  lemma SenderRuns(x: string, g: Device, o: Device)
    requires Known(g) && Known(o) && g != o
    ensures exists ss :: var w := With(x, g, PageState.Pending, PageState.Pending, map[o := Late(x, g)]);
                         CanRun(w, ss) && Ordinary(w, ss) && After(w, ss) == JustSent(x, g, o)
  {
    var claim := Some(Latched(x, g, Sending));
    var w1 := With(x, g, PageState.Pending, PageState.Pending, map[o := Late(x, g)]);
    SenderBegins(x, g, o);
    FirstStore(x, g, o, PageState.Pending, Sending, claim);
    SecondStore(x, g, o, PageState.Pending, Sending, claim);
    SenderFinishes(x, g, o);
    FirstStore(x, g, o, Sending, Sent, None);
    hide Enabled, Apply, With, Late, Both, CanRun, After, Ordinary;
    var begin, finish := Begin(g, Send(x, Both(x, g, Sending), claim).op), Finish(g, Sent, "");
    var w2 := Apply(w1, begin);
    var w3 := Apply(w2, Store(g));
    var w4 := Apply(w3, Store(g));
    var w5 := Apply(w4, finish);
    EmptyRun(Apply(w5, Store(g)));
    Unroll(w5, Store(g), []);
    Unroll(w4, finish, [Store(g)] + []);
    Unroll(w3, Store(g), [finish] + ([Store(g)] + []));
    Unroll(w2, Store(g), [Store(g)] + ([finish] + ([Store(g)] + [])));
    Unroll(w1, begin, [Store(g)] + ([Store(g)] + ([finish] + ([Store(g)] + []))));
  }

  /** For every worker and every two GPUs, without the proviso that updates are aimed, there is
      a run without a clear in which a page that was durably recorded as sent is forgotten. */
  lemma UnaimedUpdateForgetsTheDelivery(x: string, g: Device, o: Device)
    requires Known(g) && Known(o) && g != o
    ensures exists w, ss :: Steady(w) && CanRun(w, ss) && Ordinary(w, ss) && SentThenNot(After(w, ss), Store(o), x, g)
  {
    var w := With(x, g, PageState.Pending, PageState.Pending, map[]);
    LateBegins(x, g, o);
    SenderRuns(x, g, o);
    LateStores(x, g, o);
    assert Steady(w);
    hide Enabled, Apply, With, CanRun, After, Ordinary, SentThenNot, Steady;
    var w1 := With(x, g, PageState.Pending, PageState.Pending, map[o := Late(x, g)]);
    var ss :| CanRun(w1, ss) && Ordinary(w1, ss) && After(w1, ss) == JustSent(x, g, o);
    Unroll(w, Begin(o, Late(x, g).op), ss);
  }

  lemma EmptyRun(w: World)
    ensures CanRun(w, []) && After(w, []) == w && Ordinary(w, [])
  {
  }
}
