/** The latch operations as their callers run them when nothing comes in between: one section
    each, under one lock, on the records on disk and in Redis. */
module LatchStore {
  import opened Coordination
  import opened Quarantine
  import opened Latch
  import Clearing

  datatype Outcome = Delivered | NotDelivered | Duplicate | BadScope

  class LatchStore {
    var diskDevices: map<Device, Record>
    var diskWorkers: map<string, Record>
    var mirrorDevices: map<Device, Record>
    var mirrorWorkers: map<string, Record>

    function Value(): Latches
      reads this
    {
      Latches(Replica(diskDevices, diskWorkers), Replica(mirrorDevices, mirrorWorkers))
    }

    constructor ()
      ensures Value() == Latches(Replica(map[], map[]), Replica(map[], map[]))
    {
      diskDevices, diskWorkers, mirrorDevices, mirrorWorkers := map[], map[], map[], map[];
    }

    method WriteAliases(r: Record, w: string)
      modifies this
      ensures Value() == AllDone(old(Value()), Paths(Disk, r, w))
    {
      if r.scope.Physical? && r.hostname != "" && r.index != "" {
        diskDevices := diskDevices[Device(r.hostname, r.index) := r];
      }
      diskWorkers := diskWorkers[w := r.(worker := w)];
      PathsDone(old(Value()), Disk, r, w);
    }

    method MirrorAliases(r: Record, w: string)
      modifies this
      ensures Value() == AllDone(old(Value()), Paths(Mirror, r, w))
    {
      if r.scope.Physical? && r.hostname != "" && r.index != "" {
        mirrorDevices := mirrorDevices[Device(r.hostname, r.index) := r];
      }
      mirrorWorkers := mirrorWorkers[w := r.(worker := w)];
      PathsDone(old(Value()), Mirror, r, w);
    }

    function Read4(w: string, g: Device): Sources
      reads this
    {
      Sources(Lookup(diskDevices, g), Lookup(diskWorkers, w), Lookup(mirrorDevices, g), Lookup(mirrorWorkers, w))
    }

    method ReadQuarantine(w: string, g: Device) returns (record: Option<Record>)
      modifies this
      ensures record == Merged(old(Read4(w, g)), w, g)
      ensures Value() == AllDone(old(Value()), ReadPlan(old(Read4(w, g)), w, g))
    {
      hide Merged, Repaired, Generation;
      var s := Read4(w, g);
      record := Merged(s, w, g);
      if record.None? { return; }
      var m := record.value;
      if !Ready(s, w, g, m) { WriteAliases(m, w); }
      if m.scope.Physical? && Repaired(Keyed(s.redisDevice, g), w, g) != Some(m) {
        mirrorDevices := mirrorDevices[g := m];
      }
      if Repaired(s.redisWorker, w, g) != Some(m.(worker := w)) {
        mirrorWorkers := mirrorWorkers[w := m.(worker := w)];
      }
      ThreeParts(old(Value()), if Ready(s, w, g, m) then [] else Paths(Disk, m, w),
                 if m.scope.Physical? && Repaired(Keyed(s.redisDevice, g), w, g) != Some(m)
                     then [SetDevice(Mirror, g, m)] else [],
                 if Repaired(s.redisWorker, w, g) != Some(m.(worker := w))
                 then [SetWorker(Mirror, w, m.(worker := w))] else []);
    }

    method WriteQuarantine(w: string, g: Device, latch: Record) returns (record: Record)
      modifies this
      ensures record == Preserved(old(Lookup(diskDevices, g)), old(Lookup(diskWorkers, w)), w, g, latch)
      ensures Value() == AllDone(old(Value()), WritePlan(old(Lookup(diskDevices, g)), old(Lookup(diskWorkers, w)), w, g,
                                                         latch))
      ensures w in diskWorkers && diskWorkers[w] == record.(worker := w)
      ensures w in mirrorWorkers && mirrorWorkers[w] == record.(worker := w)
      ensures old(g !in diskDevices && w !in diskWorkers) ==> record == latch
      ensures old(g in diskDevices) ==>
                record == old(diskDevices)[g].(scope := Physical, hostname := g.hostname, index := g.index,
                                               page := record.page)
                && (!old(diskDevices)[g].page.state.Unset? ==> record.page == old(diskDevices)[g].page)
    {
      hide Paths;
      PathsDone(old(Value()), Disk, Preserved(Lookup(diskDevices, g), Lookup(diskWorkers, w), w, g, latch), w);
      record := Preserved(Lookup(diskDevices, g), Lookup(diskWorkers, w), w, g, latch);
      WriteAliases(record, w);
      PathsDone(Value(), Mirror, record, w);
      MirrorAliases(record, w);
      Joined(old(Value()), Paths(Disk, record, w), Paths(Mirror, record, w));
    }

    method UpdateNotification(w: string, g: Device, scope: Extent, expected: Identity, state: PageState, note: string)
        returns (updated: bool)
      modifies this
      ensures updated == Target(old(Lookup(diskDevices, g)), old(Lookup(diskWorkers, w)), g, scope, expected).Some?
      ensures Value() == AllDone(old(Value()), UpdatePlan(old(Lookup(diskDevices, g)), old(Lookup(diskWorkers, w)), w,
                                                          g, scope, expected, state, note))
    {
      hide Target, Paths;
      var target := Target(Lookup(diskDevices, g), Lookup(diskWorkers, w), g, scope, expected);
      if target.None? { return false; }
      var record := target.value;
      if !record.page.state.Sent? || state.Sent? { record := record.(page := Page(state, note)); }
      WriteAliases(record, w);
      MirrorAliases(record, w);
      Joined(old(Value()), Paths(Disk, record, w), Paths(Mirror, record, w));
      return true;
    }

    method AcquireClaim(w: string, g: Device, scope: Extent, input: Identity, note: string)
        returns (claim: Option<Record>)
      modifies this
      ensures claim == Deliverable(old(Lookup(diskDevices, g)), old(Lookup(diskWorkers, w)), g, scope, input, note)
      ensures Value() == AllDone(old(Value()), ClaimPlan(claim, w))
      ensures claim.Some? ==>
                && claim.value.page == Page(Sending, note) && Generation(claim.value) == input
                && w in diskWorkers && diskWorkers[w] == claim.value.(worker := w)
                && (scope.Physical? && Known(g) ==> g in diskDevices && diskDevices[g] == claim.value)
                && mirrorDevices == old(mirrorDevices) && mirrorWorkers == old(mirrorWorkers)
    {
      hide Paths;
      claim := Deliverable(Lookup(diskDevices, g), Lookup(diskWorkers, w), g, scope, input, note);
      ClaimFacts(Value(), w, g, scope, input, note);
      hide Deliverable;
      claim := Deliverable(Lookup(diskDevices, g), Lookup(diskWorkers, w), g, scope, input, note);
      if claim.Some? { WriteAliases(claim.value, w); }
    }

    method FinishClaim(claim: Record, w: string, state: PageState, note: string)
      modifies this
      ensures Value() == AllDone(old(Value()), FinishPlan(claim, w, state, note))
    {
      hide Paths;
      WriteAliases(claim.(page := Page(state, note)), w);
    }

    /** One page, claimed, sent and recorded under one lock. `reached` is what the transport
        reports. */
    method SendClaimed(record: Record, expected: Extent, note: string, reached: bool) returns (outcome: Outcome)
      requires Known(Device(record.hostname, record.index))
      requires record.scope.Physical? || record.scope.WorkerProcess?
      modifies this
      ensures var g := Device(record.hostname, record.index);
              var claim := Deliverable(old(Lookup(diskDevices, g)), old(Lookup(diskWorkers, record.worker)), g,
                                       record.scope, Generation(record), note);
              if record.scope != expected then outcome == BadScope && Value() == old(Value())
              else if claim.None? then outcome == Duplicate && Value() == old(Value())
              else
                && outcome == (if reached then Delivered else NotDelivered)
                && Value() == AllDone(AllDone(old(Value()), ClaimPlan(claim, record.worker)),
                                      FinishPlan(claim.value, record.worker, if reached then Sent else PageState.Failed,
                                                 note))
      ensures outcome.Delivered? && record.scope.Physical? ==>
                var g := Device(record.hostname, record.index);
                && g in diskDevices && diskDevices[g].page.state.Sent?
                   && Generation(diskDevices[g]) == Generation(record)
      ensures !outcome.Duplicate? && !outcome.BadScope? ==>
                && record.worker in diskWorkers
                && diskWorkers[record.worker].page == Page(if reached then Sent else PageState.Failed, note)
    {
      hide Generation;
      if record.scope != expected { return BadScope; }
      var g := Device(record.hostname, record.index);
      var claim := AcquireClaim(record.worker, g, record.scope, Generation(record), note);
      if claim.None? { return Duplicate; }
      var state := if reached then Sent else PageState.Failed;
      ghost var mid := Value();
      FinishClaim(claim.value, record.worker, state, note);
      PathsDone(mid, Disk, claim.value.(page := Page(state, note)), record.worker);
      var found := old(if record.scope.Physical? then Keyed(Lookup(diskDevices, g), g)
          else Lookup(diskWorkers, record.worker));
      SamePageSameGeneration(found.value, Page(state, note));
      return if reached then Delivered else NotDelivered;
    }

    method ClearQuarantine(w: string, g: Device)
      requires Known(g)
      modifies this
      ensures Value() == AllDone(old(Value()), ClearPlan(old(Value()), w, g, Latch.MirrorAliases(old(Value()), g)))
    {
      hide DiskAliases;
      var plan := ClearPlan(Value(), w, g, Latch.MirrorAliases(Value(), g));
      diskWorkers := diskWorkers - DiskAliases(Value(), g);
      diskDevices := diskDevices - {g};
      diskWorkers := diskWorkers - {w};
      mirrorDevices, mirrorWorkers := mirrorDevices - {g}, mirrorWorkers - plan[3].workers;
      Clearing.DropsOneByOne(old(Value()), w, g, Latch.MirrorAliases(old(Value()), g));
    }
  }

  function WithPaths(x: Replica, r: Record, w: string): Replica {
    Replica(if r.scope.Physical? && r.hostname != "" && r.index != "" then x.devices[Device(r.hostname, r.index) := r]
        else x.devices,
            x.workers[w := r.(worker := w)])
  }

  lemma ClaimFacts(l: Latches, w: string, g: Device, scope: Extent, input: Identity, note: string)
    ensures var r := Deliverable(Lookup(l.disk.devices, g), Lookup(l.disk.workers, w), g, scope, input, note);
            r.Some? ==>
              && r.value.page == Page(Sending, note) && Generation(r.value) == input
              && (scope.Physical? ==> IsFor(r.value, g))
              && AllDone(l, ClaimPlan(r, w)) == l.(disk := WithPaths(l.disk, r.value, w))
  {
    var r := Deliverable(Lookup(l.disk.devices, g), Lookup(l.disk.workers, w), g, scope, input, note);
    if r.Some? {
      SamePageSameGeneration(if scope.Physical? then Keyed(Lookup(l.disk.devices, g), g).value
                             else Lookup(l.disk.workers, w).value, Page(Sending, note));
      PathsDone(l, Disk, r.value, w);
    }
  }

  lemma PathsDone(l: Latches, side: Side, r: Record, w: string)
    ensures AllDone(l, Paths(side, r, w)) ==
            if side.Disk? then l.(disk := WithPaths(l.disk, r, w)) else l.(mirror := WithPaths(l.mirror, r, w))
  {
    var ps := Paths(side, r, w);
    if |ps| == 2 {
      assert ps[1..] == [ps[1]] && ps[1..][1..] == [];
      assert AllDone(l, ps) == AllDone(Done(l, ps[0]), ps[1..]) == AllDone(Done(Done(l, ps[0]), ps[1]), []);
    } else {
      assert ps[1..] == [];
    }
  }

  lemma {:induction false} Joined(l: Latches, a: seq<Put>, b: seq<Put>)
    ensures AllDone(l, a + b) == AllDone(AllDone(l, a), b)
    decreases |a|
  {
    if a == [] {
      assert a + b == b;
    } else {
      assert (a + b)[1..] == a[1..] + b;
      Joined(Done(l, a[0]), a[1..], b);
    }
  }

  lemma ThreeParts(l: Latches, a: seq<Put>, b: seq<Put>, c: seq<Put>)
    ensures AllDone(l, a + b + c) == AllDone(AllDone(AllDone(l, a), b), c)
  {
    Joined(l, a + b, c);
    Joined(l, a, b);
  }
}
