/** Reading repairs the latch, and repairs it completely. */
module Repair {
  import opened Coordination
  import opened Quarantine
  import opened Latch
  import opened LatchStore

  /** The four records after a read has made its merge durable and mirrored it. */
  function Mended(s: Sources, w: string, g: Device): Sources {
    var merged := Merged(s, w, g);
    if merged.None? then s
    else
      var m := merged.value;
      var alias := m.(worker := w);
      Sources(if m.scope.Physical? && !Ready(s, w, g, m) then Some(m) else s.diskDevice,
              if !Ready(s, w, g, m) then Some(alias) else s.diskWorker,
              if m.scope.Physical? && Repaired(Keyed(s.redisDevice, g), w, g) != Some(m) then Some(m)
                  else s.redisDevice,
              if Repaired(s.redisWorker, w, g) != Some(alias) then Some(alias) else s.redisWorker)
  }

  lemma FirstOfFour(rs: seq<Option<Record>>, p: Option<Record> -> bool)
    requires |rs| == 4
    ensures First(rs, p) == if rs[0].Some? && p(rs[0]) then rs[0] else if rs[1].Some? && p(rs[1]) then rs[1]
                            else if rs[2].Some? && p(rs[2]) then rs[2] else if rs[3].Some? && p(rs[3]) then rs[3]
                                else None
  {
    assert First(rs, p) == if rs[0].Some? && p(rs[0]) then rs[0] else First(rs[1..], p);
    assert First(rs[1..], p) == if rs[1].Some? && p(rs[1]) then rs[1] else First(rs[1..][1..], p);
    assert First(rs[1..][1..], p) == if rs[2].Some? && p(rs[2]) then rs[2] else First(rs[1..][1..][1..], p);
    assert First(rs[1..][1..][1..], p) == if rs[3].Some? && p(rs[3]) then rs[3] else First([], p);
  }

  lemma StrongestUnrolled(rs: seq<Option<Record>>)
    requires |rs| == 4
    ensures var a, b, c, d := rs[0], rs[1], rs[2], rs[3];
            var physical := if IsPhysical(a) then a else if IsPhysical(b) then b else if IsPhysical(c) then c
                else if IsPhysical(d) then d else None;
            var base := if physical.Some? then physical else if a.Some? then a else if b.Some? then b else if c.Some?
                then c else d;
            var sent := if IsSent(a) then a else if IsSent(b) then b else if IsSent(c) then c else if IsSent(d) then d
                else None;
            Strongest(rs) == if base.None? then None
                             else if sent.Some? && Generation(sent.value) == Generation(base.value)
                                 then Some(base.value.(page := sent.value.page))
                             else base
  {
    FirstOfFour(rs, IsPhysical);
    FirstOfFour(rs, IsSent);
    FirstOfFour(rs, r => true);
  }

  /** A repair leaves nothing to repair. */
  predicate Filled(r: Record, w: string, g: Device) {
    Repaired(Some(r), w, g) == Some(r)
  }

  lemma RepairedIsFilled(r: Option<Record>, w: string, g: Device)
    ensures var x := Repaired(r, w, g); x.Some? ==> Filled(x.value, w, g)
    ensures var x := Constrained(Repaired(r, w, g), g); x.Some? ==> Filled(x.value, w, g)
  {
  }

  lemma FilledPage(r: Record, x: Record, w: string, g: Device)
    requires Filled(r, w, g) && Filled(x, w, g)
    ensures Filled(r.(page := x.page), w, g) && Filled(r.(page := x.page, worker := w), w, g)
  {
  }

  lemma MergedIsFilled(s: Sources, w: string, g: Device)
    requires Merged(s, w, g).Some?
    ensures var m := Merged(s, w, g).value;
            Filled(m, w, g) && Filled(m.(worker := w), w, g)
  {
    RepairedIsFilled(Keyed(s.diskDevice, g), w, g);
    RepairedIsFilled(s.diskWorker, w, g);
    RepairedIsFilled(Keyed(s.redisDevice, g), w, g);
    RepairedIsFilled(s.redisWorker, w, g);
    hide Repaired, Constrained, Keyed, Filled, Strongest;
    var rs := Ordered(s, w, g);
    assert forall r :: r in rs && r.Some? ==> Filled(r.value, w, g);
    StrongestIsOneOfThem(rs);
    var m := Merged(s, w, g).value;
    var r, x :| r in rs && x in rs && r.Some? && x.Some? && m == r.value.(page := x.value.page);
    FilledPage(r.value, x.value, w, g);
  }

  lemma MendedPhysical(s: Sources, w: string, g: Device)
    requires Known(g) && IsPhysical(Merged(s, w, g))
    ensures Merged(Mended(s, w, g), w, g) == Merged(s, w, g)
  {
    if Ready(s, w, g, Merged(s, w, g).value) {
      MendedReady(s, w, g);
    } else {
      MendedUnready(s, w, g);
    }
  }

  lemma MendedUnready(s: Sources, w: string, g: Device)
    requires Known(g) && IsPhysical(Merged(s, w, g)) && !Ready(s, w, g, Merged(s, w, g).value)
    ensures Merged(Mended(s, w, g), w, g) == Merged(s, w, g)
  {
    var m := Merged(s, w, g).value;
    MendedSources(s, w, g);
    hide Merged, Ordered, Ready;
    AgreedMerge(m, m.(worker := w));
    assert Merged(Mended(s, w, g), w, g) == Strongest(Ordered(Mended(s, w, g), w, g)) by { MergedIsStrongest(s, w, g); }
  }

  lemma MergedIsStrongest(s: Sources, w: string, g: Device)
    ensures Merged(Mended(s, w, g), w, g) == Strongest(Ordered(Mended(s, w, g), w, g))
  {
  }

  /** Written everywhere, the four sources read back as the record and its alias. */
  lemma MendedSources(s: Sources, w: string, g: Device)
    requires Known(g) && IsPhysical(Merged(s, w, g)) && !Ready(s, w, g, Merged(s, w, g).value)
    ensures var m := Merged(s, w, g).value;
            var alias := m.(worker := w);
            Ordered(Mended(s, w, g), w, g) == [Some(m), Some(alias), Some(m), Some(alias)]
  {
    MergedIsFilled(s, w, g);
    PhysicalIffSomeSourceIs(s, w, g);
    hide Merged, Impersonates, Generation, Repaired, Ready;
    var m := Merged(s, w, g);
    assert Keyed(m, g) == m;
  }

  lemma AgreedMerge(m: Record, alias: Record)
    requires m.scope.Physical? && alias == m.(worker := alias.worker)
    ensures Strongest([Some(m), Some(alias), Some(m), Some(alias)]) == Some(m)
  {
    StrongestUnrolled([Some(m), Some(alias), Some(m), Some(alias)]);
    hide Strongest, Generation;
  }

  lemma MendedReady(s: Sources, w: string, g: Device)
    requires Known(g) && IsPhysical(Merged(s, w, g)) && Ready(s, w, g, Merged(s, w, g).value)
    ensures Merged(Mended(s, w, g), w, g) == Merged(s, w, g)
  {
    PhysicalIffSomeSourceIs(s, w, g);
    StrongestUnrolled(Ordered(s, w, g));
    StrongestUnrolled(Ordered(Mended(s, w, g), w, g));
    hide Strongest, Impersonates;
  }

  lemma MendedWorker(s: Sources, w: string, g: Device)
    requires Known(g) && Merged(s, w, g).Some? && !IsPhysical(Merged(s, w, g))
    ensures var m := Merged(s, w, g).value;
            Merged(Mended(s, w, g), w, g) == Some(if Ready(s, w, g, m) then m else m.(worker := w))
  {
    PhysicalIffSomeSourceIs(s, w, g);
    StrongestUnrolled(Ordered(s, w, g));
    StrongestUnrolled(Ordered(Mended(s, w, g), w, g));
    hide Strongest, Impersonates;
  }

  /** A second read of the same worker on the same GPU finds nothing left to repair: the disk
      and Redis agree on one canonical record. */
  lemma ReadingTwiceIsReadingOnce(s: Sources, w: string, g: Device)
    requires Known(g)
    ensures ReadPlan(Mended(s, w, g), w, g) == []
  {
    var merged := Merged(s, w, g);
    if IsPhysical(merged) {
      SettledRead(s, w, g);
    } else if merged.Some? {
      SettledWorkerRead(s, w, g);
    }
  }

  lemma SettledRead(s: Sources, w: string, g: Device)
    requires Known(g) && IsPhysical(Merged(s, w, g))
    ensures ReadPlan(Mended(s, w, g), w, g) == []
  {
    PhysicalIffSomeSourceIs(s, w, g);
    MendedPhysical(s, w, g);
    hide Merged, Impersonates;
    MendedIsReady(s, w, g);
  }

  lemma SettledWorkerRead(s: Sources, w: string, g: Device)
    requires Known(g) && Merged(s, w, g).Some? && !IsPhysical(Merged(s, w, g))
    ensures ReadPlan(Mended(s, w, g), w, g) == []
  {
    PhysicalIffSomeSourceIs(s, w, g);
    MendedWorker(s, w, g);
    hide Merged, Impersonates;
    MendedIsReady(s, w, g);
  }

  lemma MendedIsReady(s: Sources, w: string, g: Device)
    requires Known(g) && Merged(s, w, g).Some?
    ensures var m := Merged(s, w, g).value;
            Ready(Mended(s, w, g), w, g, if m.scope.Physical? || Ready(s, w, g, m) then m else m.(worker := w))
  {
    MergedIsFilled(s, w, g);
    PhysicalIffSomeSourceIs(s, w, g);
    hide Merged, Impersonates, Generation, Repaired;
    var m := Merged(s, w, g);
    assert IsPhysical(m) ==> Keyed(m, g) == m;
  }

  /** What a read leaves is whole: if it found a latch at all, the durable record that decides
      has a worker, a GPU, a page state and its fixed fields, and Redis has a mirror of it. */
  lemma ReadLeavesWhole(s: Sources, w: string, g: Device)
    requires Known(g) && w != "" && Merged(s, w, g).Some?
    ensures var d := Mended(s, w, g);
            var r := if IsPhysical(Merged(s, w, g)) then d.diskDevice else d.diskWorker;
            && r.Some? && r.value.canonical && r.value.page.state != Unset && r.value.worker != ""
            && (if IsPhysical(Merged(s, w, g)) then d.redisDevice.Some?
                else r.value.scope == WorkerProcess && r.value.hostname != "" && r.value.index != "")
            && d.redisWorker.Some?
  {
    MergedIsFilled(s, w, g);
    PhysicalIffSomeSourceIs(s, w, g);
    hide Merged, Impersonates, Generation;
  }

  function SourcesOf(l: Latches, w: string, g: Device): Sources {
    Sources(Lookup(l.disk.devices, g), Lookup(l.disk.workers, w), Lookup(l.mirror.devices, g),
            Lookup(l.mirror.workers, w))
  }

  /** And that is the state a read leaves when it runs to its end. */
  lemma ReadMends(l: Latches, w: string, g: Device)
    requires Known(g)
    ensures var s := SourcesOf(l, w, g);
            SourcesOf(AllDone(l, ReadPlan(s, w, g)), w, g) == Mended(s, w, g)
  {
    var s := SourcesOf(l, w, g);
    PhysicalIffSomeSourceIs(s, w, g);
    hide Merged, Impersonates, Ready, Repaired, Generation, Paths;
    var merged := Merged(s, w, g);
    if merged.Some? {
      var m := merged.value;
      var a := if Ready(s, w, g, m) then [] else Paths(Disk, m, w);
      var b := if m.scope.Physical? && Repaired(Keyed(s.redisDevice, g), w, g) != Some(m)
          then [SetDevice(Mirror, g, m)] else [];
      var c := if Repaired(s.redisWorker, w, g) != Some(m.(worker := w))
          then [SetWorker(Mirror, w, m.(worker := w))] else [];
      ThreeParts(l, a, b, c);
      PathsDone(l, Disk, m, w);
    }
  }

  /** What a quarantine write stores, on disk and in Redis alike. A latch that is there already
      (the GPU's record, the worker's physical record of this GPU, or for a worker latch the
      worker's own one on it) is kept with its event, cause and page, under the GPU's key, and a
      record that has no page state becomes pending; otherwise it is the new latch, field by
      field. A physical latch closes the GPU; a worker latch touches no GPU's record. */
  lemma WriteCloses(l: Latches, w: string, g: Device, latch: Record)
    requires Known(g) && Proper(g, Write(w, latch))
    ensures var s := SourcesOf(l, w, g);
            var d := SourcesOf(AllDone(l, WritePlan(s.diskDevice, s.diskWorker, w, g, latch)), w, g);
            var byGpu := s.diskDevice.Some?;
            var byAlias := !byGpu && s.diskWorker.Some? && IsFor(s.diskWorker.value, g);
            var byWorker := !byGpu && !byAlias && s.diskWorker.Some? && latch.scope == WorkerProcess
                            && s.diskWorker.value.scope == WorkerProcess && s.diskWorker.value.worker == w
                            && s.diskWorker.value.hostname == g.hostname && s.diskWorker.value.index == g.index;
            && d.diskWorker.Some? && d.redisWorker == d.diskWorker && d.diskWorker.value.worker == w
            && (latch.scope.Physical? ==> d.diskDevice.Some? && IsFor(d.diskDevice.value, g))
            && (if byGpu || byAlias then
                  var found := if byGpu then s.diskDevice.value else s.diskWorker.value;
                  && d.diskDevice == d.redisDevice ==
                     Some(found.(scope := Physical, hostname := g.hostname, index := g.index, page := PageKept(found)))
                  && d.diskWorker.value == d.diskDevice.value.(worker := w)
                else if byWorker then
                  d == Sources(s.diskDevice, d.diskWorker, s.redisDevice, d.redisWorker)
                  && d.diskWorker.value == s.diskWorker.value.(page := PageKept(s.diskWorker.value))
                else
                  && d.diskWorker.value == latch && latch.page == Page(PageState.Pending, "")
                  && (if latch.scope.Physical? then d.diskDevice == d.redisDevice == Some(latch)
                      else d.diskDevice == s.diskDevice && d.redisDevice == s.redisDevice))
  {
    var s := SourcesOf(l, w, g);
    var r := Preserved(s.diskDevice, s.diskWorker, w, g, latch);
    Joined(l, Paths(Disk, r, w), Paths(Mirror, r, w));
    PathsDone(l, Disk, r, w);
    PathsDone(AllDone(l, Paths(Disk, r, w)), Mirror, r, w);
    hide Paths;
  }

  /** The page of a record that is kept: its own, or pending if it never had a state. */
  function PageKept(r: Record): (page: Page)
    ensures r.page.state != Unset ==> page == r.page
    ensures r.page.state == Unset ==> page.state == PageState.Pending
  {
    if r.page.state.Unset? then r.page.(state := PageState.Pending) else r.page
  }
}
