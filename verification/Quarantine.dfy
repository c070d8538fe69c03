/** GPU quarantine records: what identifies one latch, and how its four sources merge. */
module Quarantine {
  import opened Coordination

  datatype Device = Device(hostname: string, index: string)

  predicate Known(g: Device) {
    g.hostname != "" && g.index != ""
  }

  /** The scope field. `Missing` is the empty string, `Other` any other text. */
  datatype Extent = Physical | WorkerProcess | Missing | Other(text: string)

  datatype PageState = Unset | Pending | Sending | Sent | Failed | NotApplicable

  /** All page_user_* fields: the state and the rest. */
  datatype Page = Page(state: PageState, note: string)

  /** `canonical` says that state and manual_clear_required have their fixed values; `cause`
      stands for the fields no rule looks at one by one (fault class, reason, task id). */
  datatype Record = Record(scope: Extent, worker: string, hostname: string, index: string,
                           eventId: string, createdAt: string, cause: string, page: Page, canonical: bool)

  datatype Identity =
    | Event(id: string)
    | Created(at: string)
    | Legacy(scope: Extent, hostname: string, index: string, worker: string, cause: string)

  /** gpu_quarantine_generation */
  function Generation(r: Record): Identity {
    if r.eventId != "" then Event(r.eventId)
    else if r.createdAt != "" then Created(r.createdAt)
    else Legacy(r.scope, r.hostname, r.index, if r.scope.Physical? then "" else r.worker, r.cause)
  }

  predicate IsFor(r: Record, g: Device) {
    r.scope.Physical? && r.hostname == g.hostname && r.index == g.index
  }

  /** _normalize_device_record: the key decides, not the payload. */
  function Keyed(r: Option<Record>, g: Device): Option<Record> {
    if r.None? then None else Some(r.value.(scope := Physical, hostname := g.hostname, index := g.index))
  }

  /** _normalize_read_record: incomplete records are completed in the strict direction. */
  function Repaired(r: Option<Record>, worker: string, g: Device): Option<Record> {
    if r.None? then None
    else
      var x := r.value.(canonical := true,
                        page := if r.value.page.state.Unset? then r.value.page.(state := PageState.Pending)
                            else r.value.page);
      var y := if x.scope.Physical? || x.scope.WorkerProcess? then x
          else x.(scope := Physical, page := Page(PageState.Pending, ""));
      Some(y.(worker := if y.worker == "" then worker else y.worker,
              hostname := if y.hostname == "" then g.hostname else y.hostname,
              index := if y.index == "" then g.index else y.index))
  }

  /** _constrain_worker_record_to_device: an alias of another GPU does not close this one. */
  function Constrained(r: Option<Record>, g: Device): Option<Record> {
    if r.None? || !r.value.scope.Physical? || !Known(g) || IsFor(r.value, g) then r
    else Some(r.value.(scope := WorkerProcess, page := Page(NotApplicable, "")))
  }

  /** The records of a worker's latch as they are found: on disk and in Redis, by GPU and by
      worker. */
  datatype Sources = Sources(diskDevice: Option<Record>, diskWorker: Option<Record>, redisDevice: Option<Record>,
                             redisWorker: Option<Record>)

  /** The same after completion and constraint, in order of authority. */
  function Ordered(s: Sources, worker: string, g: Device): (r: seq<Option<Record>>)
    ensures |r| == 4
  {
    [ Repaired(Keyed(s.diskDevice, g), worker, g),
      Constrained(Repaired(s.diskWorker, worker, g), g),
      Repaired(Keyed(s.redisDevice, g), worker, g),
      Constrained(Repaired(s.redisWorker, worker, g), g) ]
  }

  predicate IsPhysical(r: Option<Record>) {
    r.Some? && r.value.scope.Physical?
  }

  predicate IsSent(r: Option<Record>) {
    IsPhysical(r) && r.value.page.state.Sent?
  }

  function First(rs: seq<Option<Record>>, p: Option<Record> -> bool): (r: Option<Record>)
    ensures r.Some? ==> p(r) && r in rs
    ensures r.None? ==> forall i :: 0 <= i < |rs| ==> rs[i].Some? ==> !p(rs[i])
    ensures rs != [] && rs[0].Some? && p(rs[0]) ==> r == rs[0]
  {
    if rs == [] then None
    else if rs[0].Some? && p(rs[0]) then rs[0]
    else First(rs[1..], p)
  }

  /** _strongest_quarantine_record */
  function Strongest(rs: seq<Option<Record>>): Option<Record> {
    var physical := First(rs, IsPhysical);
    var base := if physical.Some? then physical else First(rs, r => true);
    if base.None? then None
    else
      var sent := First(rs, IsSent);
      if sent.Some? && Generation(sent.value) == Generation(base.value)
      then Some(base.value.(page := sent.value.page)) else base
  }

  function Merged(s: Sources, worker: string, g: Device): Option<Record> {
    Strongest(Ordered(s, worker, g))
  }

  // ----- merging never weakens

  /** Could this record, read by a worker of the GPU, close that GPU? */
  predicate Impersonates(r: Record, g: Device) {
    && !r.scope.WorkerProcess?
    && (r.hostname == "" || r.hostname == g.hostname)
    && (r.index == "" || r.index == g.index)
  }

  /** The merge is physical exactly if some source is a latch of the queried GPU, present by
      its key, or by an alias that names no other GPU; and then it names the queried GPU. */
  lemma PhysicalIffSomeSourceIs(s: Sources, worker: string, g: Device)
    requires Known(g)
    ensures var m := Merged(s, worker, g);
            && (IsPhysical(m) <==> s.diskDevice.Some? || s.redisDevice.Some?
                                   || (s.diskWorker.Some? && Impersonates(s.diskWorker.value, g))
                                   || (s.redisWorker.Some? && Impersonates(s.redisWorker.value, g)))
            && (m.None? <==> s == Sources(None, None, None, None))
            && (m.Some? ==> Fits(m.value, g) && Whole(m.value))
  {
    hide Strongest, Repaired, Constrained, Impersonates, Keyed, Generation, Fits, Whole;
    RepairedAlias(s.diskDevice, worker, g);
    RepairedAlias(s.diskWorker, worker, g);
    RepairedAlias(s.redisDevice, worker, g);
    RepairedAlias(s.redisWorker, worker, g);
    var rs := Ordered(s, worker, g);
    StrongestOfFour(rs);
    StrongestFits(rs, g);
  }

  /** A record fit to be written under this GPU's lock: canonical, and physical only for it. */
  predicate Fits(r: Record, g: Device) {
    && (r.scope.Physical? || r.scope.WorkerProcess?)
    && (r.scope.Physical? ==> IsFor(r, g))
  }

  predicate Whole(r: Record) {
    r.canonical && !r.page.state.Unset?
  }

  lemma StrongestFits(rs: seq<Option<Record>>, g: Device)
    requires forall i :: 0 <= i < |rs| && rs[i].Some? ==> Fits(rs[i].value, g) && Whole(rs[i].value)
    ensures Strongest(rs).Some? ==> Fits(Strongest(rs).value, g) && Whole(Strongest(rs).value)
  {
    StrongestIsOneOfThem(rs);
    hide Strongest;
  }

  lemma StrongestOfFour(rs: seq<Option<Record>>)
    requires |rs| == 4
    ensures var m := Strongest(rs);
            && (IsPhysical(m) <==> IsPhysical(rs[0]) || IsPhysical(rs[1]) || IsPhysical(rs[2]) || IsPhysical(rs[3]))
            && (m.None? <==> rs[0].None? && rs[1].None? && rs[2].None? && rs[3].None?)
  {
    StrongestScope(rs);
    hide Strongest, IsPhysical;
  }

  /** The merge is one of the sources, with its page fields or those of a sent one. */
  lemma StrongestIsOneOfThem(rs: seq<Option<Record>>)
    ensures var m := Strongest(rs);
            m.Some? ==> exists r, x ::
                r in rs && x in rs && r.Some? && x.Some? && m.value == r.value.(page := x.value.page)
  {
    var physical := First(rs, IsPhysical);
    var base := if physical.Some? then physical else First(rs, r => true);
    var sent := First(rs, IsSent);
    if base.Some? {
      assert base in rs && base.value == base.value.(page := base.value.page);
    }
  }

  lemma StrongestScope(rs: seq<Option<Record>>)
    ensures IsPhysical(Strongest(rs)) <==> exists i :: 0 <= i < |rs| && IsPhysical(rs[i])
    ensures Strongest(rs).None? <==> forall i :: 0 <= i < |rs| ==> rs[i].None?
  {
  }

  lemma RepairedAlias(r: Option<Record>, worker: string, g: Device)
    requires Known(g)
    ensures var c := Constrained(Repaired(r, worker, g), g);
            && (c.Some? <==> r.Some?)
            && (IsPhysical(c) <==> r.Some? && Impersonates(r.value, g))
            && (c.Some? ==> Fits(c.value, g) && Whole(c.value))
            && (r.Some? && r.value.scope == Physical && !IsFor(r.value, g)
                && Known(Device(r.value.hostname, r.value.index))
                ==> c.value == r.value.(scope := WorkerProcess, page := Page(NotApplicable, ""), canonical := true,
                                        worker := c.value.worker))
            && (r.Some? && r.value.scope == WorkerProcess && r.value.page.state != Unset ==>
                  c.value.page == r.value.page && c.value.eventId == r.value.eventId)
    ensures var d := Repaired(Keyed(r, g), worker, g);
            && (d.Some? <==> r.Some?)
            && (d.Some? ==> IsFor(d.value, g) && Fits(d.value, g) && Whole(d.value))
  {
  }

  /** A durable device record supplies everything but the page fields, whatever the other
      sources say; once it is marked sent, the merge is. */
  lemma DurableDeviceRules(s: Sources, worker: string, g: Device)
    requires Known(g) && s.diskDevice.Some?
    ensures var m := Merged(s, worker, g);
            var d := s.diskDevice.value;
            && m.Some? && IsFor(m.value, g)
            && m.value.eventId == d.eventId && m.value.createdAt == d.createdAt && m.value.cause == d.cause
            && m.value.worker == (if d.worker == "" then worker else d.worker)
            && Generation(m.value) == Generation(Keyed(s.diskDevice, g).value)
            && (d.page.state.Sent? ==> m.value.page == d.page)
  {
    var rs := Ordered(s, worker, g);
    assert rs[0] == Repaired(Keyed(s.diskDevice, g), worker, g);
    assert IsPhysical(rs[0]);
  }

  /** The merge says sent only if a source of the very same generation does. */
  lemma SentOnlyFromSameGeneration(s: Sources, worker: string, g: Device)
    ensures var m := Merged(s, worker, g);
            m.Some? && m.value.page.state.Sent? ==>
              exists r :: r in Ordered(s, worker, g) && r.Some? && r.value.page.state.Sent?
                  && Generation(r.value) == Generation(m.value)
  {
    hide Ordered;
    var rs := Ordered(s, worker, g);
    var physical := First(rs, IsPhysical);
    var base := if physical.Some? then physical else First(rs, r => true);
    var sent := First(rs, IsSent);
    if base.Some? {
      SamePageSameGeneration(base.value, if sent.Some? then sent.value.page else base.value.page);
      assert base in rs && (sent.Some? ==> sent in rs);
    }
  }

  /** Two records are of one latch exactly if they share the event id, or without any the time of
      creation, or without any of both everything that identifies a legacy record: for a GPU's
      latch not the worker. */
  lemma GenerationTellsApart(a: Record, b: Record)
    ensures Generation(a) == Generation(b) <==>
              if a.eventId != "" || b.eventId != "" then a.eventId == b.eventId
              else if a.createdAt != "" || b.createdAt != "" then a.createdAt == b.createdAt
              else a.scope == b.scope && a.hostname == b.hostname && a.index == b.index && a.cause == b.cause
                   && (a.scope == Physical || a.worker == b.worker)
  {
  }

  lemma SamePageSameGeneration(r: Record, page: Page)
    ensures Generation(r.(page := page)) == Generation(r)
  {
  }

  /** When a physical source is marked sent, the merge says so exactly if the first such source
      is of the generation of the first physical source, which is the generation of the merge. */
  lemma SentIsReportedIff(s: Sources, worker: string, g: Device, r: Option<Record>)
    requires r in Ordered(s, worker, g) && IsSent(r)
    ensures var rs := Ordered(s, worker, g);
            var m := Merged(s, worker, g);
            && First(rs, IsSent).Some? && First(rs, IsPhysical).Some? && m.Some?
            && Generation(m.value) == Generation(First(rs, IsPhysical).value)
            && (m.value.page.state.Sent? <==> Generation(First(rs, IsSent).value) == Generation(First(rs,
               IsPhysical).value))
  {
    hide Ordered;
    var rs := Ordered(s, worker, g);
    assert First(rs, IsSent).Some? && First(rs, IsPhysical).Some?;
    FirstSentIsFirst(rs);
    SamePageSameGeneration(First(rs, IsPhysical).value, First(rs, IsSent).value.page);
  }

  /** If the first physical source is sent, it is the first sent one. */
  lemma {:induction false} FirstSentIsFirst(rs: seq<Option<Record>>)
    ensures IsSent(First(rs, IsPhysical)) ==> First(rs, IsSent) == First(rs, IsPhysical)
  {
    if rs != [] { FirstSentIsFirst(rs[1..]); }
  }

  const CUDA0 := Device("h", "cuda:0")
  const PENDING := Record(Physical, "w", "h", "cuda:0", "one", "", "", Page(PageState.Pending, ""), true)
  const DELIVERED := PENDING.(page := Page(Sent, ""))
  const FOREIGN := DELIVERED.(eventId := "two")
  const MASKED := Sources(None, Some(PENDING), Some(FOREIGN), Some(DELIVERED))

  lemma MaskedOrder()
    ensures Ordered(MASKED, "w", CUDA0) == [None, Some(PENDING), Some(FOREIGN), Some(DELIVERED)]
  {
  }

  lemma MaskedMerge()
    ensures Merged(MASKED, "w", CUDA0) == Some(PENDING)
  {
    MaskedOrder();
    hide Ordered;
    var rs := Ordered(MASKED, "w", CUDA0);
    assert First(rs, IsSent) == First(rs[1..], IsSent) == First(rs[1..][1..], IsSent) == Some(FOREIGN);
    assert First(rs, IsPhysical) == First(rs[1..], IsPhysical) == Some(PENDING);
  }

  /** So a sent source of the merge's own generation can go unreported: the first sent source
      decides, and it may be of another generation. */
  lemma SentCanBeMasked()
    ensures exists s: Sources, worker, g, r :: Known(g) && r in Ordered(s, worker, g) && IsSent(r)
              && Merged(s, worker, g).Some? && Generation(r.value) == Generation(Merged(s, worker, g).value)
              && !Merged(s, worker, g).value.page.state.Sent?
  {
    MaskedOrder();
    MaskedMerge();
    hide Merged, Ordered;
    assert Some(DELIVERED) in Ordered(MASKED, "w", CUDA0) by {
      assert Ordered(MASKED, "w", CUDA0)[3] == Some(DELIVERED);
    }
  }
}
