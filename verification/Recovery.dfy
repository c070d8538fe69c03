/** Inflight recovery: what a restarted worker does with the claims an earlier process left. */
module Recovery {
  import opened Coordination
  import opened Guard
  import opened TaskScripts
  import opened WorkflowScripts
  import opened Protocol
  import opened Conservation
  import Store

  const RECOVERED := "worker_process_recovered_inflight_claim"

  /** The treatment of one scanned entry by a process with this instance id. */
  function RecoverEntry(db: Redis, v: Worker, e: Entry, instance: string, release: bool): (r: Redis)
    ensures e.Entry? ==> Touches(db, r, e.id)
    ensures e.Malformed? ==> r == db
  {
    hide Ack, Finalize, Requeue, Forget;
    match e
    case Malformed(_) => db
    case Entry(token, id) =>
      if !Current(db, id, token) then Forget(db, id, v, token)
      else
        var t := db.tasks[id];
        var c := t.claim.value;
        if !c.recovery.Unfenced? && !release then Untouched(db, id); db
        else if c.instance == instance then Untouched(db, id); db
        else if Terminal(t.status) then Ack(db, id, v, token, release).db
        else if CancelSeen(db.life, id, t.data.base) then
          Finalize(db, id, v, token, Failed, CANCELLED, release).db
        else Requeue(db, id, v, token, c.source, t.data.(note := RECOVERED), t.assignee, t.assignedAt, t.data.base,
                     if release then ReleaseAll else NoRelease).db
  }

  function RecoverAll(db: Redis, v: Worker, scan: seq<Entry>, instance: string, release: bool): Redis
    decreases |scan|
  {
    if scan == [] then db else RecoverAll(RecoverEntry(db, v, scan[0], instance, release), v, scan[1..], instance,
                                          release)
  }

  /** The scan loop, on the store. */
  method RecoverInflight(store: Store.Store, v: Worker, scanLimit: nat, instance: string, release: bool)
    modifies store
    ensures var scan := Running(old(store.Value()).inflight, v);
            store.Value() == RecoverAll(old(store.Value()), v, if scanLimit <= |scan| then scan[..scanLimit] else scan,
                                        instance, release)
  {
    hide Copies, Entries, Forget, Ack, Finalize, Requeue;
    var scan := Running(store.inflight, v);
    if scanLimit <= |scan| { scan := scan[..scanLimit]; }
    for i := 0 to |scan|
      invariant RecoverAll(store.Value(), v, scan[i..], instance, release) == RecoverAll(old(store.Value()), v, scan,
              instance, release)
    {
      assert scan[i..][0] == scan[i] && scan[i..][1..] == scan[i + 1..];
      if scan[i].Malformed? { continue; }
      var token, id := scan[i].token, scan[i].id;
      if !Current(store.Value(), id, token) {
        store.ForgetEntry(id, v, token);
        continue;
      }
      var t := store.tasks[id];
      var c := t.claim.value;
      if !c.recovery.Unfenced? && !release { continue; }
      if c.instance == instance { continue; }
      if Terminal(t.status) {
        var _ := store.AckClaim(id, v, token, release);
        continue;
      }
      if CancelSeen(store.life, id, t.data.base) {
        var _ := store.FinalizeClaim(id, v, token, Failed, CANCELLED, release);
        continue;
      }
      var _ := store.RequeueClaim(id, v, token, c.source, t.data.(note := RECOVERED), t.assignee, t.assignedAt,
                                  t.data.base,
                                  if release then ReleaseAll else NoRelease);
    }
  }

  // ----- what a pass achieves

  /** The claim is one this pass must not touch. */
  predicate Protected(c: Claim, instance: string, release: bool) {
    (!c.recovery.Unfenced? && !release) || c.instance == instance
  }

  ghost predicate Mentions(scan: seq<Entry>, id: string) {
    exists i :: 0 <= i < |scan| && scan[i].Entry? && scan[i].id == id
  }

  /** The id, which carried task `t`, has left the hands of the old process. A cancelled attempt
      has failed, any other whose guard is open waits once in its recorded source queue under the
      note that says why, and one whose guard is closed is abandoned. */
  ghost predicate Settled(w: World, id: string, t: Task) {
    && id in w.db.tasks && t.claim.Some? && w.db.tasks[id].claim.None?
    && PlacedTask(w, id, w.db.tasks[id]) && !Lost(w, id)
    && var gone := w.db.life.cancels + w.db.life.tombstones;
       if Name.Child(id) in gone || (t.data.base.Some? && Name.Parent(t.data.base.value) in gone) then
         w.db.tasks[id] == t.(status := Failed, claim := None)
       else if Admitted(w.db, t) then
         && w.db.tasks[id] == t.(status := Pending, claim := None,
                                 data := t.data.(note := "worker_process_recovered_inflight_claim"))
         && OneCopy(w.db.queues, id, t.claim.value.source)
       else w.db.tasks[id] == t.(claim := None)
  }

  lemma {:induction false} UnmentionedIsUntouched(db: Redis, v: Worker, scan: seq<Entry>, instance: string,
                                                  release: bool, id: string)
    requires !Mentions(scan, id)
    ensures SameSlot(db, RecoverAll(db, v, scan, instance, release), id)
    ensures RecoverAll(db, v, scan, instance, release).life == db.life
    decreases |scan|
  {
    hide RecoverEntry, Copies, Entries;
    if scan != [] {
      var d := RecoverEntry(db, v, scan[0], instance, release);
      forall i | 0 <= i < |scan[1..]|
        ensures !(scan[1..][i].Entry? && scan[1..][i].id == id)
      {
        assert scan[1..][i] == scan[i + 1];
      }
      assert !(scan[0].Entry? && scan[0].id == id);
      assert SameSlot(db, d, id);
      UnmentionedIsUntouched(d, v, scan[1..], instance, release, id);
    }
  }

  /** A pass leaves a fenced claim (without release authority) and a claim of its own
      process exactly as they were, and settles every other claim it meets. */
  lemma RecoverEntrySettles(w: World, v: Worker, token: string, id: string, instance: string, release: bool)
    requires Placed(w, id) && Current(w.db, id, token) && w.db.tasks[id].claim.value.worker == v
    ensures var w' := w.(db := RecoverEntry(w.db, v, Entry(token, id), instance, release));
            var c := w.db.tasks[id].claim.value;
            if Protected(c, instance, release) then w' == w else Settled(w', id, w.db.tasks[id])
  {
    hide Copies, Entries, Admits, NoEntries, OneEntry, OneCopy, NoCopies, Bookkept, Requeue, Forget, CancelSeen,
        Finalize, Settled;
    if w.db.tasks[id].claim.value.recovery.Unfenced? || release {
      if CancelSeen(w.db.life, id, w.db.tasks[id].data.base) {
        FinalizeSettles(w, v, token, id, release);
      } else {
        RequeueSettles(w, v, token, id, release);
      }
    }
  }

  lemma RequeueSettles(w: World, v: Worker, token: string, id: string, release: bool)
    requires Placed(w, id) && Current(w.db, id, token) && w.db.tasks[id].claim.value.worker == v
    requires w.db.tasks[id].claim.value.recovery.Unfenced? || release
    requires !CancelSeen(w.db.life, id, w.db.tasks[id].data.base)
    ensures var t := w.db.tasks[id];
            Settled(w.(db := Requeue(w.db, id, v, token, t.claim.value.source, t.data.(note := RECOVERED), t.assignee,
                                     t.assignedAt, t.data.base,
                                     if release then ReleaseAll else NoRelease).db), id, t)
  {
    hide Copies, Entries, Admits, NoEntries, OneEntry, Bookkept, Requeue, Forget;
    var t := w.db.tasks[id];
    RequeueSlot(w.db, id, v, token, t.claim.value.source, t.data.(note := RECOVERED), t.assignee, t.assignedAt,
                t.data.base,
                if release then ReleaseAll else NoRelease);
    var d := Requeue(w.db, id, v, token, t.claim.value.source, t.data.(note := RECOVERED), t.assignee, t.assignedAt,
                     t.data.base, if release then ReleaseAll else NoRelease);
    assert d.code != -4 && !Marked(w.db.life, id, t.data.base);
    if d.code != -2 {
      assert Copies(d.db.queues, t.claim.value.source, id) == 1;
      assert PlacedTask(w.(db := d.db), id, d.db.tasks[id]);
    }
  }

  lemma FinalizeSettles(w: World, v: Worker, token: string, id: string, release: bool)
    requires Placed(w, id) && Current(w.db, id, token) && w.db.tasks[id].claim.value.worker == v
    requires w.db.tasks[id].claim.value.recovery.Unfenced? || release
    requires CancelSeen(w.db.life, id, w.db.tasks[id].data.base)
    ensures Settled(w.(db := Finalize(w.db, id, v, token, Failed, CANCELLED, release).db), id,
                    w.db.tasks[id])
  {
    hide Copies, Entries, Admits, NoEntries, OneEntry, OneCopy, NoCopies, Forget;
    ForgetClears(w.db, id, v, token);
  }

  /** The protocol step that the treatment of one entry amounts to, if it changes anything. */
  function RecoveryStep(w: World, token: string, instance: string, release: bool): Option<Event>
    requires token in w.claims
  {
    var id := w.claims[token].id;
    if !Current(w.db, id, token) then Some(DropStale(token))
    else if Protected(w.db.tasks[id].claim.value, instance, release) then None
    else if CancelSeen(w.db.life, w.claims[token].id, w.claims[token].base)
        then Some(FinalizeClaim(token, Failed, CANCELLED, release))
    else Some(Event.RequeueClaim(token, true, if release then ReleaseAll else NoRelease, RECOVERED))
  }

  /** Recovery needs no rule of its own: on every entry it meets in a reachable world it
      does what some enabled event does, or nothing. So it may interleave with everything
      else and every theorem about runs covers it. */
  lemma RecoveryIsARun(w: World, v: Worker, token: string, id: string, instance: string, release: bool)
    requires Valid(w) && id !in w.loose && Entries(w.db.inflight, v, Entry(token, id)) > 0
    ensures token in w.claims
    ensures var step := RecoveryStep(w, token, instance, release);
            var db' := RecoverEntry(w.db, v, Entry(token, id), instance, release);
            if step.None? then db' == w.db else Enabled(w, step.value) && Reply(w, step.value).db == db'
  {
    hide Copies, Entries, Admits, NoEntries, OneEntry, OneCopy, NoCopies, Bookkept, Enrolled, Requeue, Forget, Finalize,
        Ack, CancelSeen;
    assert Ticketed(w) && Placed(w, id);
    hide Conserved;
    assert w.claims[token].id == id && w.claims[token].worker == v;
    if Current(w.db, id, token) {
      assert Held(w, id, w.db.tasks[id], w.db.tasks[id].claim.value);
    }
  }

  /** The entry stands in the scan, and nothing else in it is about the same id. */
  ghost predicate OnlyAt(scan: seq<Entry>, token: string, id: string) {
    exists i :: 0 <= i < |scan| && scan[i] == Entry(token, id)
                && forall j :: 0 <= j < |scan| && j != i ==> !(scan[j].Entry? && scan[j].id == id)
  }

  lemma SettledStays(w: World, w': World, id: string, t: Task)
    requires Settled(w, id, t) && w' == w.(db := w'.db)
    requires SameSlot(w.db, w'.db, id) && w'.db.life == w.db.life
    ensures Settled(w', id, t)
  {
    hide Copies, Entries, Admits;
  }

  lemma SlotPlacedStays(w: World, w': World, id: string)
    requires Placed(w, id) && w' == w.(db := w'.db)
    requires SameSlot(w.db, w'.db, id) && w'.db.life == w.db.life
    ensures Placed(w', id)
  {
    hide Placed, Admits, SameSlot;
    PlacedStays(w, w', id) by {
      assert SameSlot(w.db, w'.db, id);
      assert SameTicket(w, w', id);
      assert id in w.db.tasks && Closed(w.db, w.db.tasks[id]) ==> Closed(w'.db, w.db.tasks[id]);
    }
  }

  lemma {:induction false} RecoverAllSettles(w: World, v: Worker, scan: seq<Entry>, instance: string, release: bool,
                                             token: string, id: string)
    requires Placed(w, id)
    requires Current(w.db, id, token) && w.db.tasks[id].claim.value.worker == v
    requires OnlyAt(scan, token, id)
    ensures var w' := w.(db := RecoverAll(w.db, v, scan, instance, release));
            var c := w.db.tasks[id].claim.value;
            if Protected(c, instance, release) then SameSlot(w.db, w'.db, id) else Settled(w', id, w.db.tasks[id])
    decreases |scan|
  {
    hide RecoverEntry, Copies, Entries, Placed, Bookkept, Settled, Protected, SameSlot;
    var i :| 0 <= i < |scan| && scan[i] == Entry(token, id)
             && forall j :: 0 <= j < |scan| && j != i ==> !(scan[j].Entry? && scan[j].id == id);
    var w1 := w.(db := RecoverEntry(w.db, v, scan[0], instance, release));
    var w' := w1.(db := RecoverAll(w1.db, v, scan[1..], instance, release));
    var c := w.db.tasks[id].claim.value;
    if i == 0 {
      assert !Mentions(scan[1..], id) by {
        forall j | 0 <= j < |scan[1..]| ensures !(scan[1..][j].Entry? && scan[1..][j].id == id) {
          assert scan[1..][j] == scan[j + 1];
        }
      }
      UnmentionedIsUntouched(w1.db, v, scan[1..], instance, release, id);
      RecoverEntrySettles(w, v, token, id, instance, release);
      if !Protected(c, instance, release) { SettledStays(w1, w', id, w.db.tasks[id]); }
    } else {
      assert OnlyAt(scan[1..], token, id) by {
        assert scan[1..][i - 1] == Entry(token, id);
        forall j | 0 <= j < |scan[1..]| && j != i - 1 ensures !(scan[1..][j].Entry? && scan[1..][j].id == id) {
          assert scan[1..][j] == scan[j + 1];
        }
      }
      assert SameSlot(w.db, w1.db, id) && w1.db.life == w.db.life by {
        SelfSlot(w.db, id);
      }
      SlotPlacedStays(w, w1, id);
      SlotFacts(w.db, w1.db, id);
      RecoverAllSettles(w1, v, scan[1..], instance, release, token, id);
      SlotsChain(w.db, w1.db, w'.db, id);
    }
  }

  lemma SelfSlot(db: Redis, id: string)
    ensures SameSlot(db, db, id)
  {
  }

  lemma SlotFacts(db: Redis, db': Redis, id: string)
    requires SameSlot(db, db', id)
    ensures (id in db.tasks <==> id in db'.tasks) && (id in db.tasks ==> db'.tasks[id] == db.tasks[id])
  {
  }

  lemma SlotsChain(a: Redis, b: Redis, c: Redis, id: string)
    requires SameSlot(a, b, id)
    ensures SameSlot(b, c, id) ==> SameSlot(a, c, id)
  {
    hide Copies, Entries;
  }

  // ----- crashes and reruns

  /** One scan that stops, by its limit or by a crash, after at most `n` entries. */
  function Pass(db: Redis, v: Worker, n: nat, instance: string, release: bool): Redis {
    var list := Running(db.inflight, v);
    RecoverAll(db, v, if n <= |list| then list[..n] else list, instance, release)
  }

  lemma WindowHasOne(fl: InFlight, v: Worker, n: nat, token: string, id: string)
    requires OneEntry(fl, id, token, v)
    ensures var list := Running(fl, v);
            var scan := if n <= |list| then list[..n] else list;
            (Entry(token, id) in scan && OnlyAt(scan, token, id)) || !Mentions(scan, id)
  {
    var list := Running(fl, v);
    var scan := if n <= |list| then list[..n] else list;
    assert list == scan + list[|scan|..];
    assert forall other :: Entries(fl, v, Entry(other, id)) == if other == token then 1 else 0;
    forall j | 0 <= j < |scan| && scan[j].Entry? && scan[j].id == id
      ensures scan[j] == Entry(token, id)
    {
      assert scan[j] in multiset(list);
      assert Entries(fl, v, Entry(scan[j].token, id)) > 0;
    }
    if Mentions(scan, id) {
      var i :| 0 <= i < |scan| && scan[i].Entry? && scan[i].id == id;
      forall j | 0 <= j < |scan| && j != i
        ensures !(scan[j].Entry? && scan[j].id == id)
      {
        if scan[j].Entry? && scan[j].id == id {
          TwiceIsTwo(list, i, j, Entry(token, id));
        }
      }
    }
  }

  lemma TwiceIsTwo(list: seq<Entry>, i: nat, j: nat, e: Entry)
    requires i < |list| && j < |list| && i != j && list[i] == e && list[j] == e
    ensures multiset(list)[e] >= 2
  {
    var (a, b) := if i < j then (i, j) else (j, i);
    assert list == list[..a] + [e] + list[a + 1..b] + [e] + list[b + 1..];
  }

  /** Recovery over any list: without release authority fenced claims, and always the
      process's own claims, are left exactly as they were; a claim in the window is settled;
      a claim beyond it, or beyond the crash, is left as it was for the next scan. */
  lemma PassSettles(w: World, v: Worker, n: nat, instance: string, release: bool, token: string, id: string)
    requires Placed(w, id)
    requires Current(w.db, id, token) && w.db.tasks[id].claim.value.worker == v
    ensures var w' := w.(db := Pass(w.db, v, n, instance, release));
            var c := w.db.tasks[id].claim.value;
            var list := Running(w.db.inflight, v);
            && w'.db.life == w.db.life
            && (Protected(c, instance, release) ==> SameSlot(w.db, w'.db, id))
            && (!Protected(c, instance, release) ==> (Settled(w', id, w.db.tasks[id]) || SameSlot(w.db, w'.db, id)))
            && (!Protected(c, instance, release) && Entry(token, id) in (if n <= |list| then list[..n] else list)
                ==> Settled(w', id, w.db.tasks[id]))
  {
    hide RecoverAll, Copies, Entries, Settled, Protected, SameSlot, Bookkept, OnlyAt, NoCopies, Closed;
    var list := Running(w.db.inflight, v);
    var scan := if n <= |list| then list[..n] else list;
    WindowHasOne(w.db.inflight, v, n, token, id);
    LifeKept(w.db, v, scan, instance, release);
    if Mentions(scan, id) {
      hide Placed;
      RecoverAllSettles(w, v, scan, instance, release, token, id);
    } else {
      UnmentionedIsUntouched(w.db, v, scan, instance, release, id);
    }
  }

  lemma {:induction false} LifeKept(db: Redis, v: Worker, scan: seq<Entry>, instance: string, release: bool)
    ensures RecoverAll(db, v, scan, instance, release).life == db.life
    decreases |scan|
  {
    hide RecoverEntry;
    if scan != [] {
      LifeKept(RecoverEntry(db, v, scan[0], instance, release), v, scan[1..], instance, release);
    }
  }

  /** One start of a worker process: how far its scan gets, its fresh instance id, and
      whether it holds the authority to release fences. */
  datatype Rerun = Rerun(window: nat, instance: string, release: bool)

  function Passes(db: Redis, v: Worker, runs: seq<Rerun>): Redis
    decreases |runs|
  {
    if runs == [] then db else Passes(Pass(db, v, runs[0].window, runs[0].instance, runs[0].release), v, runs[1..])
  }

  predicate AllProtect(c: Claim, runs: seq<Rerun>) {
    forall i :: 0 <= i < |runs| ==> Protected(c, runs[i].instance, runs[i].release)
  }

  lemma NoEntriesUnmentioned(fl: InFlight, v: Worker, n: nat, id: string)
    requires NoEntries(fl, id)
    ensures var list := Running(fl, v); !Mentions(if n <= |list| then list[..n] else list, id)
  {
    var list := Running(fl, v);
    forall i | 0 <= i < |list| && list[i].Entry?
      ensures list[i].id != id
    {
      assert list[i] in multiset(list);
      assert Entries(fl, v, Entry(list[i].token, list[i].id)) > 0;
    }
  }

  lemma SettledPass(w: World, v: Worker, n: nat, instance: string, release: bool, id: string, t: Task)
    requires Settled(w, id, t)
    ensures var w' := w.(db := Pass(w.db, v, n, instance, release)); Settled(w', id, t) && w'.db.life == w.db.life
  {
    var list := Running(w.db.inflight, v);
    var scan := if n <= |list| then list[..n] else list;
    NoEntriesUnmentioned(w.db.inflight, v, n, id);
    hide RecoverAll, Copies, Entries, Settled, SameSlot;
    UnmentionedIsUntouched(w.db, v, scan, instance, release, id);
    SettledStays(w, w.(db := Pass(w.db, v, n, instance, release)), id, t);
  }

  /** Crashing anywhere and rerunning in new processes, any number of times, loses nothing: a
      claim is settled, or still exactly as it was for the next scan; and it is exactly as it
      was while every process had to leave it alone. */
  lemma {:induction false} CrashedPassesLoseNothing(w: World, v: Worker, runs: seq<Rerun>, token: string, id: string)
    requires Placed(w, id)
    requires Current(w.db, id, token) && w.db.tasks[id].claim.value.worker == v
    ensures var w' := w.(db := Passes(w.db, v, runs));
            var c := w.db.tasks[id].claim.value;
            if AllProtect(c, runs) then SameSlot(w.db, w'.db, id)
            else Settled(w', id, w.db.tasks[id]) || SameSlot(w.db, w'.db, id)
    decreases |runs|
  {
    hide Pass, Settled, SameSlot, Placed, Protected;
    if runs == [] {
      SelfSlot(w.db, id);
    } else {
      var c := w.db.tasks[id].claim.value;
      var r := runs[0];
      var w1 := w.(db := Pass(w.db, v, r.window, r.instance, r.release));
      PassSettles(w, v, r.window, r.instance, r.release, token, id);
      assert AllProtect(c, runs) ==> Protected(c, r.instance, r.release) && AllProtect(c, runs[1..]);
      assert Protected(c, r.instance, r.release) && AllProtect(c, runs[1..]) ==> AllProtect(c, runs);
      if Settled(w1, id, w.db.tasks[id]) && !Protected(c, r.instance, r.release) {
        SettledPasses(w1, v, runs[1..], id, w.db.tasks[id]);
      } else {
        SlotPlacedStays(w, w1, id);
        SlotFacts(w.db, w1.db, id);
        CrashedPassesLoseNothing(w1, v, runs[1..], token, id);
        SlotsChain(w.db, w1.db, Passes(w1.db, v, runs[1..]), id);
      }
    }
  }

  lemma {:induction false} SettledPasses(w: World, v: Worker, runs: seq<Rerun>, id: string, t: Task)
    requires Settled(w, id, t)
    ensures Settled(w.(db := Passes(w.db, v, runs)), id, t)
    decreases |runs|
  {
    hide Pass, Settled;
    if runs != [] {
      var w1 := w.(db := Pass(w.db, v, runs[0].window, runs[0].instance, runs[0].release));
      SettledPass(w, v, runs[0].window, runs[0].instance, runs[0].release, id, t);
      SettledPasses(w1, v, runs[1..], id, t);
    } else {
      assert w.(db := Passes(w.db, v, runs)) == w;
    }
  }
}
