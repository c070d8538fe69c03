/** Worker slots: which process generation owns a worker id, and when the next one may. */
module Slots {
  import opened Coordination
  import opened Sessions

  /** A worker process map. Old maps lack the last three fields. */
  datatype Registration = Registration(pid: int, start: Option<string>, group: Option<int>, session: Option<int>,
                                       argv: string)

  function SessionOf(r: Registration): int {
    if r.session.Some? then r.session.value else r.pid
  }

  function GroupOf(r: Registration): int {
    if r.group.Some? then r.group.value else r.pid
  }

  function StartOf(r: Registration): string {
    if r.start.Some? then r.start.value else ""
  }

  // ----- stopping one generation

  predicate Alive(p: Option<Process>) {
    p.Some? && !p.value.run.Zombie?
  }

  /** Still the process that was authenticated, as far as /proc shows. */
  predicate Authentic(p: Process, r: Registration, expected: string) {
    p.start == expected && p.group == r.pid && p.session == r.pid && (p.run.Zombie? || p.argv == r.argv)
  }

  /** The registration is of a session leader in a group of its own. */
  predicate OwnSession(r: Registration) {
    r.pid > 1 && (r.group == None || r.group == Some(r.pid)) && (r.session == None || r.session == Some(r.pid))
  }

  /** The start recorded for it, if any is. */
  predicate MayHaveStart(r: Registration, start: string) {
    r.start == None || r.start == Some("") || r.start == Some(start)
  }

  /** The registered process leads its own session, is alive, is the very process that was
      registered as far as anyone can tell, and no member of its session is in a system group. */
  predicate Stoppable(h: Host, r: Registration) {
    && OwnSession(r)
    && r.pid in h.table && h.table[r.pid].group == r.pid && h.table[r.pid].session == r.pid
    && !h.table[r.pid].run.Zombie? && h.table[r.pid].argv == r.argv
    && MayHaveStart(r, h.table[r.pid].start)
    && forall p :: p in h.table && h.table[p].session == r.pid ==> h.table[p].group > 1
  }

  /** The registered pid is not the registered process: another start, group or session. */
  predicate Foreign(h: Host, r: Registration) {
    r.pid in h.table && (|| !MayHaveStart(r, h.table[r.pid].start) || h.table[r.pid].group != r.pid
                         || h.table[r.pid].session != r.pid)
  }

  predicate AliveAt(h: Host, pid: int) {
    pid in h.table && !h.table[pid].run.Zombie?
  }

  /** It is alive and foreign, or runs another program. */
  predicate Reused(h: Host, r: Registration) {
    AliveAt(h, r.pid) && (Foreign(h, r) || h.table[r.pid].argv != r.argv)
  }

  lemma StoppableIsFreezable(h: Host, r: Registration)
    requires Stoppable(h, r)
    ensures Freezable(h, r.pid, h.table[r.pid].start)
  {
    assert r.pid in Members(h, r.pid);
  }

  method WaitOrForce(k: Kernel, sid: int, expected: string, known: set<int>, rounds: nat, looks: nat)
      returns (stopped: bool)
    requires Led(k.host, sid)
    modifies k
    ensures Later(old(k.host), k.host) && Led(k.host, sid)
    ensures stopped ==> Drained(k.host, sid)
    ensures old(k.schedule) == [] && rounds >= 2 && looks > 0 && old(Freezable(k.host, sid, expected)) ==> stopped
  {
    ghost var start := k.host;
    stopped := WaitForDrain(k, sid, known, looks);
    if stopped { return; }
    ghost var mid := k.host;
    stopped := ForceKill(k, sid, expected, known, rounds, looks);
    LaterIsTransitive(start, mid, k.host);
  }

  /** The leader is gone: either its session is drained too, or it is forced. */
  method StopLeaderless(k: Kernel, sid: int, expected: string, rounds: nat, looks: nat) returns (stopped: bool)
    requires Led(k.host, sid)
    modifies k
    ensures Later(old(k.host), k.host) && Led(k.host, sid)
    ensures stopped ==> Drained(k.host, sid)
    ensures old(k.schedule == [] && Freezable(k.host, sid, expected)) && rounds >= 2 && looks > 0 && expected != "" ==>
              stopped
  {
    ghost var start := k.host;
    var look, known := SessionDrained(k, sid, {sid});
    if look != Some(false) { return look == Some(true); }
    if expected == "" { return false; }
    ghost var mid := k.host;
    stopped := ForceKill(k, sid, expected, known, rounds, looks);
    LaterIsTransitive(start, mid, k.host);
  }

  /** _stop_authenticated_worker_group: true only with a proof that the registered session,
      which the registered process leads, can execute nothing any more. On a host left to itself
      it does stop every worker that can be authenticated, leaderless sessions of a known start
      included. Whatever else runs, it does nothing at all to a pid that its first look shows to
      be foreign, or its first and second to run another program, or its second and third to
      have changed since. */
  method StopWorker(k: Kernel, r: Registration, rounds: nat, looks: nat) returns (stopped: bool)
    requires Led(k.host, r.pid)
    modifies k
    ensures Later(old(k.host), k.host) && Led(k.host, r.pid)
    ensures stopped ==> SessionOf(r) == r.pid && GroupOf(r) == r.pid && Drained(k.host, r.pid)
    ensures old(k.schedule) == [] && rounds >= 2 && looks > 0 && old(Stoppable(k.host, r)) ==> stopped
    ensures old(k.schedule == [] && r.pid !in k.host.table && Freezable(k.host, r.pid, StartOf(r))) ==>
              (rounds >= 2 && looks > 0 && OwnSession(r) && StartOf(r) != "" ==> stopped)
    ensures var h1 := Ahead(old(k.host), old(k.schedule));
            var h2 := Ahead(h1, Rest(old(k.schedule)));
            var h3 := Ahead(h2, Rest(Rest(old(k.schedule))));
            && (Foreign(h1, r) ==> !stopped && (OwnSession(r) ==> k.host == h1))
            && (OwnSession(r) && !Foreign(h1, r) && Reused(h1, r) && AliveAt(h2, r.pid) ==> !stopped && k.host == h2)
            && (OwnSession(r) && AliveAt(h1, r.pid) && !Reused(h1, r) && Reused(h2, r) && AliveAt(h3, r.pid) ==>
                  !stopped && k.host == h3)
    ensures !OwnSession(r) ==> !stopped && k.host == old(k.host)
  {
    ghost var calm := k.schedule == [] && Stoppable(k.host, r);
    if calm { StoppableIsFreezable(k.host, r); }
    ghost var start := k.host;
    LaterIsTransitive(start, start, start);
    if r.pid <= 1 || GroupOf(r) != r.pid || SessionOf(r) != r.pid { return false; }
    var expected := StartOf(r);
    var identity := k.Identity(r.pid);
    DrainedIsStable(start, k.host, r.pid);
    ghost var a := k.host;
    if identity.None? {
      stopped := StopLeaderless(k, r.pid, expected, rounds, looks);
      LaterIsTransitive(start, a, k.host);
      return;
    }
    var p := identity.value;
    if (expected != "" && p.start != expected) || p.group != r.pid || p.session != r.pid { return false; }
    if p.run.Zombie? && expected == "" { return false; }
    if expected == "" { expected := p.start; }
    var current := k.Identity(r.pid);
    LaterIsTransitive(start, a, k.host);
    DrainedIsStable(a, k.host, r.pid);
    ghost var b := k.host;
    if !p.run.Zombie? && p.argv != r.argv {
      if Alive(current) { return false; }
      stopped := WaitOrForce(k, r.pid, expected, {r.pid}, rounds, looks);
    } else if current.None? {
      stopped := StopLeaderless(k, r.pid, expected, rounds, looks);
    } else {
      if !Authentic(current.value, r, expected) {
        var latest := k.Identity(r.pid);
        if Alive(latest) {
          LaterIsTransitive(start, b, k.host);
          DrainedIsStable(b, k.host, r.pid);
          return false;
        }
      } else {
        var _ := k.Pass();
      }
      LaterIsTransitive(start, b, k.host);
      DrainedIsStable(b, k.host, r.pid);
      b := k.host;
      stopped := WaitOrForce(k, r.pid, expected, {r.pid}, rounds, looks);
    }
    LaterIsTransitive(start, b, k.host);
  }

  // ----- the registry

  predicate SameGeneration(a: Registration, b: Registration) {
    a.pid == b.pid && a.start == b.start && a.group == b.group && a.session == b.session
  }

  /** What processes do to the worker maps: processes move, a launcher registers, someone has
      proven a session drained, someone deletes. */
  datatype Act =
    | Move(move: Sessions.Move)
    | Register(worker: string, r: Registration)
    | Prove(r: Registration)
    | Delete(worker: string, r: Registration)

  datatype Maps = Maps(slots: map<string, Registration>, expected: set<string>)

  /** One act's effect on the worker maps. */
  function Changed(m: Maps, a: Act): Maps {
    match a
    case Register(w, r) => if w in m.slots then m else Maps(m.slots[w := r], m.expected + {w})
    case Delete(w, r) =>
      if w in m.slots && SameGeneration(m.slots[w], r) then Maps(m.slots - {w}, m.expected - {w}) else m
    case _ => m
  }

  function ChangedAll(m: Maps, acts: seq<Act>): Maps
    decreases |acts|
  {
    if acts == [] then m else ChangedAll(Changed(m, acts[0]), acts[1..])
  }

  /** The two scripts on a worker's maps, and the drain that uses them. `elsewhere` is what
      other launchers and drainers do at the next moments this process has to wait. */
  class Registry {
    var slots: map<string, Registration>
    var expected: set<string>
    var elsewhere: seq<seq<Act>>

    function Value(): Maps
      reads this
    {
      Maps(slots, expected)
    }

    constructor (others: seq<seq<Act>>)
      ensures Value() == Maps(map[], {}) && elsewhere == others
    {
      slots, expected, elsewhere := map[], {}, others;
    }

    method RegisterIfEmpty(worker: string, r: Registration) returns (ok: bool)
      modifies this
      ensures ok <==> worker !in old(slots)
      ensures Value() == Changed(old(Value()), Register(worker, r))
      ensures ok ==> slots == old(slots)[worker := r] && expected == old(expected) + {worker}
      ensures !ok ==> slots == old(slots) && expected == old(expected)
    {
      if worker in slots { return false; }
      slots := slots[worker := r];
      expected := expected + {worker};
      return true;
    }

    /** The map must still be the very one that was read, absent fields included. */
    method DeleteIfCurrent(worker: string, r: Registration) returns (ok: bool)
      modifies this
      ensures ok <==> worker in old(slots) && old(slots)[worker].pid == r.pid && old(slots)[worker].start == r.start
                      && old(slots)[worker].group == r.group && old(slots)[worker].session == r.session
      ensures Value() == Changed(old(Value()), Delete(worker, r))
      ensures ok ==> slots == old(slots) - {worker} && expected == old(expected) - {worker}
      ensures !ok ==> slots == old(slots) && expected == old(expected)
    {
      if worker !in slots || slots[worker].pid != r.pid { return false; }
      if slots[worker].start != r.start { return false; }
      if slots[worker].group != r.group { return false; }
      if slots[worker].session != r.session { return false; }
      slots := slots - {worker};
      expected := expected - {worker};
      return true;
    }

    /** Others use the registry. */
    method Wait() returns (ghost others: seq<Act>)
      modifies this
      ensures Value() == ChangedAll(old(Value()), others)
      ensures old(elsewhere) == [] ==> others == []
    {
      others := [];
      if elsewhere != [] {
        others := elsewhere[0];
        var m := ChangedAll(Value(), elsewhere[0]);
        slots, expected, elsewhere := m.slots, m.expected, elsewhere[1..];
      }
    }

    /** _drain_registered_worker. Between the drain and the deletion others may use the
        registry. On success the generation that held the slot can execute nothing any more,
        and the slot, if it still showed that generation, is free; on failure this process has
        changed nothing. */
    method DrainRegistered(k: Kernel, worker: string, rounds: nat, looks: nat)
        returns (ok: bool, ghost others: seq<Act>)
      requires worker in slots ==> Led(k.host, slots[worker].pid)
      modifies this, k
      ensures Later(old(k.host), k.host)
      ensures worker !in old(slots) ==> ok && Value() == Maps(old(slots), old(expected) - {worker})
      ensures worker in old(slots) ==>
                var r := old(slots)[worker];
                var mid := ChangedAll(old(Value()), others);
                && (ok ==>
                      && SessionOf(r) == r.pid && Drained(k.host, r.pid) && worker in mid.slots
                         && SameGeneration(mid.slots[worker], r)
                      && Value() == Changed(mid, Delete(worker, r)) && worker !in slots)
                && (!ok ==> Value() == mid)
      ensures worker in old(slots) && old(k.schedule) == [] && old(elsewhere) == [] && rounds >= 2 && looks > 0
              && old(Stoppable(k.host, slots[worker])) ==>
                ok && slots == old(slots) - {worker} && expected == old(expected) - {worker}
      ensures worker in old(slots) && old(k.schedule) == [] && old(Reused(k.host, slots[worker])) ==>
                !ok && slots == old(slots) && expected == old(expected) && k.host == old(k.host)
    {
      LaterIsTransitive(k.host, k.host, k.host);
      others := [];
      if worker !in slots {
        expected := expected - {worker};
        return true, others;
      }
      var r := slots[worker];
      ghost var start := k.host;
      var stopped := StopWorker(k, r, rounds, looks);
      if !stopped { return false, others; }
      ghost var drained := k.host;
      var _ := k.Pass();
      LaterIsTransitive(start, drained, k.host);
      DrainedIsStable(drained, k.host, r.pid);
      others := Wait();
      ok := DeleteIfCurrent(worker, r);
    }
  }

  // ----- any number of launchers and drainers

  /** `past` are all registrations ever made for each worker id; `proven` those whose session
      some process has proven drained. */
  datatype Site = Site(host: Host, slots: map<string, Registration>, past: map<string, set<Registration>>,
                       proven: set<Registration>)

  function Past(s: Site, worker: string): set<Registration> {
    if worker in s.past then s.past[worker] else {}
  }

  /** A registration is written for a live session leader as it was read; a deletion follows
      a proof. */
  predicate Enabled(s: Site, a: Act) {
    match a
    case Move(_) => true
    case Register(_, r) =>
      && r.pid in s.host.used && r.start.Some? && r.group == Some(r.pid) && r.session == Some(r.pid)
      && (r.pid in s.host.table ==> s.host.table[r.pid].session == r.pid)
    case Prove(r) => Drained(s.host, SessionOf(r)) && Led(s.host, SessionOf(r))
    case Delete(_, r) => r in s.proven
  }

  function Next(s: Site, a: Act): Site
    requires Enabled(s, a)
  {
    match a
    case Move(m) => s.(host := Moved(s.host, m))
    case Register(w, r) =>
      if w in s.slots then s else s.(slots := s.slots[w := r], past := s.past[w := Past(s, w) + {r}])
    case Prove(r) => s.(proven := s.proven + {r})
    case Delete(_, _) => s.(slots := Changed(Maps(s.slots, {}), a).slots)
  }

  ghost predicate CanRun(s: Site, acts: seq<Act>)
    decreases |acts|
  {
    acts != [] ==> Enabled(s, acts[0]) && CanRun(Next(s, acts[0]), acts[1..])
  }

  function After(s: Site, acts: seq<Act>): Site
    requires CanRun(s, acts)
    decreases |acts|
  {
    if acts == [] then s else After(Next(s, acts[0]), acts[1..])
  }

  /** Every generation of a worker id but the registered one can execute nothing any more. */
  ghost predicate Exclusive(s: Site) {
    && (forall r :: r in s.proven ==> Led(s.host, SessionOf(r)) && Drained(s.host, SessionOf(r)))
    && (forall w, r :: w in s.past && r in s.past[w] ==>
          Led(s.host, SessionOf(r)) && (w !in s.slots || s.slots[w] != r ==> Drained(s.host, SessionOf(r))))
  }

  lemma MoveKeeps(h: Host, m: Sessions.Move, sid: int)
    requires Led(h, sid)
    ensures Led(Moved(h, m), sid) && (Drained(h, sid) ==> Drained(Moved(h, m), sid))
  {
    MovedIsLater(h, m);
    DrainedIsStable(h, Moved(h, m), sid);
  }

  lemma ExclusiveStays(s: Site, a: Act)
    requires Exclusive(s) && Enabled(s, a)
    ensures Exclusive(Next(s, a))
  {
    hide Led, Drained, Moved;
    if a.Move? {
      forall sid | Led(s.host, sid)
        ensures Led(Moved(s.host, a.move), sid) && (Drained(s.host, sid) ==> Drained(Moved(s.host, a.move), sid))
      {
        MoveKeeps(s.host, a.move, sid);
      }
    } else if a.Register? {
      assert Led(s.host, SessionOf(a.r)) by { LeaderLeads(s.host, a.r); }
    }
  }

  lemma LeaderLeads(h: Host, r: Registration)
    requires r.pid in h.used && r.session == Some(r.pid) && (r.pid in h.table ==> h.table[r.pid].session == r.pid)
    ensures Led(h, SessionOf(r))
  {
  }

  /** One executing generation per worker id: in every run of launchers, drainers and the
      processes themselves, whenever a session of a registration ever made for the id can
      still execute, that registration is the one the slot shows; and a new one was let in
      only after all earlier ones were dead. */
  lemma {:induction false} OneGenerationPerSlot(s: Site, acts: seq<Act>, w: string, r: Registration)
    requires Exclusive(s) && CanRun(s, acts)
    requires r in Past(After(s, acts), w) && !Drained(After(s, acts).host, SessionOf(r))
    ensures w in After(s, acts).slots && After(s, acts).slots[w] == r
    decreases |acts|
  {
    hide Drained, Led, Next, Enabled;
    if acts != [] {
      ExclusiveStays(s, acts[0]);
      OneGenerationPerSlot(Next(s, acts[0]), acts[1..], w, r);
    }
  }

  // ----- the procedure is such a run

  lemma {:induction false} RunsJoin(s: Site, a: seq<Act>, b: seq<Act>)
    requires CanRun(s, a) && CanRun(After(s, a), b)
    ensures CanRun(s, a + b) && After(s, a + b) == After(After(s, a), b)
    decreases |a|
  {
    hide Next, Enabled;
    if a == [] {
      assert a + b == b;
    } else {
      assert (a + b)[1..] == a[1..] + b && (a + b)[0] == a[0];
      RunsJoin(Next(s, a[0]), a[1..], b);
    }
  }

  function AsActs(ms: seq<Sessions.Move>): seq<Act> {
    if ms == [] then [] else [Move(ms[0])] + AsActs(ms[1..])
  }

  lemma {:induction false} MovesRun(s: Site, ms: seq<Sessions.Move>)
    ensures CanRun(s, AsActs(ms)) && After(s, AsActs(ms)) == s.(host := MovedAll(s.host, ms))
    decreases |ms|
  {
    hide Moved;
    if ms != [] {
      MovesRun(Next(s, Move(ms[0])), ms[1..]);
      assert AsActs(ms)[1..] == AsActs(ms[1..]);
    }
  }

  /** A run changes the worker maps as its acts, one by one, do. */
  lemma {:induction false} SlotsFollow(s: Site, acts: seq<Act>, expected: set<string>)
    requires CanRun(s, acts)
    ensures After(s, acts).slots == ChangedAll(Maps(s.slots, expected), acts).slots
    ensures s.proven <= After(s, acts).proven
    decreases |acts|
  {
    if acts != [] {
      var m := Changed(Maps(s.slots, expected), acts[0]);
      assert m.slots == Next(s, acts[0]).slots;
      SlotsFollow(Next(s, acts[0]), acts[1..], m.expected);
    }
  }

  /** What DrainRegistered does when it has stopped the worker, with any moves `ms` of processes
      until its proof and any acts of others between the proof and its deletion, is one run of
      the site: a proof followed by a deletion. So OneGenerationPerSlot speaks of it. */
  lemma DrainIsARun(s: Site, ms: seq<Sessions.Move>, others: seq<Act>, worker: string, r: Registration,
                    expected: set<string>)
    requires Led(s.host, r.pid) && SessionOf(r) == r.pid && Drained(MovedAll(s.host, ms), r.pid)
    requires var t := s.(host := MovedAll(s.host, ms), proven := s.proven + {r}); CanRun(t, others)
    ensures var acts := AsActs(ms) + ([Prove(r)] + (others + [Delete(worker, r)]));
            && CanRun(s, acts)
            && After(s, acts).slots == Changed(ChangedAll(Maps(s.slots, expected), others), Delete(worker, r)).slots
            && (Exclusive(s) ==> Exclusive(After(s, acts)))
  {
    hide Led, Drained, Moved;
    var a := s.(host := MovedAll(s.host, ms));
    var t := a.(proven := s.proven + {r});
    MovesRun(s, ms);
    assert Led(a.host, r.pid) by { assert Later(s.host, a.host); DrainedIsStable(s.host, a.host, r.pid); }
    assert Enabled(a, Prove(r)) && Next(a, Prove(r)) == t;
    SlotsFollow(t, others, expected);
    var u := After(t, others);
    assert Enabled(u, Delete(worker, r));
    OneAct(u, Delete(worker, r));
    RunsJoin(t, others, [Delete(worker, r)]);
    OneAct(a, Prove(r));
    RunsJoin(a, [Prove(r)], others + [Delete(worker, r)]);
    RunsJoin(s, AsActs(ms), [Prove(r)] + (others + [Delete(worker, r)]));
    if Exclusive(s) { ExclusiveThroughout(s, AsActs(ms) + ([Prove(r)] + (others + [Delete(worker, r)]))); }
    SlotsAlone(ChangedAll(Maps(s.slots, expected), others), u.slots, worker, r);
  }

  lemma SlotsAlone(m: Maps, slots: map<string, Registration>, worker: string, r: Registration)
    requires m.slots == slots
    ensures Changed(m, Delete(worker, r)).slots == Changed(Maps(slots, {}), Delete(worker, r)).slots
  {
  }

  lemma OneAct(s: Site, a: Act)
    requires Enabled(s, a)
    ensures CanRun(s, [a]) && After(s, [a]) == Next(s, a)
  {
    assert [a][1..] == [];
  }

  lemma {:induction false} ExclusiveThroughout(s: Site, acts: seq<Act>)
    requires Exclusive(s) && CanRun(s, acts)
    ensures Exclusive(After(s, acts))
    decreases |acts|
  {
    hide Exclusive, Next, Enabled;
    if acts != [] {
      ExclusiveStays(s, acts[0]);
      ExclusiveThroughout(Next(s, acts[0]), acts[1..]);
    }
  }
}
