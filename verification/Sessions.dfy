/** Draining a worker's session on a host whose processes fork, exit, change group and leave
    the session while it is being drained. */
module Sessions {
  import opened Coordination

  /** Process state letters: Z is a zombie, T and t are stopped, all others may execute. */
  datatype Run = Executable | Stopped | Zombie

  datatype Process = Process(start: string, run: Run, group: int, session: int, argv: string)

  /** The process table, and every pid ever given out. */
  datatype Host = Host(table: map<int, Process>, used: set<int>)

  /** What processes, and signals from anywhere, do between two looks at the table. Nobody
      continues a stopped process, and pids are not given out twice. */
  datatype Move =
    | Fork(parent: int, child: int, start: string)
    | SetGroup(caller: int, target: int, group: int)
    | NewSession(pid: int)
    | Exec(pid: int, argv: string)
    | Stop(pid: int)
    | Exit(pid: int)
    | Reap(pid: int)
    | StopGroup(group: int)
    | KillGroup(group: int)

  predicate Runs(h: Host, pid: int) {
    pid in h.table && h.table[pid].run.Executable?
  }

  predicate CanMove(h: Host, m: Move) {
    match m
    case Fork(parent, child, _) => Runs(h, parent) && child !in h.used
    case SetGroup(caller, target, g) =>
      && Runs(h, caller) && target in h.table && h.table[target].session == h.table[caller].session
      && (g == target || exists q ::
           q in h.table && h.table[q].group == g && h.table[q].session == h.table[caller].session)
    case NewSession(pid) => Runs(h, pid) && h.table[pid].session != pid && forall q ::
        q in h.table ==> h.table[q].group != pid
    case Exec(pid, _) => Runs(h, pid)
    case Stop(pid) => Runs(h, pid)
    case Exit(pid) => pid in h.table
    case Reap(pid) => pid in h.table && h.table[pid].run.Zombie?
    case _ => true
  }

  function Moved(h: Host, m: Move): Host {
    if !CanMove(h, m) then h
    else
      match m
      case Fork(parent, child, start) => Host(h.table[child := h.table[parent].(start := start)], h.used + {child})
      case SetGroup(_, target, g) => h.(table := h.table[target := h.table[target].(group := g)])
      case NewSession(pid) => h.(table := h.table[pid := h.table[pid].(session := pid, group := pid)])
      case Exec(pid, argv) => h.(table := h.table[pid := h.table[pid].(argv := argv)])
      case Stop(pid) => h.(table := h.table[pid := h.table[pid].(run := Stopped)])
      case Exit(pid) => h.(table := h.table[pid := h.table[pid].(run := Zombie)])
      case Reap(pid) => h.(table := h.table - {pid})
      case StopGroup(g) =>
        h.(table := map p | p in h.table :: if h.table[p].group == g && h.table[p].run.Executable?
            then h.table[p].(run := Stopped) else h.table[p])
      case KillGroup(g) =>
        h.(table := map p | p in h.table :: if h.table[p].group == g then h.table[p].(run := Zombie) else h.table[p])
  }

  function MovedAll(h: Host, ms: seq<Move>): Host
    decreases |ms|
  {
    if ms == [] then h else MovedAll(Moved(h, ms[0]), ms[1..])
  }

  ghost predicate Later(a: Host, b: Host) {
    exists ms :: b == MovedAll(a, ms)
  }

  lemma {:induction false} MovedAllJoined(h: Host, a: seq<Move>, b: seq<Move>)
    ensures MovedAll(h, a + b) == MovedAll(MovedAll(h, a), b)
    decreases |a|
  {
    hide Moved;
    if a == [] {
      assert a + b == b;
    } else {
      assert (a + b)[1..] == a[1..] + b;
      MovedAllJoined(Moved(h, a[0]), a[1..], b);
    }
  }

  lemma LaterIsTransitive(a: Host, b: Host, c: Host)
    ensures Later(a, a)
    ensures Later(a, b) && Later(b, c) ==> Later(a, c)
  {
    assert a == MovedAll(a, []);
    if Later(a, b) && Later(b, c) {
      var x :| b == MovedAll(a, x);
      var y :| c == MovedAll(b, y);
      MovedAllJoined(a, x, y);
    }
  }

  lemma MovedIsLater(a: Host, m: Move)
    ensures Later(a, Moved(a, m))
  {
    assert MovedAll(a, [m]) == MovedAll(Moved(a, m), [m][1..]) == Moved(a, m);
  }

  // ----- sessions

  function Members(h: Host, sid: int): map<int, Process> {
    map p | p in h.table && h.table[p].session == sid :: h.table[p]
  }

  /** The session id has been given out, and its leader, if still there, leads it. */
  predicate Led(h: Host, sid: int) {
    sid in h.used && (sid in h.table ==> h.table[sid].session == sid)
  }

  predicate Frozen(h: Host, sid: int) {
    forall p :: p in h.table && h.table[p].session == sid ==> !h.table[p].run.Executable?
  }

  predicate Drained(h: Host, sid: int) {
    forall p :: p in h.table && h.table[p].session == sid ==> h.table[p].run.Zombie?
  }

  /** Membership comes only by fork from an executable member. */
  lemma MembersComeByFork(h: Host, m: Move, sid: int, p: int)
    requires Led(h, sid)
    requires p in Members(Moved(h, m), sid) && p !in Members(h, sid)
    ensures m.Fork? && m.child == p && m.parent in Members(h, sid) && Runs(h, m.parent)
  {
  }

  /** Whom a later table shows in the session was there before, under the same start time,
      and, the session being frozen, in the same group and no more alive. */
  ghost predicate Shrunk(a: Host, b: Host, sid: int) {
    forall p :: p in Members(b, sid) ==>
      && p in Members(a, sid)
      && b.table[p].start == a.table[p].start && b.table[p].group == a.table[p].group
      && (a.table[p].run.Zombie? ==> b.table[p].run.Zombie?)
  }

  lemma FrozenMove(h: Host, m: Move, sid: int)
    requires Led(h, sid) && Frozen(h, sid)
    ensures Led(Moved(h, m), sid) && Frozen(Moved(h, m), sid) && Shrunk(h, Moved(h, m), sid)
  {
  }

  lemma LedMove(h: Host, m: Move, sid: int)
    requires Led(h, sid)
    ensures Led(Moved(h, m), sid)
    ensures sid in Moved(h, m).table ==> sid in h.table && Moved(h, m).table[sid].start == h.table[sid].start
  {
  }

  lemma {:induction false} FrozenForGood(h: Host, ms: seq<Move>, sid: int)
    requires Led(h, sid) && Frozen(h, sid)
    ensures Led(MovedAll(h, ms), sid) && Frozen(MovedAll(h, ms), sid) && Shrunk(h, MovedAll(h, ms), sid)
    decreases |ms|
  {
    hide Moved;
    if ms != [] {
      FrozenMove(h, ms[0], sid);
      FrozenForGood(Moved(h, ms[0]), ms[1..], sid);
    }
  }

  lemma {:induction false} LedForGood(h: Host, ms: seq<Move>, sid: int)
    requires Led(h, sid)
    ensures Led(MovedAll(h, ms), sid)
    ensures sid in MovedAll(h, ms).table ==> sid in h.table && MovedAll(h, ms).table[sid].start == h.table[sid].start
    decreases |ms|
  {
    hide Moved;
    if ms != [] {
      LedMove(h, ms[0], sid);
      LedForGood(Moved(h, ms[0]), ms[1..], sid);
    }
  }

  /** A drain proof is stable: once no member can execute, and all are dead, that is so for
      ever. */
  lemma DrainedIsStable(a: Host, b: Host, sid: int)
    requires Led(a, sid) && Later(a, b)
    ensures Led(b, sid)
    ensures sid in b.table ==> sid in a.table && b.table[sid].start == a.table[sid].start
    ensures Frozen(a, sid) ==> Frozen(b, sid) && Shrunk(a, b, sid)
    ensures Drained(a, sid) ==> Drained(b, sid)
  {
    var ms :| b == MovedAll(a, ms);
    LedForGood(a, ms, sid);
    if Frozen(a, sid) { FrozenForGood(a, ms, sid); }
  }

  // ----- the procedure

  /** What happens before the next primitive call, and whether /proc is then readable. */
  datatype Tick = Tick(moves: seq<Move>, readable: bool)

  /** The host after the next tick of a schedule, and what is left of the schedule then. */
  function Ahead(h: Host, s: seq<Tick>): Host {
    if s == [] then h else MovedAll(h, s[0].moves)
  }

  function Rest(s: seq<Tick>): seq<Tick> {
    if s == [] then [] else s[1..]
  }

  class Kernel {
    var host: Host
    var schedule: seq<Tick>

    constructor (h: Host, s: seq<Tick>)
      ensures host == h && schedule == s
    {
      host, schedule := h, s;
    }

    /** Other processes run. */
    method Pass() returns (readable: bool)
      modifies this
      ensures Later(old(host), host)
      ensures host == Ahead(old(host), old(schedule)) && schedule == Rest(old(schedule))
      ensures old(schedule) == [] ==> readable
    {
      LaterIsTransitive(host, host, host);
      readable := true;
      if schedule != [] {
        host := MovedAll(host, schedule[0].moves);
        readable := schedule[0].readable;
        schedule := schedule[1..];
      }
    }

    /** killpg: false is ESRCH. Signal 0 only asks. */
    method Signal(m: Move) returns (found: bool)
      requires m.StopGroup? || m.KillGroup?
      modifies this
      ensures Later(old(host), host)
      ensures old(schedule) == [] ==> schedule == [] && host == Moved(old(host), m)
    {
      ghost var start := host;
      var _ := Pass();
      found := exists p :: p in host.table && host.table[p].group == m.group;
      MovedIsLater(host, m);
      LaterIsTransitive(start, host, Moved(host, m));
      host := Moved(host, m);
    }

    /** _read_process_identity */
    method Identity(pid: int) returns (p: Option<Process>)
      modifies this
      ensures Later(old(host), host)
      ensures p == if pid in host.table then Some(host.table[pid]) else None
      ensures host == Ahead(old(host), old(schedule)) && schedule == Rest(old(schedule))
    {
      var _ := Pass();
      p := if pid in host.table then Some(host.table[pid]) else None;
    }

    /** _process_group_is_drained */
    method GroupAbsent(group: int) returns (absent: bool)
      modifies this
      ensures Later(old(host), host)
      ensures absent <==> group > 1 && forall p :: p in host.table ==> host.table[p].group != group
      ensures old(schedule) == [] ==> schedule == [] && host == old(host)
    {
      var _ := Pass();
      absent := group > 1 && forall p :: p in host.table ==> host.table[p].group != group;
    }

    /** _live_session_members: one complete snapshot, or none. */
    method Scan(sid: int) returns (members: Option<map<int, Process>>)
      modifies this
      ensures Later(old(host), host)
      ensures members.Some? ==> members.value == Members(host, sid)
      ensures host == Ahead(old(host), old(schedule)) && schedule == Rest(old(schedule))
      ensures old(schedule) == [] ==> members.Some?
    {
      var readable := Pass();
      members := if readable then Some(Members(host, sid)) else None;
    }
  }

  function Groups(members: map<int, Process>): set<int> {
    set p | p in members :: members[p].group
  }

  predicate SameLeader(members: map<int, Process>, sid: int, expected: string) {
    sid in members && expected != "" ==> members[sid].start == expected
  }

  function Signature(members: map<int, Process>): map<int, (string, int)> {
    map p | p in members :: (members[p].start, members[p].group)
  }

  lemma SomeMember(s: set<int>)
    ensures s == {} || exists x :: x in s
  {
    assert (forall x :: x !in s) ==> s == {};
  }

  /** _session_is_drained; None is a failed scan. */
  method SessionDrained(k: Kernel, sid: int, known: set<int>) returns (drained: Option<bool>, groups: set<int>)
    requires Led(k.host, sid)
    modifies k
    ensures Later(old(k.host), k.host) && Led(k.host, sid)
    ensures drained == Some(true) ==> Drained(k.host, sid)
    ensures known <= groups
    ensures old(k.schedule) == [] ==>
              && k.schedule == [] && k.host == old(k.host) && drained.Some?
              && (Members(k.host, sid) != map[] ==> (drained.value <==> Drained(k.host, sid)))
  {
    ghost var start := k.host;
    groups := known;
    var members := k.Scan(sid);
    DrainedIsStable(start, k.host, sid);
    if members.None? { return None, groups; }
    groups := groups + Groups(members.value);
    if members.value != map[] {
      DeadSnapshot(k.host, sid, members.value);
      return Some(forall p :: p in members.value ==> members.value[p].run.Zombie?), groups;
    }
    EmptyIsFrozen(k.host, sid);
    var todo := groups;
    while todo != {}
      invariant Later(start, k.host) && Led(k.host, sid) && Drained(k.host, sid)
      invariant old(k.schedule) == [] ==> k.schedule == [] && k.host == start
    {
      SomeMember(todo);
      var g :| g in todo;
      todo := todo - {g};
      ghost var before := k.host;
      var absent := k.GroupAbsent(g);
      LaterIsTransitive(start, before, k.host);
      DrainedIsStable(before, k.host, sid);
      if !absent { return Some(false), groups; }
    }
    return Some(true), groups;
  }

  /** _wait_for_session_drain, for as many looks as the deadline allows. */
  method WaitForDrain(k: Kernel, sid: int, known: set<int>, looks: nat) returns (drained: bool)
    requires Led(k.host, sid)
    modifies k
    ensures Later(old(k.host), k.host) && Led(k.host, sid)
    ensures drained ==> Drained(k.host, sid)
    ensures old(k.schedule) == [] ==>
              && k.schedule == [] && k.host == old(k.host)
              && (looks > 0 && Members(k.host, sid) != map[] ==> (drained <==> Drained(k.host, sid)))
  {
    ghost var start := k.host;
    LaterIsTransitive(start, start, start);
    var groups := known;
    for i := 0 to looks
      invariant Later(start, k.host) && Led(k.host, sid)
      invariant old(k.schedule) == [] ==> k.schedule == [] && k.host == start
      invariant old(k.schedule) == [] && i > 0 && Members(start, sid) != map[] ==> !Drained(start, sid)
    {
      ghost var before := k.host;
      var look;
      look, groups := SessionDrained(k, sid, groups);
      LaterIsTransitive(start, before, k.host);
      if look == Some(true) { return true; }
    }
    return false;
  }

  /** Every executable process of the groups stopped, or every process of them killed. */
  function Hit(h: Host, groups: set<int>, kill: bool): Host {
    h.(table := map p | p in h.table ::
         if h.table[p].group in groups && (kill || h.table[p].run.Executable?)
         then h.table[p].(run := if kill then Zombie else Stopped) else h.table[p])
  }

  lemma HitOneMore(h: Host, groups: set<int>, g: int, kill: bool)
    ensures Moved(Hit(h, groups, kill), if kill then KillGroup(g) else StopGroup(g)) == Hit(h, groups + {g}, kill)
    ensures Hit(h, {}, kill) == h
  {
  }

  method SignalGroups(k: Kernel, groups: set<int>, kill: bool)
    modifies k
    ensures Later(old(k.host), k.host)
    ensures old(k.schedule) == [] ==> k.schedule == [] && k.host == Hit(old(k.host), groups, kill)
  {
    ghost var start := k.host;
    LaterIsTransitive(start, start, start);
    HitOneMore(start, {}, 0, kill);
    var todo := groups;
    assert groups - todo == {};
    while todo != {}
      invariant todo <= groups
      invariant Later(start, k.host)
      invariant old(k.schedule) == [] ==> k.schedule == [] && k.host == Hit(start, groups - todo, kill)
    {
      SomeMember(todo);
      var g :| g in todo;
      HitOneMore(start, groups - todo, g, kill);
      assert groups - (todo - {g}) == groups - todo + {g};
      todo := todo - {g};
      ghost var before := k.host;
      var _ := k.Signal(if kill then KillGroup(g) else StopGroup(g));
      LaterIsTransitive(start, before, k.host);
    }
    assert groups - todo == groups;
  }

  /** A session that can be frozen at all: it has members, its leader is the expected one,
      and no member is in a system group. */
  predicate Freezable(h: Host, sid: int, expected: string) {
    && Members(h, sid) != map[] && SameLeader(Members(h, sid), sid, expected)
    && forall p :: p in Members(h, sid) ==> h.table[p].group > 1
  }

  /** A session that must not be touched: its leader is another one, or a member shares a system
      group. */
  predicate Unsafe(h: Host, sid: int, expected: string) {
    || (sid in h.table && h.table[sid].session == sid && expected != "" && h.table[sid].start != expected)
    || exists p :: p in h.table && h.table[p].session == sid && h.table[p].group <= 1
  }

  lemma UnsafeShows(h: Host, sid: int, expected: string)
    requires Unsafe(h, sid, expected)
    ensures var ms := Members(h, sid); !SameLeader(ms, sid, expected) || exists p :: p in ms && ms[p].group <= 1
  {
    if p :| p in h.table && h.table[p].session == sid && h.table[p].group <= 1 {
      assert p in Members(h, sid) && Members(h, sid)[p].group <= 1;
    }
  }

  lemma FreezableFacts(h: Host, sid: int, expected: string)
    requires Freezable(h, sid, expected)
    ensures var ms := Members(h, sid); ms != map[] && SameLeader(ms, sid, expected) && forall p ::
              p in ms ==> ms[p].group > 1
  {
  }

  lemma HitKeepsGroups(h: Host, sid: int, groups: set<int>, kill: bool)
    ensures var d := Hit(h, groups, kill);
            && Members(d, sid).Keys == Members(h, sid).Keys
            && Groups(Members(d, sid)) == Groups(Members(h, sid))
               && Signature(Members(d, sid)) == Signature(Members(h, sid))
  {
    var d := Hit(h, groups, kill);
    assert forall p :: p in Members(h, sid) <==> p in Members(d, sid);
    assert forall p :: p in Members(h, sid) ==>
        Members(h, sid)[p].group == Members(d, sid)[p].group && Members(h, sid)[p].start == Members(d, sid)[p].start;
  }

  lemma HitFreezes(h: Host, sid: int, expected: string)
    requires Freezable(h, sid, expected)
    ensures var d := Hit(h, Groups(Members(h, sid)), false);
            && Freezable(d, sid, expected)
            && Groups(Members(d, sid)) == Groups(Members(h, sid))
               && Signature(Members(d, sid)) == Signature(Members(h, sid))
            && (forall p :: p in Members(d, sid) ==> !Members(d, sid)[p].run.Executable?)
  {
    var d := Hit(h, Groups(Members(h, sid)), false);
    HitKeepsGroups(h, sid, Groups(Members(h, sid)), false);
    assert forall p :: p in Members(h, sid) ==>
        h.table[p].group in Groups(Members(h, sid)) && d.table[p].group == h.table[p].group;
    hide Groups, Signature;
    assert forall p :: p in Members(d, sid) ==> p in Members(h, sid) && d.table[p].start == h.table[p].start;
    assert Members(d, sid) != map[] by { assert Members(h, sid).Keys != {}; }
  }

  lemma HitKills(h: Host, sid: int, groups: set<int>)
    requires Members(h, sid) != map[] && Groups(Members(h, sid)) <= groups
    ensures Members(Hit(h, groups, true), sid) != map[] && Drained(Hit(h, groups, true), sid)
  {
    HitKeepsGroups(h, sid, groups, true);
    assert Members(h, sid).Keys != {};
    assert forall p :: p in Members(h, sid) ==> h.table[p].group in Groups(Members(h, sid));
    assert forall p :: p in h.table && h.table[p].session == sid ==> p in Members(h, sid);
  }

  /** _freeze_worker_session. True means that no member can execute any more, that every
      member's group was seen, and that the leader, if still there, is the expected one. */
  method Freeze(k: Kernel, sid: int, expected: string, rounds: nat) returns (frozen: bool, groups: set<int>)
    requires Led(k.host, sid)
    modifies k
    ensures Later(old(k.host), k.host) && Led(k.host, sid)
    ensures frozen ==>
              Frozen(k.host, sid) && Groups(Members(k.host, sid)) <= groups
              && SameLeader(Members(k.host, sid), sid, expected)
              && (rounds < 2 ==> Members(k.host, sid) == map[])
    ensures old(k.schedule) == [] && rounds >= 2 && old(Freezable(k.host, sid, expected)) ==>
              frozen && k.schedule == [] && Freezable(k.host, sid, expected)
    ensures old(Unsafe(Ahead(k.host, k.schedule), sid, expected)) ==>
              !frozen && (rounds > 0 ==> k.host == old(Ahead(k.host, k.schedule)))
  {
    hide Signature, Freezable, Moved, Groups, Unsafe;
    ghost var start := k.host;
    LaterIsTransitive(start, start, start);
    groups := {};
    var previous: Option<map<int, (string, int)>>, stable := None, 0;
    ghost var calm := k.schedule == [] && Freezable(k.host, sid, expected);
    ghost var unsafe := Unsafe(Ahead(k.host, k.schedule), sid, expected);
    for round := 0 to rounds
      invariant Later(start, k.host) && Led(k.host, sid) && stable <= round
      invariant unsafe ==> round == 0 && k.host == start && k.schedule == old(k.schedule)
      invariant calm ==> k.schedule == [] && Freezable(k.host, sid, expected) && round == stable <= 1
      invariant calm && stable == 1 ==> previous == Some(Signature(Members(k.host, sid)))
    {
      ghost var a := k.host;
      if calm {
        HitFreezes(a, sid, expected);
        FreezableFacts(a, sid, expected);
        FreezableFacts(Hit(a, Groups(Members(a, sid)), false), sid, expected);
      }
      var members := k.Scan(sid);
      LaterIsTransitive(start, a, k.host);
      DrainedIsStable(a, k.host, sid);
      if unsafe { UnsafeShows(k.host, sid, expected); }
      if members.None? || !SameLeader(members.value, sid, expected) { return false, groups; }
      if exists p :: p in members.value && members.value[p].group <= 1 { return false, groups; }
      groups := groups + Groups(members.value);
      if members.value == map[] {
        EmptyIsFrozen(k.host, sid);
        return true, groups;
      }
      ghost var b := k.host;
      SignalGroups(k, Groups(members.value), false);
      LaterIsTransitive(start, b, k.host);
      DrainedIsStable(b, k.host, sid);
      ghost var c := k.host;
      var again := k.Scan(sid);
      LaterIsTransitive(start, c, k.host);
      DrainedIsStable(c, k.host, sid);
      if again.None? { return false, groups; }
      groups := groups + Groups(again.value);
      if !SameLeader(again.value, sid, expected) { return false, groups; }
      var allFrozen := forall p :: p in again.value ==> !again.value[p].run.Executable?;
      stable := if !allFrozen then 0 else if previous == Some(Signature(again.value)) then stable + 1 else 1;
      previous := Some(Signature(again.value));
      if stable >= 2 {
        FrozenSnapshot(k.host, sid, again.value);
        return true, groups;
      }
    }
    return false, groups;
  }

  lemma DeadSnapshot(h: Host, sid: int, members: map<int, Process>)
    requires members == Members(h, sid)
    ensures Drained(h, sid) <==> forall p :: p in members ==> members[p].run.Zombie?
  {
    assert forall p :: p in h.table && h.table[p].session == sid ==> p in members && members[p] == h.table[p];
  }

  lemma EmptyIsFrozen(h: Host, sid: int)
    requires Members(h, sid) == map[]
    ensures Drained(h, sid) && Frozen(h, sid)
  {
    assert forall p :: p in h.table && h.table[p].session == sid ==> p in Members(h, sid);
  }

  lemma FrozenSnapshot(h: Host, sid: int, members: map<int, Process>)
    requires members == Members(h, sid) && forall p :: p in members ==> !members[p].run.Executable?
    ensures Frozen(h, sid)
  {
    assert forall p :: p in h.table && h.table[p].session == sid ==> p in members && members[p] == h.table[p];
  }

  /** _force_kill_worker_session: true is a drain proof. It does succeed on a session that
      can be frozen and is left to itself. */
  method ForceKill(k: Kernel, sid: int, expected: string, known: set<int>, rounds: nat, looks: nat) returns (ok: bool)
    requires Led(k.host, sid)
    modifies k
    ensures Later(old(k.host), k.host) && Led(k.host, sid)
    ensures ok ==> Drained(k.host, sid)
    ensures old(k.schedule) == [] && rounds >= 2 && looks > 0 && old(Freezable(k.host, sid, expected)) ==> ok
    ensures old(Unsafe(Ahead(k.host, k.schedule), sid, expected)) ==>
              !ok && (rounds > 0 ==> k.host == old(Ahead(k.host, k.schedule)))
  {
    ghost var start := k.host;
    ghost var calm := k.schedule == [] && rounds >= 2 && Freezable(k.host, sid, expected);
    var frozen, groups := Freeze(k, sid, expected, rounds);
    if !frozen { return false; }
    ghost var b := k.host;
    if calm { HitKills(b, sid, groups); }
    SignalGroups(k, groups, true);
    LaterIsTransitive(start, b, k.host);
    DrainedIsStable(b, k.host, sid);
    ghost var c := k.host;
    ok := WaitForDrain(k, sid, known + groups, looks);
    LaterIsTransitive(start, c, k.host);
  }
}
