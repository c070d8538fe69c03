/** One uninterrupted pass of a GPU worker over a resource queue. */
module Dequeue {
  import opened Coordination
  import opened Guard
  import opened TaskScripts
  import opened Protocol
  import opened Conservation
  import Store

  /** How many queue elements one claim script may look at. */
  const CLAIM_LIMIT: nat := 32

  datatype Node = Node(id: string, hostname: string)

  /** _task_matches_worker_node: a required node id or hostname must name the worker's node,
      under either of the worker's two names. */
  predicate Matches(data: Payload, n: Node) {
    && (data.nodeId == "" || data.nodeId == n.id || data.nodeId == n.hostname)
    && (data.hostname == "" || data.hostname == n.hostname || data.hostname == n.id)
  }

  // ----- what the pass does with an id, judged by the keyspace it starts from

  predicate Live(db: Redis, id: string) {
    Claimable(db, id) && !CancelSeen(db.life, id, db.tasks[id].data.base)
  }

  predicate ThrownBack(db: Redis, id: string, n: Node) {
    Live(db, id) && !Matches(db.tasks[id].data, n)
  }

  predicate Dispatchable(db: Redis, id: string, n: Node) {
    Live(db, id) && Matches(db.tasks[id].data, n)
  }

  /** What that means for one id: it may be dispatched if it is stored, pending, unclaimed and
      admitted, neither it nor its base has a cancel marker or a tombstone, and the node it asks
      for, by id or by host name, is the worker's under either of its names; if only the node is
      wrong it is thrown back. */
  lemma DispatchableMeans(db: Redis, id: string, n: Node)
    ensures var waits :=
              && id in db.tasks && db.tasks[id].status == Pending && db.tasks[id].claim == None
              && Admitted(db, db.tasks[id])
              && Name.Child(id) !in db.life.cancels && Name.Child(id) !in db.life.tombstones
              && (db.tasks[id].data.base.Some? ==>
                    && Name.Parent(db.tasks[id].data.base.value) !in db.life.cancels
                    && Name.Parent(db.tasks[id].data.base.value) !in db.life.tombstones);
            && (Dispatchable(db, id, n) <==>
                  waits && db.tasks[id].data.nodeId in {"", n.id, n.hostname}
                  && db.tasks[id].data.hostname in {"", n.hostname, n.id})
            && (ThrownBack(db, id, n) <==>
                  waits && !(db.tasks[id].data.nodeId in {"", n.id, n.hostname}
                             && db.tasks[id].data.hostname in {"", n.hostname, n.id}))
  {
    hide Admits;
  }

  lemma {:induction false} DeferredMembers(db: Redis, q: seq<string>, n: Node)
    ensures forall id :: id in Deferred(db, q, n) <==> id in q && ThrownBack(db, id, n)
  {
    hide ThrownBack;
    if q != [] {
      assert q == [q[0]] + q[1..];
      DeferredMembers(db, q[1..], n);
    }
  }

  /** The thrown-back ids of a piece of queue, in queue order. */
  function Deferred(db: Redis, q: seq<string>, n: Node): seq<string> {
    if q == [] then [] else (if ThrownBack(db, q[0], n) then [q[0]] else []) + Deferred(db, q[1..], n)
  }

  predicate Distinct(q: seq<string>) {
    forall i, j :: 0 <= i < j < |q| ==> q[i] != q[j]
  }

  /** No id twice, and nothing claimable that belongs elsewhere. */
  predicate Orderly(db: Redis, r: Resource) {
    var q := Listed(db.queues, Pool(r));
    Distinct(q) && forall i :: 0 <= i < |q| && Claimable(db, q[i]) ==> Home(db.tasks[q[i]]) == Pool(r)
  }

  /** A resource pool of GPU tasks is orderly in every reachable world. */
  lemma PoolsAreOrderly(w: World, r: Resource)
    requires Conserved(w)
    requires forall id :: id in Listed(w.db.queues, Pool(r)) ==> id !in w.loose
    ensures Orderly(w.db, r)
    ensures forall id :: id in Listed(w.db.queues, Pool(r)) ==>
                           id in w.db.tasks && w.db.tasks[id].status.Pending? && w.db.tasks[id].claim.None?
  {
    hide Held, Closed, NoEntries;
    var q := Listed(w.db.queues, Pool(r));
    forall id | id in q
      ensures Placed(w, id) && Copies(w.db.queues, Pool(r), id) == 1
      ensures id in w.db.tasks && w.db.tasks[id].status.Pending? && w.db.tasks[id].claim.None?
              && Home(w.db.tasks[id]) == Pool(r)
    {
      assert Copies(w.db.queues, Pool(r), id) > 0;
      if id in w.db.tasks && w.db.tasks[id].claim.Some? { HeldHasNoCopies(w, id); }
    }
    forall i, j | 0 <= i < j < |q|
      ensures q[i] != q[j]
    {
      assert q == q[..i] + [q[i]] + q[i + 1..j] + [q[j]] + q[j + 1..];
      assert Copies(w.db.queues, Pool(r), q[i]) == 1;
    }
  }

  // ----- claiming past debris

  /** How many ids a claim script pops without claiming. */
  function Debris(db: Redis, k: Queue, limit: nat): nat
    decreases limit
  {
    if limit == 0 || Listed(db.queues, k) == [] then 0
    else
      var (qs, id) := Pop(db.queues, k);
      if Claimable(db, id) then 0 else 1 + Debris(db.(queues := qs), k, limit - 1)
  }

  lemma {:induction false} DebrisIsJunk(db: Redis, k: Queue, limit: nat)
    ensures var q := Listed(db.queues, k);
            var m := Debris(db, k, limit);
            && m <= |q| && m <= limit
            && forall i :: |q| - m <= i < |q| ==> !Claimable(db, q[i])
    decreases limit
  {
    hide Claimable;
    var q := Listed(db.queues, k);
    if limit != 0 && q != [] {
      var (qs, id) := Pop(db.queues, k);
      QueuesDoNotDecide(db, qs);
      assert Listed(qs, k) == q[..|q| - 1];
      if !Claimable(db, id) {
        DebrisIsJunk(db.(queues := qs), k, limit - 1);
        forall i | |q| - Debris(db, k, limit) <= i < |q| ensures !Claimable(db, q[i]) {
          if i < |q| - 1 { assert q[i] == q[..|q| - 1][i] && !Claimable(db.(queues := qs), q[i]); }
        }
      }
    }
  }

  /** The script takes the first claimable id, counted from the right, if one is within its
      reach; everything to the right of that id is debris and gone. */
  lemma {:induction false} ClaimNextTakesOldest(db: Redis, k: Queue, v: Worker, instance: string, token: string,
                                                limit: nat)
    ensures var q := Listed(db.queues, k);
            var m := Debris(db, k, limit);
            var (d, got) := ClaimNext(db, k, v, instance, token, limit);
            && m <= |q| && m <= limit
            && (forall i :: |q| - m <= i < |q| ==> !Claimable(db, q[i]))
            && (forall j :: j != k ==> Listed(d.queues, j) == Listed(db.queues, j))
            && (got.None? ==> (m == |q| || m == limit) && Listed(d.queues, k) == q[..|q| - m]
                              && d.tasks == db.tasks && d.inflight == db.inflight)
            && (got.Some? ==> m < |q| && got.value == q[|q| - 1 - m] && Claimable(db, got.value)
                              && Listed(d.queues, k) == q[..|q| - 1 - m]
                              && d.tasks == db.tasks[got.value :=
                                      db.tasks[got.value].(claim := Some(Claim(token, v, instance, k, Unfenced)))]
                              && d.inflight == PushEntry(db.inflight, v, Entry(token, got.value)))
    decreases limit
  {
    DebrisIsJunk(db, k, limit);
    hide Copies, Entries, Claimable, PushEntry, Touches;
    var q := Listed(db.queues, k);
    if limit != 0 && q != [] {
      var (qs, id) := Pop(db.queues, k);
      QueuesDoNotDecide(db, qs);
      assert Listed(qs, k) == q[..|q| - 1];
      assert forall j :: j != k ==> Listed(qs, j) == Listed(db.queues, j);
      hide Listed, Pop;
      if !Claimable(db, id) { ClaimNextTakesOldest(db.(queues := qs), k, v, instance, token, limit - 1); }
    }
  }

  // ----- the pass half way

  /** Between two steps of a pass that started from `db`: the ids of `claims`, the worker's
      own record of its tokens, carry those tokens and have one more inflight entry; but for
      them and for `settled` nothing differs, and only the list `k` has changed. */
  ghost predicate Halfway(db: Redis, d: Redis, claims: map<string, string>, settled: set<string>, k: Queue, v: Worker,
                          instance: string) {
    && d.life == db.life
    && settled !! claims.Keys
    && (forall j :: j != k ==> Listed(d.queues, j) == Listed(db.queues, j))
    && (forall x :: x in d.tasks <==> x in db.tasks)
    && (forall x :: x in claims ==>
          Claimable(db, x) && d.tasks[x] == db.tasks[x].(claim := Some(Claim(claims[x], v, instance, k, Unfenced))))
    && (forall x :: x in d.tasks && x !in claims && x !in settled ==> d.tasks[x] == db.tasks[x])
    && EntriesAdded(db.inflight, d.inflight, claims, settled, v)
  }

  ghost predicate EntriesAdded(fl: InFlight, fl': InFlight, claims: map<string, string>, settled: set<string>,
                               v: Worker) {
    forall u, token, x :: x !in settled ==>
      Entries(fl', u, Entry(token, x)) ==
      Entries(fl, u, Entry(token, x)) + if u == v && x in claims && claims[x] == token then 1 else 0
  }

  lemma EntriesLeft(fl: InFlight, d: InFlight, d': InFlight, claims: map<string, string>, id: string,
                    settled: set<string>, settled': set<string>, v: Worker)
    requires EntriesAdded(fl, d, claims, settled, v) && id in claims
    requires forall x :: x != id ==> SameEntries(d, d', x)
    requires settled' == settled + {id} || (settled' == settled && d' == DropEntry(d, v, Entry(claims[id], id)))
    requires id !in settled
    ensures EntriesAdded(fl, d', claims - {id}, settled', v)
  {
    hide Entries;
    forall u, token, x | x !in settled'
      ensures Entries(d', u, Entry(token, x)) ==
              Entries(fl, u, Entry(token, x)) + if u == v && x in claims - {id} && claims[x] == token then 1 else 0
    {
      assert x != id ==> SameEntries(d, d', x);
      assert Entries(d, v, Entry(claims[id], id)) > 0;
    }
  }

  lemma Pick(db: Redis, d: Redis, d': Redis, claims: map<string, string>, id: string, token: string, k: Queue,
             v: Worker, instance: string)
    requires Halfway(db, d, claims, {}, k, v, instance)
    requires Claimable(d, id) && id !in claims
    requires d'.life == d.life && (forall j :: j != k ==> Listed(d'.queues, j) == Listed(d.queues, j))
    requires d'.tasks == d.tasks[id := d.tasks[id].(claim := Some(Claim(token, v, instance, k, Unfenced)))]
    requires d'.inflight == PushEntry(d.inflight, v, Entry(token, id))
    ensures Halfway(db, d', claims[id := token], {}, k, v, instance)
  {
    hide Entries, Admits, EntriesAdded, PushEntry;
    EntriesGained(db.inflight, d.inflight, claims, id, token, v);
  }

  lemma EntriesGained(fl: InFlight, d: InFlight, claims: map<string, string>, id: string, token: string, v: Worker)
    requires EntriesAdded(fl, d, claims, {}, v) && id !in claims
    ensures EntriesAdded(fl, PushEntry(d, v, Entry(token, id)), claims[id := token], {}, v)
  {
    hide Entries;
    var d' := PushEntry(d, v, Entry(token, id));
    forall u, other, x
      ensures Entries(d', u, Entry(other, x)) ==
              Entries(fl, u, Entry(other, x)) + if u == v && x in claims[id := token] && claims[id := token][x] == other
                  then 1 else 0
    {
      assert Entries(d, u, Entry(other, x)) == Entries(fl, u, Entry(other, x)) + if u == v && x in claims
          && claims[x] == other then 1 else 0;
    }
  }

  lemma ClaimedRecord(db: Redis, d: Redis, claims: map<string, string>, id: string, settled: set<string>, k: Queue,
                      v: Worker, instance: string)
    requires Halfway(db, d, claims, settled, k, v, instance) && id in claims
    ensures id in db.tasks && id in d.tasks && Unclaim(d.tasks[id]) == db.tasks[id]
  {
    hide Entries, Admits;
  }

  /** A claim is given up: its entry goes, and its record is what it was before the claim
      unless the id is settled in some other way. */
  lemma LetGo(db: Redis, d: Redis, d': Redis, claims: map<string, string>, id: string, settled: set<string>,
              settled': set<string>,
              k: Queue, v: Worker, instance: string)
    requires Halfway(db, d, claims, settled, k, v, instance) && id in claims
    requires d'.life == d.life && (forall j :: j != k ==> Listed(d'.queues, j) == Listed(d.queues, j))
    requires Touches(d, d', id)
    requires id in d'.tasks
    requires settled' == settled + {id}
             || (settled' == settled && d'.tasks[id] == Unclaim(d.tasks[id])
                 && d'.inflight == DropEntry(d.inflight, v, Entry(claims[id], id)))
    ensures Halfway(db, d', claims - {id}, settled', k, v, instance)
  {
    assert id in db.tasks && Unclaim(d.tasks[id]) == db.tasks[id] by {
      ClaimedRecord(db, d, claims, id, settled, k, v, instance);
    }
    hide Entries, Admits, Copies, Claimable, SameResult, Unclaim, EntriesAdded, SameEntries;
    forall x | x != id
      ensures x in d'.tasks <==> x in d.tasks
      ensures x in d.tasks ==> d'.tasks[x] == d.tasks[x]
      ensures SameEntries(d.inflight, d'.inflight, x)
    {
      assert SameSlot(d, d', x);
    }
    EntriesLeft(db.inflight, d.inflight, d'.inflight, claims, id, settled, settled', v);
  }

  /** The thrown-back ids of a piece of queue, in the order they are popped. */
  function PopOrder(db: Redis, q: seq<string>, n: Node): (r: seq<string>)
    ensures forall id :: id in r <==> id in q && ThrownBack(db, id, n)
  {
    if q == [] then []
    else
      assert q == [q[0]] + q[1..];
      PopOrder(db, q[1..], n) + if ThrownBack(db, q[0], n) then [q[0]] else []
  }

  function Mirror(q: seq<string>): seq<string> {
    if q == [] then [] else [q[|q| - 1]] + Mirror(q[..|q| - 1])
  }

  /** Pushing back in pop order restores queue order. */
  lemma {:induction false} MirrorOfPopOrder(db: Redis, q: seq<string>, n: Node)
    ensures Mirror(PopOrder(db, q, n)) == Deferred(db, q, n)
  {
    hide ThrownBack;
    if q != [] {
      MirrorOfPopOrder(db, q[1..], n);
      var rest := PopOrder(db, q[1..], n);
      if ThrownBack(db, q[0], n) {
        assert (rest + [q[0]])[..|rest|] == rest;
      } else {
        assert rest + [] == rest;
      }
    }
  }

  lemma {:induction false} DebrisIsNotDeferred(db: Redis, junk: seq<string>, q: seq<string>, n: Node)
    requires forall i :: 0 <= i < |junk| ==> !Claimable(db, junk[i])
    ensures PopOrder(db, junk + q, n) == PopOrder(db, q, n)
  {
    hide Claimable;
    if junk == [] {
      assert junk + q == q;
    } else {
      assert (junk + q)[1..] == junk[1..] + q;
      DebrisIsNotDeferred(db, junk[1..], q, n);
    }
  }

  /** The queue in two pieces: the `n` rightmost ids, and the rest; and the id in between. */
  function Seen(db: Redis, r: Resource, n: nat): seq<string>
    requires n <= |Listed(db.queues, Pool(r))|
  {
    var q := Listed(db.queues, Pool(r));
    q[|q| - n..]
  }

  function Unseen(db: Redis, r: Resource, n: nat): (left: seq<string>)
    requires n <= |Listed(db.queues, Pool(r))|
    ensures |left| == |Listed(db.queues, Pool(r))| - n
  {
    var q := Listed(db.queues, Pool(r));
    q[..|q| - n]
  }

  function Next(db: Redis, r: Resource, n: nat): string
    requires n < |Listed(db.queues, Pool(r))|
  {
    var q := Listed(db.queues, Pool(r));
    q[|q| - 1 - n]
  }

  predicate NoneDispatchable(db: Redis, q: seq<string>, node: Node) {
    forall id :: id in q ==> !Dispatchable(db, id, node)
  }

  /** What a scan has achieved after `n` ids: `hand` are the deferred claims, and no id it
      saw could have been dispatched. */
  ghost predicate Scanned(db: Redis, d: Redis, r: Resource, n: nat, hand: seq<string>, claims: map<string, string>,
                          v: Worker, node: Node, instance: string)
  {
    && n <= |Listed(db.queues, Pool(r))| && Listed(d.queues, Pool(r)) == Unseen(db, r, n)
    && Halfway(db, d, claims, {}, Pool(r), v, instance)
    && hand == PopOrder(db, Seen(db, r, n), node)
    && (forall id :: id in claims <==> id in hand)
    && NoneDispatchable(db, Seen(db, r, n), node)
  }

  lemma Cut(q: seq<string>, a: nat, b: nat)
    requires a <= b <= |q|
    ensures q[a..] == q[a..b] + q[b..] && q[..b][..a] == q[..a]
    ensures forall i :: 0 <= i < b - a ==> q[a..b][i] == q[..b][a + i]
  {
  }

  lemma ScanJunk(db: Redis, d: Redis, r: Resource, n: nat, m: nat, hand: seq<string>, claims: map<string, string>,
                 v: Worker, node: Node, instance: string)
    requires Orderly(db, r) && Scanned(db, d, r, n, hand, claims, v, node, instance)
    requires n <= m <= |Listed(db.queues, Pool(r))|
    requires var left := Listed(d.queues, Pool(r)); forall i ::
              |left| - (m - n) <= i < |left| ==> !Claimable(d, left[i])
    ensures NoneDispatchable(db, Seen(db, r, m), node) && PopOrder(db, Seen(db, r, m), node) == hand
    ensures Listed(d.queues, Pool(r))[..|Listed(d.queues, Pool(r))| - (m - n)] == Unseen(db, r, m)
  {
    hide Halfway, CancelSeen, Matches, PopOrder, Claimable, Orderly;
    var q := Listed(db.queues, Pool(r));
    Cut(q, |q| - m, |q| - n);
    var junk := q[|q| - m..|q| - n];
    forall i | 0 <= i < |junk|
      ensures !Claimable(db, junk[i])
    {
      Apart(db, d, r, n, hand, claims, v, node, instance, |q| - m + i);
    }
    DebrisIsNotDeferred(db, junk, Seen(db, r, n), node);
    JunkNotDispatchable(db, junk, Seen(db, r, n), node);
  }

  lemma JunkNotDispatchable(db: Redis, junk: seq<string>, q: seq<string>, node: Node)
    requires forall i :: 0 <= i < |junk| ==> !Claimable(db, junk[i])
    requires NoneDispatchable(db, q, node)
    ensures NoneDispatchable(db, junk + q, node)
  {
    hide Claimable;
  }

  /** The claim just made: the id stands immediately left of the `m` scanned ones. */
  ghost predicate Picked(db: Redis, d: Redis, r: Resource, m: nat, hand: seq<string>, claims: map<string, string>,
                         v: Worker, node: Node, instance: string, token: string, id: string)
  {
    && m < |Listed(db.queues, Pool(r))| && id == Next(db, r, m) && id !in claims && Claimable(db, id)
    && NoneDispatchable(db, Seen(db, r, m), node)
    && PopOrder(db, Seen(db, r, m), node) == hand
    && (forall x :: x in claims <==> x in hand)
    && Listed(d.queues, Pool(r)) == Unseen(db, r, m + 1)
    && Halfway(db, d, claims[id := token], {}, Pool(r), v, instance)
  }

  /** One more claim script finds nothing in reach. */
  lemma ScanEnds(db: Redis, d: Redis, r: Resource, n: nat, hand: seq<string>, claims: map<string, string>,
                 v: Worker, node: Node, instance: string, token: string, limit: nat)
    requires Orderly(db, r) && Scanned(db, d, r, n, hand, claims, v, node, instance)
    requires ClaimNext(d, Pool(r), v, instance, token, limit).1.None?
    ensures var m := n + Debris(d, Pool(r), limit);
            && Scanned(db, ClaimNext(d, Pool(r), v, instance, token, limit).0, r, m, hand, claims, v, node, instance)
            && (m == |Listed(db.queues, Pool(r))| || m >= n + limit)
  {
    hide Copies, Entries, Admits, Halfway, ClaimNext, Debris, PopOrder, Claimable, Dispatchable, Orderly, Seen, Unseen,
        NoneDispatchable;
    var m := n + Debris(d, Pool(r), limit);
    ClaimNextTakesOldest(d, Pool(r), v, instance, token, limit);
    ScanJunk(db, d, r, n, m, hand, claims, v, node, instance);
    QuietHalfway(db, d, ClaimNext(d, Pool(r), v, instance, token, limit).0, claims, Pool(r), v, instance);
  }

  /** One more claim script claims the first claimable id to the left of what was scanned. */
  lemma ScanPicks(db: Redis, d: Redis, r: Resource, n: nat, hand: seq<string>, claims: map<string, string>,
                  v: Worker, node: Node, instance: string, token: string, limit: nat)
    requires Orderly(db, r) && Scanned(db, d, r, n, hand, claims, v, node, instance)
    requires ClaimNext(d, Pool(r), v, instance, token, limit).1.Some?
    ensures var (d', got) := ClaimNext(d, Pool(r), v, instance, token, limit);
            Picked(db, d', r, n + Debris(d, Pool(r), limit), hand, claims, v, node, instance, token, got.value)
  {
    hide Copies, Entries, Admits, Halfway, ClaimNext, Debris, PopOrder, Claimable, Dispatchable, Orderly;
    var q := Listed(db.queues, Pool(r));
    var left := Listed(d.queues, Pool(r));
    var m := n + Debris(d, Pool(r), limit);
    var (d', got) := ClaimNext(d, Pool(r), v, instance, token, limit);
    ClaimNextTakesOldest(d, Pool(r), v, instance, token, limit);
    ScanJunk(db, d, r, n, m, hand, claims, v, node, instance);
    assert got.value == left[|left| - 1 - (m - n)] == q[|q| - 1 - m];
    Apart(db, d, r, n, hand, claims, v, node, instance, |left| - 1 - (m - n));
    Pick(db, d, d', claims, got.value, token, Pool(r), v, instance);
  }

  /** What is still in the queue is not in hand. */
  lemma Apart(db: Redis, d: Redis, r: Resource, n: nat, hand: seq<string>, claims: map<string, string>,
              v: Worker, node: Node, instance: string, i: nat)
    requires Orderly(db, r) && Scanned(db, d, r, n, hand, claims, v, node, instance)
    requires i < |Listed(d.queues, Pool(r))|
    ensures var id := Listed(d.queues, Pool(r))[i];
            id !in claims && Claimable(d, id) == Claimable(db, id)
  {
    hide Claimable, ThrownBack, Halfway, Dispatchable;
    var q := Listed(db.queues, Pool(r));
    assert Listed(d.queues, Pool(r))[i] == q[i];
    assert q[i] !in q[|q| - n..];
    SameClaimable(db, d, claims, Pool(r), v, instance, q[i]);
  }

  lemma SameClaimable(db: Redis, d: Redis, claims: map<string, string>, k: Queue, v: Worker, instance: string,
                      id: string)
    requires Halfway(db, d, claims, {}, k, v, instance) && id !in claims
    ensures Claimable(d, id) == Claimable(db, id)
  {
    hide Admits, Entries, Copies;
  }

  lemma QuietHalfway(db: Redis, d: Redis, d': Redis, claims: map<string, string>, k: Queue, v: Worker, instance: string)
    requires Halfway(db, d, claims, {}, k, v, instance)
    requires d'.life == d.life && d'.tasks == d.tasks && d'.inflight == d.inflight
    requires forall j :: j != k ==> Listed(d'.queues, j) == Listed(d.queues, j)
    ensures Halfway(db, d', claims, {}, k, v, instance)
  {
    hide Entries, Admits;
  }

  // ----- the four things that can happen to a picked id

  /** After the scan: like `Scanned`, but for one id that was settled and for what the
      scan put back at the left. */
  ghost predicate Ended(db: Redis, d: Redis, r: Resource, n: nat, hand: seq<string>, claims: map<string, string>,
                        settled: set<string>, back: seq<string>, v: Worker, node: Node, instance: string)
  {
    && n <= |Listed(db.queues, Pool(r))| && Listed(d.queues, Pool(r)) == back + Unseen(db, r, n)
    && Halfway(db, d, claims, settled, Pool(r), v, instance)
    && hand == PopOrder(db, Seen(db, r, n), node)
    && (forall id :: id in claims <==> id in hand)
  }

  ghost predicate Refused(db: Redis, d: Redis, id: string, note: string)
    requires id in db.tasks
  {
    && id in d.tasks && d.tasks[id] == db.tasks[id].(data := db.tasks[id].data.(note := note), assignedAt := "")
    && SameEntries(db.inflight, d.inflight, id)
  }

  ghost predicate Dispatched(db: Redis, d: Redis, id: string, v: Worker, instance: string, k: Queue, token: string)
    requires id in db.tasks
  {
    && id in d.tasks && d.tasks[id] == db.tasks[id].(status := Processing,
                                                     claim := Some(Claim(token, v, instance, k, Fenced)))
    && (forall u, other :: Entries(d.inflight, u, Entry(other, id)) ==
                           Entries(db.inflight, u, Entry(other, id)) + if u == v && other == token then 1 else 0)
  }

  lemma OneMore(db: Redis, r: Resource, m: nat, node: Node)
    requires m < |Listed(db.queues, Pool(r))|
    ensures var id := Next(db, r, m);
            && Seen(db, r, m + 1) == [id] + Seen(db, r, m)
            && PopOrder(db, Seen(db, r, m + 1), node) == PopOrder(db, Seen(db, r, m), node)
               + (if ThrownBack(db, id, node) then [id] else [])
            && (NoneDispatchable(db, Seen(db, r, m), node) && !Dispatchable(db, id, node)
                ==> NoneDispatchable(db, Seen(db, r, m + 1), node))
  {
    hide ThrownBack, Dispatchable;
    assert Seen(db, r, m + 1) == [Next(db, r, m)] + Seen(db, r, m);
  }

  lemma PickedFacts(db: Redis, d: Redis, r: Resource, m: nat, hand: seq<string>, claims: map<string, string>,
                    v: Worker, node: Node, instance: string, token: string, id: string)
    requires Picked(db, d, r, m, hand, claims, v, node, instance, token, id)
    ensures id in d.tasks && id in db.tasks
            && d.tasks[id] == db.tasks[id].(claim := Some(Claim(token, v, instance, Pool(r), Unfenced)))
    ensures d.life == db.life && Current(d, id, token) && Unclaim(d.tasks[id]) == db.tasks[id]
    ensures Admitted(d, d.tasks[id]) && d.tasks[id].status.Pending?
    ensures claims[id := token] - {id} == claims
    ensures forall u, other :: Entries(d.inflight, u, Entry(other, id)) ==
                               Entries(db.inflight, u, Entry(other, id)) + if u == v && other == token then 1 else 0
  {
    hide Admits, Entries;
  }

  /** Cancelled meanwhile: acknowledged, and out of the queue. */
  lemma AckPicked(db: Redis, d: Redis, r: Resource, m: nat, hand: seq<string>, claims: map<string, string>,
                  v: Worker, node: Node, instance: string, token: string, id: string)
    requires Picked(db, d, r, m, hand, claims, v, node, instance, token, id)
    requires CancelSeen(db.life, id, db.tasks[id].data.base)
    ensures Scanned(db, Ack(d, id, v, token, false).db, r, m + 1, hand, claims, v, node, instance)
  {
    hide Copies, Entries, Halfway, PopOrder, Admits, Ack, CancelSeen, Matches, Seen, Unseen, Next, NoneDispatchable;
    PickedFacts(db, d, r, m, hand, claims, v, node, instance, token, id);
    OneMore(db, r, m, node);
    var d' := Ack(d, id, v, token, false).db;
    AckUnfenced(d, id, v, token);
    LetGo(db, d, d', claims[id := token], id, {}, {}, Pool(r), v, instance);
    assert !Live(db, id) && !ThrownBack(db, id, node) && !Dispatchable(db, id, node);
  }

  lemma AckUnfenced(d: Redis, id: string, v: Worker, token: string)
    requires Current(d, id, token) && d.tasks[id].claim.value.recovery.Unfenced?
    ensures Ack(d, id, v, token, false).db == Surrender(d, id, v, token)
  {
  }

  /** On the wrong node: kept in hand. */
  lemma DeferPicked(db: Redis, d: Redis, r: Resource, m: nat, hand: seq<string>, claims: map<string, string>,
                    v: Worker, node: Node, instance: string, token: string, id: string)
    requires Picked(db, d, r, m, hand, claims, v, node, instance, token, id)
    requires !CancelSeen(db.life, id, db.tasks[id].data.base) && !Matches(db.tasks[id].data, node)
    ensures Scanned(db, d, r, m + 1, hand + [id], claims[id := token], v, node, instance)
  {
    hide Copies, Entries, Halfway, PopOrder, Admits, Seen, Unseen, Next, NoneDispatchable;
    OneMore(db, r, m, node);
    assert ThrownBack(db, id, node);
  }

  /** Admission closed: requeued without its claim, at the left of its pool. */
  lemma RequeuePicked(db: Redis, d: Redis, r: Resource, m: nat, hand: seq<string>, claims: map<string, string>,
                      v: Worker, node: Node, instance: string, token: string, id: string, note: string)
    requires Picked(db, d, r, m, hand, claims, v, node, instance, token, id) && Orderly(db, r)
    requires Dispatchable(db, id, node)
    ensures var t := d.tasks[id];
            var d' := Requeue(d, id, v, token, Pool(t.data.resource), t.data.(note := note), None, "", t.data.base,
                              NoRelease).db;
            && Ended(db, d', r, m + 1, hand, claims, {id}, [id], v, node, instance)
            && Refused(db, d', id, note)
  {
    hide Copies, Entries, Halfway, PopOrder, Admits, Requeue, Without, Orderly, Seen, Unseen, Next, NoneDispatchable;
    PickedFacts(db, d, r, m, hand, claims, v, node, instance, token, id);
    var t := d.tasks[id];
    var d' := Requeue(d, id, v, token, Pool(t.data.resource), t.data.(note := note), None, "", t.data.base,
                      NoRelease).db;
    OneMore(db, r, m, node);
    OrderlyFacts(db, r, m);
    RequeueUnfenced(d, id, v, token, t.data.(note := note));
    LetGo(db, d, d', claims[id := token], id, {}, {id}, Pool(r), v, instance);
  }

  lemma OrderlyFacts(db: Redis, r: Resource, m: nat)
    requires Orderly(db, r) && m < |Listed(db.queues, Pool(r))|
    ensures var id := Next(db, r, m);
            id !in Unseen(db, r, m + 1) && (Claimable(db, id) ==>
                db.tasks[id].data.resource == r && db.tasks[id].assignee.None?)
  {
    hide Admits;
    assert Claimable(db, Next(db, r, m)) ==> Home(db.tasks[Next(db, r, m)]) == Pool(r);
  }

  lemma RequeueUnfenced(d: Redis, id: string, v: Worker, token: string, data: Payload)
    requires Current(d, id, token) && d.tasks[id].claim.value.recovery.Unfenced? && d.tasks[id].status.Pending?
    requires Admitted(d, d.tasks[id]) && !CancelSeen(d.life, id, d.tasks[id].data.base)
    ensures var t := d.tasks[id];
            var k := Pool(t.data.resource);
            var d' := Requeue(d, id, v, token, k, data, None, "", t.data.base, NoRelease).db;
            && d' == d.(tasks := d.tasks[id := t.(data := data, assignee := None, assignedAt := "", claim := None)],
                        queues := Repush(d.queues, k, id), inflight := DropEntry(d.inflight, v, Entry(token, id)))
            && (id !in Listed(d.queues, k) ==> Listed(d'.queues, k) == [id] + Listed(d.queues, k))
  {
    hide Copies, Entries, Admits;
  }

  /** Dispatched. */
  lemma MarkPicked(db: Redis, d: Redis, r: Resource, m: nat, hand: seq<string>, claims: map<string, string>,
                   v: Worker, node: Node, instance: string, token: string, id: string)
    requires Picked(db, d, r, m, hand, claims, v, node, instance, token, id)
    requires Dispatchable(db, id, node)
    ensures var o := Mark(d, id, v, instance, Pool(r), token, d.tasks[id].data.base);
            && o.code == 1
            && Ended(db, o.db, r, m + 1, hand, claims, {id}, [], v, node, instance)
            && Dispatched(db, o.db, id, v, instance, Pool(r), token)
  {
    hide Copies, Entries, Halfway, PopOrder, Admits, Seen, Unseen, Next, NoneDispatchable;
    PickedFacts(db, d, r, m, hand, claims, v, node, instance, token, id);
    OneMore(db, r, m, node);
    LetGo(db, d, Mark(d, id, v, instance, Pool(r), token, d.tasks[id].data.base).db, claims[id := token], id, {}, {id},
          Pool(r), v, instance);
  }

  // ----- the pass

  /** The loop over the queue: claim, then drop, defer, requeue or dispatch. It ends with the
      oldest dispatchable id in reach dispatched, or requeued when admission has closed, or
      with no such id in reach. */
  method ScanPool(store: Store.Store, r: Resource, v: Worker, node: Node, instance: string, tokens: seq<string>,
                  open: seq<bool>, note: string)
    returns (got: Option<string>, hand: seq<string>, claims: map<string, string>, ghost n: nat, ghost token: string,
             ghost refused: bool)
    requires |open| == |tokens| && Orderly(store.Value(), r)
    modifies store
    ensures var db, d := old(store.Value()), store.Value();
            && n <= |Listed(db.queues, Pool(r))|
            && if got.None? && !refused then
                 && Ended(db, d, r, n, hand, claims, {}, [], v, node, instance)
                 && NoneDispatchable(db, Seen(db, r, n), node)
                 && (n == |Listed(db.queues, Pool(r))| || n >= |tokens| || n >= 32)
               else
                 && n > 0 && var id := Next(db, r, n - 1);
                 && Dispatchable(db, id, node) && NoneDispatchable(db, Seen(db, r, n - 1), node)
                 && Ended(db, d, r, n, hand, claims, {id}, if refused then [id] else [], v, node, instance)
                 && if refused then got == None && Refused(db, d, id, note)
                    else got == Some(id) && token in tokens && Dispatched(db, d, id, v, instance, Pool(r), token)
    ensures var db := old(store.Value());
            got.Some? ==> got.value in db.tasks && db.tasks[got.value].data.nodeId in {"", node.id, node.hostname}
                          && db.tasks[got.value].data.hostname in {"", node.hostname, node.id}
  {
    hide Copies, Entries, Admits, Halfway, PopOrder, Ack, Requeue, Mark, ClaimNext, Debris, CancelSeen, Matches,
         Seen, Unseen, Next, NoneDispatchable, Claimable, Orderly, Home, Refused, Dispatched, Scanned, Picked, Ended;
    got, hand, claims, n, token, refused := None, [], map[], 0, "", false;
    ghost var db := store.Value();
    ScanStarts(db, r, v, node, instance);
    for i := 0 to |tokens|
      invariant got.None? && !refused && i <= n
      invariant Scanned(db, store.Value(), r, n, hand, claims, v, node, instance)
    {
      ghost var d := store.Value();
      var queued := store.ClaimGpuTask(Pool(r), v, instance, tokens[i], CLAIM_LIMIT);
      ghost var m := n + Debris(d, Pool(r), CLAIM_LIMIT);
      if queued.None? {
        ScanEnds(db, d, r, n, hand, claims, v, node, instance, tokens[i], CLAIM_LIMIT);
        n := m;
        break;
      }
      ScanPicks(db, d, r, n, hand, claims, v, node, instance, tokens[i], CLAIM_LIMIT);
      d := store.Value();
      var id := queued.value;
      PickedFacts(db, d, r, m, hand, claims, v, node, instance, tokens[i], id);
      PickedPast(db, d, r, m, hand, claims, v, node, instance, tokens[i], id);
      var t := store.tasks[id];
      n := m + 1;
      if CancelSeen(store.life, id, t.data.base) {
        AckPicked(db, d, r, m, hand, claims, v, node, instance, tokens[i], id);
        var _ := store.AckClaim(id, v, tokens[i], false);
      } else if !Matches(t.data, node) {
        DeferPicked(db, d, r, m, hand, claims, v, node, instance, tokens[i], id);
        hand, claims := hand + [id], claims[id := tokens[i]];
      } else if !open[i] {
        RequeuePicked(db, d, r, m, hand, claims, v, node, instance, tokens[i], id, note);
        var _ := store.RequeueClaim(id, v, tokens[i], Pool(t.data.resource), t.data.(note := note), None, "",
                                    t.data.base, NoRelease);
        refused := true;
        break;
      } else {
        MarkPicked(db, d, r, m, hand, claims, v, node, instance, tokens[i], id);
        var code := store.MarkProcessing(id, v, instance, Pool(r), tokens[i], t.data.base);
        if code == 1 {
          DispatchableMeans(db, id, node);
          got, token := Some(id), tokens[i];
          break;
        }
      }
    }
    if got.None? && !refused { ScannedEnds(db, store.Value(), r, n, hand, claims, v, node, instance); }
  }

  lemma PickedPast(db: Redis, d: Redis, r: Resource, m: nat, hand: seq<string>, claims: map<string, string>,
                   v: Worker, node: Node, instance: string, token: string, id: string)
    requires Picked(db, d, r, m, hand, claims, v, node, instance, token, id)
    ensures m < |Listed(db.queues, Pool(r))| && id == Next(db, r, m) && NoneDispatchable(db, Seen(db, r, m), node)
    ensures Dispatchable(db, id, node) <==>
              !CancelSeen(db.life, id, db.tasks[id].data.base) && Matches(db.tasks[id].data, node)
  {
    hide Halfway, PopOrder, NoneDispatchable, Admits;
  }

  lemma ScannedEnds(db: Redis, d: Redis, r: Resource, n: nat, hand: seq<string>, claims: map<string, string>,
                    v: Worker, node: Node, instance: string)
    requires Scanned(db, d, r, n, hand, claims, v, node, instance)
    ensures n <= |Listed(db.queues, Pool(r))| && NoneDispatchable(db, Seen(db, r, n), node)
    ensures Ended(db, d, r, n, hand, claims, {}, [], v, node, instance)
  {
    hide Halfway, PopOrder, NoneDispatchable;
  }

  lemma ScanStarts(db: Redis, r: Resource, v: Worker, node: Node, instance: string)
    ensures Scanned(db, db, r, 0, [], map[], v, node, instance)
  {
    hide Entries, Admits;
    assert Unseen(db, r, 0) == Listed(db.queues, Pool(r));
  }

  /** What the claims in hand and the queue have in common: nothing. */
  lemma HandIsApart(db: Redis, r: Resource, n: nat, node: Node)
    requires Orderly(db, r) && n <= |Listed(db.queues, Pool(r))|
    ensures var hand := PopOrder(db, Seen(db, r, n), node);
            Distinct(hand) && (forall id :: id in hand ==>
                id !in Unseen(db, r, n) && id in Seen(db, r, n) && ThrownBack(db, id, node))
  {
    hide ThrownBack, Claimable;
    var q := Listed(db.queues, Pool(r));
    forall id | id in Seen(db, r, n)
      ensures id !in Unseen(db, r, n)
    {
      var i :| |q| - n <= i < |q| && q[i] == id;
      assert forall j :: 0 <= j < |q| - n ==> q[j] != q[i];
    }
    DistinctPopOrder(db, Seen(db, r, n), node);
  }

  lemma {:induction false} DistinctPopOrder(db: Redis, q: seq<string>, node: Node)
    requires Distinct(q)
    ensures Distinct(PopOrder(db, q, node))
  {
    hide ThrownBack;
    if q != [] {
      DistinctPopOrder(db, q[1..], node);
    }
  }

  lemma ReturnOne(db: Redis, d: Redis, claims: map<string, string>, id: string, settled: set<string>, k: Queue,
                  v: Worker, instance: string)
    requires Halfway(db, d, claims, settled, k, v, instance) && id in claims && id !in Listed(d.queues, k)
    ensures var o := Return(d, id, v, k, claims[id]);
            o.code == 1 && Halfway(db, o.db, claims - {id}, settled, k, v, instance) && Listed(o.db.queues, k) == [id]
                + Listed(d.queues, k)
  {
    hide Copies, Entries, Admits, Without;
    assert Claimable(db, id) && Current(d, id, claims[id]) && Admitted(d, d.tasks[id]);
    var d' := Return(d, id, v, k, claims[id]).db;
    assert d' == Surrender(d, id, v, claims[id]).(queues := Repush(d.queues, k, id));
    hide Halfway, Repush, Return;
    LetGo(db, d, d', claims, id, settled, settled, k, v, instance);
  }

  lemma MirrorMembers(q: seq<string>)
    ensures forall x :: x in Mirror(q) <==> x in q
  {
    if q != [] {
      MirrorMembers(q[..|q| - 1]);
      assert q == q[..|q| - 1] + [q[|q| - 1]];
    }
  }

  /** Nothing differs but the list `k` and the settled ids. */
  ghost predicate Undisturbed(db: Redis, d: Redis, settled: set<string>, k: Queue) {
    && d.life == db.life
    && (forall j :: j != k ==> Listed(d.queues, j) == Listed(db.queues, j))
    && (forall x :: x !in settled ==> (x in d.tasks <==> x in db.tasks) && (x in d.tasks ==> d.tasks[x] == db.tasks[x]))
    && (forall x :: x !in settled ==> SameEntries(db.inflight, d.inflight, x))
  }

  /** The record and the entries of an id are the same. */
  ghost predicate SameHold(a: Redis, b: Redis, id: string) {
    (id in a.tasks <==> id in b.tasks) && (id in a.tasks ==> b.tasks[id] == a.tasks[id])
        && SameEntries(a.inflight, b.inflight, id)
  }

  lemma SelfHold(a: Redis, id: string)
    ensures SameHold(a, a, id)
  {
  }

  lemma ReturnHolds(a: Redis, d: Redis, id: string, v: Worker, k: Queue, token: string)
    ensures forall x :: x != id && SameHold(a, d, x) ==> SameHold(a, Return(d, id, v, k, token).db, x)
  {
    hide Copies, Entries, Return;
    var d' := Return(d, id, v, k, token).db;
    forall x | x != id && SameHold(a, d, x)
      ensures SameHold(a, d', x)
    {
      assert SameSlot(d, d', x);
    }
  }

  lemma HoldKept(db: Redis, a: Redis, b: Redis, id: string, v: Worker, instance: string, k: Queue, token: string,
                 note: string)
    requires SameHold(a, b, id) && id in db.tasks
    ensures Refused(db, a, id, note) ==> Refused(db, b, id, note)
    ensures Dispatched(db, a, id, v, instance, k, token) ==> Dispatched(db, b, id, v, instance, k, token)
  {
    hide Entries;
  }

  /** The loop that puts the deferred claims back. Uninterrupted, it meets no stale one. */
  method ReturnDeferred(store: Store.Store, hand: seq<string>, claims: map<string, string>, ghost db: Redis,
                        r: Resource, ghost n: nat,
                        ghost settled: set<string>, ghost back: seq<string>, v: Worker, ghost node: Node,
                            ghost instance: string)
    requires Orderly(db, r) && Ended(db, store.Value(), r, n, hand, claims, settled, back, v, node, instance)
    requires forall id :: id in back ==> id in settled
    modifies store
    ensures Listed(store.Value().queues, Pool(r)) == Deferred(db, Seen(db, r, n), node) + back + Unseen(db, r, n)
    ensures Undisturbed(db, store.Value(), settled, Pool(r))
    ensures forall x :: x in settled ==> SameHold(old(store.Value()), store.Value(), x)
  {
    hide Copies, Entries, Admits, Halfway, PopOrder, Return, Seen, Unseen, Next, Claimable, Orderly, Mirror,
        Undisturbed, SameHold,
         Listed, ThrownBack, Deferred, Distinct, Ended;
    forall x ensures SameHold(store.Value(), store.Value(), x) { SelfHold(store.Value(), x); }
    ghost var rest := claims;
    ghost var base := Listed(store.Value().queues, Pool(r));
    HandIsNew(db, store.Value(), r, n, hand, claims, settled, back, v, node, instance);
    MirrorStarts(hand, base);
    for i := 0 to |hand|
      invariant Halfway(db, store.Value(), rest, settled, Pool(r), v, instance)
      invariant forall x :: x in rest ==> x in claims && rest[x] == claims[x]
      invariant rest.Keys == set id | id in hand[i..]
      invariant forall x :: x in settled ==> SameHold(old(store.Value()), store.Value(), x)
      invariant Listed(store.Value().queues, Pool(r)) == Mirror(hand[..i]) + base
    {
      ghost var d := store.Value();
      MirrorMembers(hand[..i]);
      HeadIsNew(hand, i);
      assert hand[i] in rest && hand[i] !in Mirror(hand[..i]) + base;
      ReturnOne(db, d, rest, hand[i], settled, Pool(r), v, instance);
      ReturnHolds(old(store.Value()), d, hand[i], v, Pool(r), claims[hand[i]]);
      var code := store.ReturnClaim(hand[i], v, Pool(r), claims[hand[i]]);
      assert code == 1;
      rest := rest - {hand[i]};
      MirrorGrows(hand, i, base);
    }
    MirrorOfPopOrder(db, Seen(db, r, n), node);
    assert hand[..|hand|] == hand;
    NothingInHand(db, store.Value(), rest, settled, Pool(r), v, instance);
  }

  lemma HeadIsNew(hand: seq<string>, i: nat)
    requires Distinct(hand) && i < |hand|
    ensures hand[i] !in hand[..i] && hand[i] !in hand[i + 1..] && hand[i..] == [hand[i]] + hand[i + 1..]
  {
  }

  lemma MirrorStarts(hand: seq<string>, base: seq<string>)
    ensures Mirror(hand[..0]) + base == base && hand[0..] == hand
  {
  }

  lemma MirrorGrows(hand: seq<string>, i: nat, base: seq<string>)
    requires i < |hand|
    ensures [hand[i]] + (Mirror(hand[..i]) + base) == Mirror(hand[..i + 1]) + base
  {
    assert hand[..i + 1][..i] == hand[..i];
  }

  lemma HandIsNew(db: Redis, d: Redis, r: Resource, n: nat, hand: seq<string>, claims: map<string, string>,
                  settled: set<string>, back: seq<string>, v: Worker, node: Node, instance: string)
    requires Orderly(db, r) && Ended(db, d, r, n, hand, claims, settled, back, v, node, instance)
    requires forall id :: id in back ==> id in settled
    ensures var base := Listed(d.queues, Pool(r));
            && n <= |Listed(db.queues, Pool(r))| && base == back + Unseen(db, r, n) && settled !! claims.Keys
               && Halfway(db, d, claims, settled, Pool(r), v, instance)
            && hand == PopOrder(db, Seen(db, r, n), node) && claims.Keys == (set id | id in hand)
            && Distinct(hand) && (forall id :: id in hand ==> id !in base)
  {
    hide Orderly, Seen, Unseen, PopOrder, ThrownBack, Entries, Claimable, Admits;
    HandIsApart(db, r, n, node);
    assert settled !! claims.Keys;
  }

  lemma NothingInHand(db: Redis, d: Redis, claims: map<string, string>, settled: set<string>, k: Queue, v: Worker,
                      instance: string)
    requires Halfway(db, d, claims, settled, k, v, instance) && claims.Keys == {}
    ensures Undisturbed(db, d, settled, k)
  {
    hide Entries, Admits;
  }

  /** Every id seen stands at the end of the seen part or in the part seen before. */
  lemma PassReaches(db: Redis, r: Resource, n: nat, node: Node, i: nat)
    requires n <= |Listed(db.queues, Pool(r))| && |Listed(db.queues, Pool(r))| - n <= i < |Listed(db.queues, Pool(r))|
    ensures var x := Listed(db.queues, Pool(r))[i];
            && x in Seen(db, r, n)
            && (ThrownBack(db, x, node) ==> x in Deferred(db, Seen(db, r, n), node))
            && (Dispatchable(db, x, node) ==> !NoneDispatchable(db, Seen(db, r, n), node))
            && (if i == |Listed(db.queues, Pool(r))| - n then x == Next(db, r, n - 1)
                else Dispatchable(db, x, node) ==> !NoneDispatchable(db, Seen(db, r, n - 1), node))
  {
    hide ThrownBack, Dispatchable;
    var q := Listed(db.queues, Pool(r));
    assert Seen(db, r, n)[i - (|q| - n)] == q[i];
    if i > |q| - n { assert Seen(db, r, n - 1)[i - (|q| - n) - 1] == q[i]; }
    DeferredMembers(db, Seen(db, r, n), node);
  }

  /** One uninterrupted pass: it returns the oldest dispatchable id in reach, now Processing
      under this worker's token and fence, or none; the queue keeps exactly its other live
      ids, the thrown-back ones in their old order behind the unseen ones; debris and
      cancelled ids are gone, and nothing else in the keyspace differs. When admission has
      closed, the oldest dispatchable id goes back unclaimed instead. */
  method DequeuePass(store: Store.Store, r: Resource, v: Worker, node: Node, instance: string, tokens: seq<string>,
                     open: seq<bool>, note: string)
    returns (got: Option<string>, ghost n: nat, ghost token: string, ghost refused: bool)
    requires |open| == |tokens| && Orderly(store.Value(), r)
    modifies store
    ensures var db, d := old(store.Value()), store.Value();
            && n <= |Listed(db.queues, Pool(r))|
            && if got.None? && !refused then
                 && Listed(d.queues, Pool(r)) == Deferred(db, Seen(db, r, n), node) + Unseen(db, r, n)
                 && Undisturbed(db, d, {}, Pool(r))
                 && NoneDispatchable(db, Seen(db, r, n), node)
                 && (n == |Listed(db.queues, Pool(r))| || n >= |tokens| || n >= 32)
               else
                 && n > 0 && var id := Next(db, r, n - 1);
                 && Dispatchable(db, id, node) && NoneDispatchable(db, Seen(db, r, n - 1), node)
                 && Listed(d.queues, Pool(r)) == Deferred(db, Seen(db, r, n), node) + (if refused then [id] else [])
                    + Unseen(db, r, n)
                 && Undisturbed(db, d, {id}, Pool(r))
                 && if refused then got == None && Refused(db, d, id, note)
                    else got == Some(id) && token in tokens && Dispatched(db, d, id, v, instance, Pool(r), token)
    ensures var db := old(store.Value());
            got.Some? ==>
              && got.value in db.tasks && db.tasks[got.value].status == Pending
              && db.tasks[got.value].claim == None && Admitted(db, db.tasks[got.value])
              && db.tasks[got.value].data.nodeId in {"", node.id, node.hostname}
              && db.tasks[got.value].data.hostname in {"", node.hostname, node.id}
              && Name.Child(got.value) !in db.life.cancels + db.life.tombstones
              && (db.tasks[got.value].data.base.Some? ==>
                    Name.Parent(db.tasks[got.value].data.base.value) !in db.life.cancels + db.life.tombstones)
    ensures var db, q := old(store.Value()), old(Listed(store.queues, Pool(r)));
            forall i :: 0 <= |q| - n <= i < |q| && q[i] in db.tasks && db.tasks[q[i]].status == Pending
                        && db.tasks[q[i]].claim == None && Admitted(db, db.tasks[q[i]])
                        && Name.Child(q[i]) !in db.life.cancels + db.life.tombstones
                        && (db.tasks[q[i]].data.base.Some? ==>
                              Name.Parent(db.tasks[q[i]].data.base.value) !in db.life.cancels + db.life.tombstones) ==>
                          if db.tasks[q[i]].data.nodeId in {"", node.id, node.hostname}
                             && db.tasks[q[i]].data.hostname in {"", node.hostname, node.id}
                          then got == Some(q[i]) || (refused && i == |q| - n)
                          else q[i] in Listed(store.Value().queues, Pool(r))
  {
    hide Ended, NoneDispatchable, Seen, Unseen, Next, Refused, Dispatched, Undisturbed, SameHold, Orderly, Admits,
         CancelSeen, Matches, Deferred, ThrownBack, PopOrder, Halfway, Listed, Entries, Copies;
    ghost var db := store.Value();
    var hand, claims;
    got, hand, claims, n, token, refused := ScanPool(store, r, v, node, instance, tokens, open, note);
    ghost var id := if n > 0 && n <= |Listed(db.queues, Pool(r))| then Next(db, r, n - 1) else "";
    ghost var settled := if got.None? && !refused then {} else {id};
    ghost var scanned := store.Value();
    ReturnDeferred(store, hand, claims, db, r, n, settled, if refused then [id] else [], v, node, instance);
    if id in settled && id in db.tasks { HoldKept(db, scanned, store.Value(), id, v, instance, Pool(r), token, note); }
    forall i | 0 <= |Listed(db.queues, Pool(r))| - n <= i < |Listed(db.queues, Pool(r))|
      ensures var x := Listed(db.queues, Pool(r))[i];
              && (Dispatchable(db, x, node) ==> got == Some(x) || (refused && i == |Listed(db.queues, Pool(r))| - n))
              && (ThrownBack(db, x, node) ==> x in Listed(store.Value().queues, Pool(r)))
    {
      PassReaches(db, r, n, node, i);
    }
    forall x { DispatchableMeans(db, x, node); }
    hide Dispatchable;
  }
}
