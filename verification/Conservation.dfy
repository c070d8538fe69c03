/** Every event keeps each task in exactly one place. */
module Conservation {
  import opened Coordination
  import opened Guard
  import opened TaskScripts
  import opened WorkflowScripts
  import opened Protocol
  import opened Fences

  /** The one id an event on a single task is about. */
  function Subject(w: World, e: Event): string
    requires Enabled(w, e)
  {
    match e
    case SubmitTask(id, _) => id
    case RefreshTask(id, _, _) => id
    case MarkProcessing(token) => w.claims[token].id
    case ReturnClaim(token) => w.claims[token].id
    case AckClaim(token, _) => w.claims[token].id
    case FreezeClaim(token) => w.claims[token].id
    case RequeueClaim(token, _, _, _) => w.claims[token].id
    case FinalizeClaim(token, _, _, _) => w.claims[token].id
    case ObserveCancelled(token) => w.claims[token].id
    case DropStale(token) => w.claims[token].id
    case MoveWaiting(id, _, _, _, _) => id
    case ReturnCpu(id, _) => id
    case MarkCpuTask(id) => id
    case CommitClaimless(id, _, _) => id
    case ExpireTask(id) => id
    case DiscardChild(id, _) => id
    case _ => ""
  }

  predicate SingleTask(e: Event) {
    !e.ClaimTask? && !e.PopCpu? && !e.FinishParent? && !e.CancelId?
  }

  /** A single-task event leaves every other slot alone. */
  lemma OthersKeepTheirSlot(w: World, e: Event, id: string)
    requires Enabled(w, e) && SingleTask(e)
    requires id != Subject(w, e)
    ensures SameSlot(w.db, Apply(w, e).db, id)
  {
    hide Submit, ForceRefresh, Mark, Return, Ack, Freeze, Requeue, QueueWait, Finalize, ClaimlessCommit, MarkCpu;
    hide Copies, Entries, Pop, NewTask, Forget, ClaimNext, WithdrawAll, Withdraw, Finish, Cancel, Open;
  }

  /** The token-side facts of `id`'s claim are the same after the event. */
  ghost predicate SameTicket(w: World, w': World, id: string) {
    && (forall token :: token in w.claims ==> token in w'.claims && w'.claims[token] == w.claims[token])
    && (id in w.db.tasks && w.db.tasks[id].claim.Some? ==>
          var token := w.db.tasks[id].claim.value.token;
          && (token in w'.dispatched <==> token in w.dispatched)
          && (token in w'.observed <==> token in w.observed))
  }

  /** A slot that is left alone stays well placed, as long as closed guards stay closed. */
  lemma PlacedStays(w: World, w': World, id: string)
    requires Placed(w, id)
    requires SameSlot(w.db, w'.db, id) && SameTicket(w, w', id)
    requires id in w.db.tasks && Closed(w.db, w.db.tasks[id]) ==> Closed(w'.db, w.db.tasks[id])
    ensures Placed(w', id)
  {
    hide Copies, Entries, Closed;
  }

  /** Closed tasks stay closed. */
  lemma ClosedStays(w: World, e: Event, id: string)
    requires Valid(w) && Enabled(w, e)
    requires id in w.db.tasks && Closed(w.db, w.db.tasks[id])
    ensures Closed(Apply(w, e).db, w.db.tasks[id])
  {
    hide Conserved, Ticketed, Reply, Admits;
    LifeAfterIsRight(w, e);
    var t := w.db.tasks[id];
    if !Admitted(w.db, t) {
      GuardStaysShut(w, e, t.cancelKeys, t.scope);
    }
  }

  /** A marker on the task or on its base shuts the guard of an anchored task for good. */
  lemma MarkedIsClosed(life: Lifecycle, generations: map<string, string>, id: string, t: Task)
    requires Bookkept(life, generations) && Keyed(id, t)
    requires CancelSeen(life, id, t.data.base) || Marked(life, id, t.data.base)
    ensures !Admits(life, t.cancelKeys, t.scope) || !Anchored(t)
  {
    if Name.Child(id) in life.cancels + life.tombstones {
      assert Name.Child(id) in t.cancelKeys * life.tombstones;
    } else {
      var b := Name.Parent(t.data.base.value);
      if b in life.tombstones {
        assert b in t.cancelKeys * life.tombstones;
      }
    }
  }

  // ----- the subject of each event

  lemma ClaimAddsTicket(w: World, e: Event)
    requires Enabled(w, e) && e.ClaimTask?
    ensures var w' := Apply(w, e);
            && (forall token :: token in w.claims ==> token in w'.claims && w'.claims[token] == w.claims[token])
            && w'.dispatched == w.dispatched && w'.observed == w.observed
  {
    hide Reply, Grabbed, BaseOf;
  }

  lemma OtherTicketsStay(w: World, e: Event)
    requires Enabled(w, e) && !e.ClaimTask?
    ensures var w' := Apply(w, e);
            && w'.claims == w.claims
            && w'.dispatched == (if e.MarkProcessing? then w.dispatched + {e.token} else w.dispatched)
            && w'.observed == (if e.ObserveCancelled? then w.observed + {e.token} else w.observed)
  {
    hide Enabled, Reply, Pop;
  }

  /** Tickets are never taken back, and an event marks or observes its own token only. */
  lemma OwnTicketOnly(w: World, e: Event)
    requires Enabled(w, e)
    ensures var w' := Apply(w, e);
            && (forall token :: token in w.claims ==> token in w'.claims && w'.claims[token] == w.claims[token])
            && w'.dispatched == (if e.MarkProcessing? then w.dispatched + {e.token} else w.dispatched)
            && w'.observed == (if e.ObserveCancelled? then w.observed + {e.token} else w.observed)
  {
    hide Enabled, Apply;
    if e.ClaimTask? { ClaimAddsTicket(w, e); } else { OtherTicketsStay(w, e); }
  }

  lemma UntouchedTicket(w: World, e: Event, id: string)
    requires Enabled(w, e)
    requires (e.MarkProcessing? || e.ObserveCancelled?) ==> !Current(w.db, id, e.token)
    ensures SameTicket(w, Apply(w, e), id)
  {
    hide Apply, Enabled, Reply, SameTicket;
    OwnTicketOnly(w, e);
    TicketKept(w, Apply(w, e), id, if e.MarkProcessing? then {e.token} else {}, if e.ObserveCancelled? then {e.token}
        else {});
  }

  lemma TicketKept(w: World, w': World, id: string, marked: set<string>, seen: set<string>)
    requires forall token :: token in w.claims ==> token in w'.claims && w'.claims[token] == w.claims[token]
    requires w'.dispatched == w.dispatched + marked && w'.observed == w.observed + seen
    requires forall token :: token in marked || token in seen ==> !Current(w.db, id, token)
    ensures SameTicket(w, w', id)
  {
  }

  /** An event that changes nothing about its subject keeps it placed. */
  lemma UntouchedSubject(w: World, e: Event, id: string)
    requires Valid(w) && Enabled(w, e)
    requires Placed(w, id)
    requires SameSlot(w.db, Apply(w, e).db, id)
    requires (e.MarkProcessing? || e.ObserveCancelled?) ==> !Current(w.db, id, e.token)
    ensures Placed(Apply(w, e), id)
  {
    UntouchedTicket(w, e, id);
    hide Closed, Apply, Conserved, Placed, SameSlot, SameTicket, Bookkept, Enrolled, Ticketed, Enabled;
    if id in w.db.tasks && Closed(w.db, w.db.tasks[id]) {
      ClosedStays(w, e, id);
    }
    PlacedStays(w, Apply(w, e), id);
  }

  lemma SubmitSlot(db: Redis, id: string, t: Task)
    requires id in db.tasks || NoCopies(db.queues, id)
    ensures var r := Submit(db, id, t);
            if r.code == 1 then id !in db.tasks && r.db.tasks == db.tasks[id := t] && OneCopy(r.db.queues, id, Home(t))
                && r.db.inflight == db.inflight
            else r.db == db
  {
    hide Copies, Entries, Admits, Purge, Push, Home;
  }

  lemma RefreshSlot(db: Redis, id: string, t: Task, known: seq<Queue>)
    requires NoCopies(db.queues, id) || RefreshReply(db, id, t) < 0
    ensures var r := ForceRefresh(db, id, t, known);
            r.code == RefreshReply(db, id, t) &&
            if r.code > 0 then id in r.db.tasks && r.db.tasks[id] == t && OneCopy(r.db.queues, id, Home(t))
                && r.db.inflight == db.inflight
            else r.db == db
  {
    hide Copies, Entries, Admits, Purge, Push, Home, PurgeAll;
  }

  lemma SubmitPlaces(w: World, e: Event)
    requires Valid(w) && Enabled(w, e) && (e.SubmitTask? || e.RefreshTask?)
    requires Placed(w, e.id)
    ensures Placed(Apply(w, e), e.id)
  {
    hide Copies, Entries, Admits, Bookkept, Enrolled, Ticketed, Conserved, Submit, ForceRefresh, OneCopy, NoEntries,
        Closed, OneEntry, NoCopies;
    var t := NewTask(e.id, e.sub);
    if e.SubmitTask? {
      SubmitSlot(w.db, e.id, t);
    } else {
      RefreshSlot(w.db, e.id, t, e.known);
    }
    if Reply(w, e).code <= 0 {
      assert SameSlot(w.db, w.db, e.id);
      UntouchedSubject(w, e, e.id);
    }
  }

  /** A token that is not current has no entry left to remove. */
  lemma StaleHasNoEntry(w: World, id: string, v: Worker, token: string)
    requires Placed(w, id) && !Current(w.db, id, token)
    ensures SameSlot(w.db, Forget(w.db, id, v, token), id)
  {
    hide Copies, Entries, NoCopies, OneCopy, Closed;
  }

  lemma ForgetClears(db: Redis, id: string, v: Worker, token: string)
    requires OneEntry(db.inflight, id, token, v)
    ensures NoEntries(Forget(db, id, v, token).inflight, id)
    ensures Forget(db, id, v, token).queues == db.queues && Forget(db, id, v, token).tasks == db.tasks
            && Forget(db, id, v, token).results == db.results
  {
    hide Entries;
  }

  lemma RequeuedOnce(qs: Queues, id: string, dest: Queue)
    requires NoCopies(qs, id)
    ensures OneCopy(Repush(qs, dest, id), id, dest)
  {
    hide Copies, Repush;
  }

  /** A holder whose entry, queue copies and claim facts agree with the stored task. */
  ghost predicate Holds(w: World, token: string) {
    && token in w.claims
    && var i := w.claims[token];
       && Current(w.db, i.id, token)
       && Held(w, i.id, w.db.tasks[i.id], w.db.tasks[i.id].claim.value)
       && Keyed(i.id, w.db.tasks[i.id])
       && w.db.tasks[i.id].claim.value.worker == i.worker
       && Home(w.db.tasks[i.id]) == i.source
       && w.db.tasks[i.id].data.base == i.base
  }

  predicate OnToken(e: Event) {
    e.MarkProcessing? || e.ReturnClaim? || e.AckClaim? || e.FreezeClaim? || e.RequeueClaim? || e.FinalizeClaim?
    || e.ObserveCancelled? || e.DropStale?
  }

  /** Token events by a superseded holder leave the subject where it is. */
  lemma StaleEventPlaces(w: World, e: Event)
    requires Valid(w) && Enabled(w, e) && OnToken(e)
    requires Placed(w, w.claims[e.token].id)
    requires !Current(w.db, w.claims[e.token].id, e.token)
    ensures Placed(Apply(w, e), w.claims[e.token].id)
  {
    hide Copies, Entries, Admits, Bookkept, Enrolled, Conserved, OneCopy, NoEntries, Closed, OneEntry, NoCopies, Forget;
    var i := w.claims[e.token];
    StaleHasNoEntry(w, i.id, i.worker, e.token);
    assert SameSlot(w.db, Apply(w, e).db, i.id) by {
      hide SameSlot, Placed;
    }
    UntouchedSubject(w, e, i.id);
  }

  /** What the execution gate does to the slot of a live attempt that was not yet marked. */
  lemma MarkSlot(db: Redis, id: string, v: Worker, instance: string, source: Queue, token: string, base: Option<string>)
    requires Current(db, id, token) && db.tasks[id].status.Pending?
    requires OneEntry(db.inflight, id, token, v)
    ensures var r := Mark(db, id, v, instance, source, token, base);
            var t := db.tasks[id];
            && r.db.queues == db.queues && r.db.life == db.life
            && if r.code == 1
               then r.db.inflight == db.inflight && Admitted(db, t) && !Marked(db.life, id, base)
                    && r.db.tasks == db.tasks[id := t.(status := Processing,
                                                       claim := Some(Claim(token, v, instance, source, Fenced)))]
               else r.code == -1 && (!Admitted(db, t) || Marked(db.life, id, base))
                    && NoEntries(r.db.inflight, id) && r.db.tasks == db.tasks[id := Unclaim(t)]
  {
    hide Copies, Entries, Admits, NoEntries, OneEntry, Forget;
    ForgetClears(db, id, v, token);
  }

  lemma MarkPlaces(w: World, e: Event)
    requires Valid(w) && Enabled(w, e) && e.MarkProcessing? && Holds(w, e.token)
    ensures Placed(Apply(w, e), w.claims[e.token].id)
  {
    hide Copies, Entries, Admits, Bookkept, Enrolled, Conserved, OneCopy, NoEntries, OneEntry, NoCopies, Mark;
    var i := w.claims[e.token];
    MarkSlot(w.db, i.id, i.worker, i.instance, i.source, e.token, i.base);
    if Marked(w.db.life, i.id, i.base) {
      MarkedIsClosed(w.db.life, w.generations, i.id, w.db.tasks[i.id]);
    }
  }

  lemma GivenBack(db: Redis, id: string, source: Queue)
    requires id in db.tasks && NoCopies(db.queues, id)
    ensures if Admitted(db, db.tasks[id]) then
              OneCopy(GiveBack(db, id, source), id, source)
              && Listed(GiveBack(db, id, source), source) == [id] + Listed(db.queues, source)
            else NoCopies(GiveBack(db, id, source), id)
  {
    hide Copies, Admits, Purge, Push;
    PushedBack(db.queues, id, source);
  }

  lemma ReturnPlaces(w: World, e: Event)
    requires Valid(w) && Enabled(w, e) && e.ReturnClaim? && Holds(w, e.token)
    ensures Placed(Apply(w, e), w.claims[e.token].id)
  {
    hide Copies, Entries, Admits, Bookkept, Enrolled, Conserved, OneCopy, NoEntries, OneEntry, NoCopies, Forget,
        GiveBack;
    var i := w.claims[e.token];
    ForgetClears(w.db, i.id, i.worker, e.token);
    GivenBack(w.db, i.id, i.source);
  }

  lemma AckPlaces(w: World, e: Event)
    requires Valid(w) && Enabled(w, e) && e.AckClaim? && Holds(w, e.token)
    ensures Placed(Apply(w, e), w.claims[e.token].id)
  {
    hide Copies, Entries, Admits, Bookkept, Enrolled, Conserved, OneCopy, NoEntries, OneEntry, NoCopies, Forget;
    ForgetClears(w.db, w.claims[e.token].id, w.claims[e.token].worker, e.token);
  }

  lemma FreezePlaces(w: World, e: Event)
    requires Valid(w) && Enabled(w, e) && (e.FreezeClaim? || e.ObserveCancelled?) && Holds(w, e.token)
    ensures Placed(Apply(w, e), w.claims[e.token].id)
  {
    hide Copies, Entries, Admits, Bookkept, Enrolled, Conserved, OneCopy, NoEntries, OneEntry, NoCopies, Forget;
    var i := w.claims[e.token];
    if e.ObserveCancelled? {
      MarkedIsClosed(w.db.life, w.generations, i.id, w.db.tasks[i.id]);
    }
  }

  /** What conditional-requeue does to the slot of a live, unfinished attempt. */
  lemma RequeueSlot(db: Redis, id: string, v: Worker, token: string, dest: Queue, data: Payload,
                    assignee: Option<Worker>, assignedAt: string, base: Option<string>, mode: Release)
    requires Current(db, id, token) && !Terminal(db.tasks[id].status)
    requires NoCopies(db.queues, id) && OneEntry(db.inflight, id, token, v)
    ensures var r := Requeue(db, id, v, token, dest, data, assignee, assignedAt, base, mode);
            var t := db.tasks[id];
            (r.code == -4 <==> !Releases(mode, t.claim.value.recovery))
            && match r.code
            case -4 => r.db == db
            case -2 => (!Admitted(db, t) || Marked(db.life, id, base)) && NoEntries(r.db.inflight, id)
                       && r.db.queues == db.queues && r.db.tasks == db.tasks[id := Unclaim(t)]
            case _ => r.code == 1 && Admitted(db, t) && !Marked(db.life, id, base)
                      && NoEntries(r.db.inflight, id) && OneCopy(r.db.queues, id, dest)
                      && r.db.tasks == db.tasks[id := t.(status := Pending, data := data, assignee := assignee,
                                                         assignedAt := assignedAt, claim := None)]
                      && Listed(r.db.queues, dest) == [id] + Listed(db.queues, dest) && r.db.results == db.results
  {
    hide Copies, Entries, Admits, NoEntries, OneEntry, OneCopy, NoCopies, Repush, Forget;
    ForgetClears(db, id, v, token);
    RequeuedOnce(db.queues, id, dest);
    PushedBack(db.queues, id, dest);
  }

  /** Put back where it was in no queue, an id stands last in line. */
  lemma PushedBack(qs: Queues, id: string, k: Queue)
    requires NoCopies(qs, id)
    ensures Listed(Repush(qs, k, id), k) == [id] + Listed(qs, k)
  {
    hide Without;
    assert Copies(qs, k, id) == 0;
  }

  lemma RequeuePlaces(w: World, e: Event)
    requires Valid(w) && Enabled(w, e) && e.RequeueClaim? && Holds(w, e.token)
    ensures Placed(Apply(w, e), w.claims[e.token].id)
  {
    hide Copies, Entries, Admits, Bookkept, Enrolled, Conserved, OneCopy, NoEntries, OneEntry, NoCopies, Forget, Repush,
        Requeue;
    var i := w.claims[e.token];
    var t := w.db.tasks[i.id];
    RequeueSlot(w.db, i.id, i.worker, e.token, if e.restore then i.source else Pool(t.data.resource),
                t.data.(note := e.note),
                if e.restore then t.assignee else None, if e.restore then t.assignedAt else "", i.base, e.mode);
    if Reply(w, e).code == -2 {
      if Marked(w.db.life, i.id, i.base) {
        MarkedIsClosed(w.db.life, w.generations, i.id, t);
      }
    }
  }

  lemma FinalizePlaces(w: World, e: Event)
    requires Valid(w) && Enabled(w, e) && e.FinalizeClaim? && Holds(w, e.token)
    ensures Placed(Apply(w, e), w.claims[e.token].id)
  {
    hide Copies, Entries, Admits, Bookkept, Enrolled, Conserved, OneCopy, NoEntries, OneEntry, NoCopies, Forget, Closed;
    ForgetClears(w.db, w.claims[e.token].id, w.claims[e.token].worker, e.token);
  }

  lemma MovePlaces(w: World, e: Event)
    requires Valid(w) && Enabled(w, e) && e.MoveWaiting?
    requires Placed(w, e.id)
    ensures Placed(Apply(w, e), e.id)
  {
    hide Copies, Entries, Admits, Bookkept, Enrolled, Conserved, NoEntries, OneEntry, Repush, TakeOne, Ticketed;
    var code := MoveReply(w.db, e.id, e.src, e.op, e.seen);
    if code != 1 {
      assert code != 2;
      assert SameSlot(w.db, Apply(w, e).db, e.id);
      UntouchedSubject(w, e, e.id);
    }
  }

  lemma RemovalPlaces(w: World, e: Event)
    requires Valid(w) && Enabled(w, e) && (e.ExpireTask? || e.DiscardChild?)
    requires Placed(w, e.id)
    ensures Placed(Apply(w, e), e.id)
  {
    hide Copies, Entries, Admits, Bookkept, Enrolled, Conserved, NoEntries, OneEntry, Ticketed, OneCopy, NoCopies,
        Closed;
    if e.DiscardChild? && Reply(w, e).code == 0 {
      assert SameSlot(w.db, Apply(w, e).db, e.id);
      UntouchedSubject(w, e, e.id);
    }
  }

  lemma HolderOrStale(w: World, token: string)
    requires token in w.claims && Placed(w, w.claims[token].id)
    ensures Current(w.db, w.claims[token].id, token) ==> Holds(w, token)
  {
    hide Copies, Entries, OneCopy, NoEntries, OneEntry, NoCopies, Closed;
  }

  lemma TokenSubjectPlaced(w: World, e: Event)
    requires Valid(w) && Enabled(w, e) && OnToken(e)
    requires w.claims[e.token].id !in w.loose
    ensures Placed(Apply(w, e), w.claims[e.token].id)
  {
    hide Placed, Closed, Bookkept, Enrolled, Ticketed, Apply, Holds;
    assert Placed(w, w.claims[e.token].id);
    HolderOrStale(w, e.token);
    if !Current(w.db, w.claims[e.token].id, e.token) {
      StaleEventPlaces(w, e);
    } else {
      match e
      case MarkProcessing(_) => MarkPlaces(w, e);
      case ReturnClaim(_) => ReturnPlaces(w, e);
      case AckClaim(_, _) => AckPlaces(w, e);
      case FreezeClaim(_) => FreezePlaces(w, e);
      case RequeueClaim(_, _, _, _) => RequeuePlaces(w, e);
      case FinalizeClaim(_, _, _, _) => FinalizePlaces(w, e);
      case ObserveCancelled(_) => FreezePlaces(w, e);
    }
  }

  predicate OnId(e: Event) {
    e.SubmitTask? || e.RefreshTask? || e.MoveWaiting? || e.ExpireTask? || e.DiscardChild?
  }

  lemma IdSubjectPlaced(w: World, e: Event)
    requires Valid(w) && Enabled(w, e) && OnId(e)
    requires e.id !in w.loose
    ensures Placed(Apply(w, e), e.id)
  {
    hide Placed, Closed, Bookkept, Enrolled, Ticketed, Apply;
    assert Placed(w, e.id);
    match e
    case SubmitTask(_, _) => SubmitPlaces(w, e);
    case RefreshTask(_, _, _) => SubmitPlaces(w, e);
    case MoveWaiting(_, _, _, _, _) => MovePlaces(w, e);
    case ExpireTask(_) => RemovalPlaces(w, e);
    case DiscardChild(_, _) => RemovalPlaces(w, e);
  }

  predicate OnLife(e: Event) {
    SingleTask(e) && ((!OnTask(e) && !e.DiscardChild?) || e.ExpireResult?)
  }

  lemma EqualSlots(db: Redis, db': Redis, id: string)
    requires db'.tasks == db.tasks && db'.queues == db.queues && db'.inflight == db.inflight
    ensures SameSlot(db, db', id)
  {
  }

  lemma LifeEventKeepsSlots(w: World, e: Event, id: string)
    requires Enabled(w, e) && OnLife(e)
    ensures SameSlot(w.db, Apply(w, e).db, id)
  {
    LifeEventKeepsLists(w, e);
    ApplyKeepsReply(w, e);
    hide Apply, Reply, Enabled, SameSlot;
    EqualSlots(w.db, Apply(w, e).db, id);
  }

  lemma LifeEventKeepsLists(w: World, e: Event)
    requires Enabled(w, e) && OnLife(e)
    ensures var db := Reply(w, e).db;
            db.tasks == w.db.tasks && db.queues == w.db.queues && db.inflight == w.db.inflight
  {
    hide Accept, Renew, DiscardParent, Submit, ForceRefresh, Mark, Return, Ack, Freeze, Requeue, QueueWait, Finalize,
         ClaimlessCommit, MarkCpu, ClaimNext, NewTask, Forget, Finish, Cancel, DiscardTask;
  }

  lemma SingleKeepsTicket(w: World, e: Event, id: string)
    requires Ticketed(w) && Enabled(w, e) && SingleTask(e)
    requires id != Subject(w, e) || OnLife(e)
    ensures SameTicket(w, Apply(w, e), id)
  {
    hide Apply, Entries, SameTicket;
    if e.MarkProcessing? || e.ObserveCancelled? {
      assert Subject(w, e) == w.claims[e.token].id != id;
      assert !Current(w.db, id, e.token);
    }
    UntouchedTicket(w, e, id);
  }

  /** An event on one task loosens at most its subject. */
  lemma SingleLoosens(w: World, e: Event)
    requires Enabled(w, e) && SingleTask(e)
    ensures Apply(w, e).loose == if e.CommitClaimless? then w.loose + {Subject(w, e)} else w.loose
  {
    hide Reply;
  }

  lemma OthersStayPlaced(w: World, e: Event, id: string)
    requires Valid(w) && Enabled(w, e) && SingleTask(e) && Placed(w, id)
    requires id != Subject(w, e) || OnLife(e)
    ensures Placed(Apply(w, e), id)
  {
    hide Apply, Reply, Enabled, Placed, Closed, Bookkept, Enrolled, Ticketed, SameSlot, SameTicket;
    if OnLife(e) { LifeEventKeepsSlots(w, e, id); } else { OthersKeepTheirSlot(w, e, id); }
    SingleKeepsTicket(w, e, id);
    if id in w.db.tasks && Closed(w.db, w.db.tasks[id]) { ClosedStays(w, e, id); }
    PlacedStays(w, Apply(w, e), id);
  }

  lemma SingleTaskConserves(w: World, e: Event)
    requires Valid(w) && Enabled(w, e) && SingleTask(e)
    ensures Conserved(Apply(w, e))
  {
    forall id | id !in Apply(w, e).loose
      ensures Placed(Apply(w, e), id)
    {
      SingleLoosens(w, e);
      hide Apply, Reply, Enabled, Placed, Closed, Bookkept, Enrolled, Ticketed;
      assert Placed(w, id);
      if id != Subject(w, e) || OnLife(e) {
        OthersStayPlaced(w, e, id);
      } else if OnToken(e) {
        TokenSubjectPlaced(w, e);
      } else {
        assert OnId(e);
        IdSubjectPlaced(w, e);
      }
    }
  }

  // ----- events on several tasks

  /** Only the task `id` may have moved between two worlds with the same workflow side. */
  lemma OneMoved(w: World, w': World, id: string)
    requires Conserved(w) && Touches(w.db, w'.db, id) && w'.loose == w.loose
    requires forall x :: x != id ==> SameTicket(w, w', x)
    requires id !in w.loose ==> Placed(w', id)
    ensures Conserved(w')
  {
    forall x | x !in w'.loose
      ensures Placed(w', x)
    {
      hide Placed, SameTicket, SameSlot;
      if x != id {
        assert Placed(w, x) && SameSlot(w.db, w'.db, x) && SameTicket(w, w', x);
        PlacedStays(w, w', x);
      }
    }
  }

  lemma UnqueuedIsNowhere(db: Redis, id: string, t: Task)
    requires id in db.tasks && db.tasks[id] == t
    requires NoCopies(db.queues, id) || OneCopy(db.queues, id, Home(t))
    ensures NoCopies(Unqueue(db, id), id)
  {
    hide Copies, Unqueue;
    forall k
      ensures Copies(Unqueue(db, id), k, id) == 0
    {
      match k
      case Pool(Cpu) =>
      case Pool(Gpu) =>
      case Direct(v) =>
    }
  }

  lemma UnqueueAbsent(db: Redis, id: string)
    requires NoCopies(db.queues, id)
    ensures NoCopies(Unqueue(db, id), id)
  {
    hide Copies, Unqueue;
    forall k
      ensures Copies(Unqueue(db, id), k, id) == 0
    {
      match k
      case Pool(Cpu) =>
      case Pool(Gpu) =>
      case Direct(v) =>
    }
  }

  lemma DisarmedIsClear(w: World, id: string, t: Task)
    requires id in w.db.tasks && w.db.tasks[id] == t && PlacedTask(w, id, t)
    ensures NoEntries(Disarm(w.db, id), id)
  {
    hide Copies, Entries, Closed, NoCopies, OneCopy;
  }

  lemma WithdrawPlaces(w: World, id: string, why: string)
    requires Placed(w, id)
    ensures Placed(w.(db := Withdraw(w.db, id, why)), id)
  {
    hide Copies, Entries, Unqueue, Disarm, NoEntries, OneEntry, Admits, Anchored;
    if id in w.db.tasks {
      if Withdrawable(w.db, id) {
        UnqueuedIsNowhere(w.db, id, w.db.tasks[id]);
        DisarmedIsClear(w, id, w.db.tasks[id]);
      } else {
        UnqueueAbsent(w.db, id);
      }
    } else {
      UnqueueAbsent(w.db, id);
    }
  }

  lemma WithdrawConserves(w: World, id: string, why: string)
    requires Conserved(w)
    ensures Conserved(w.(db := Withdraw(w.db, id, why)))
  {
    hide Withdraw, Placed, Touches;
    var w' := w.(db := Withdraw(w.db, id, why));
    if id !in w.loose {
      WithdrawPlaces(w, id, why);
    }
    OneMoved(w, w', id);
  }

  lemma {:induction false} WithdrawAllConserves(w: World, order: seq<string>)
    requires Conserved(w)
    ensures Conserved(w.(db := WithdrawAll(w.db, order)))
    decreases |order|
  {
    hide Withdraw, Conserved;
    if order != [] {
      WithdrawConserves(w, order[0], ENDED);
      WithdrawAllConserves(w.(db := Withdraw(w.db, order[0], ENDED)), order[1..]);
    } else {
      assert w.(db := WithdrawAll(w.db, order)) == w;
    }
  }

  lemma FinishConserves(w: World, e: Event)
    requires Valid(w) && Enabled(w, e) && e.FinishParent?
    ensures Conserved(Apply(w, e))
  {
    hide WithdrawAll, Close, Placed, Ticketed, Enrolled, Bookkept;
    if Finishable(w.db.life, e.parent, e.generation) {
      var w1 := w.(db := w.db.(life := Close(w.db.life, e.parent, e.generation, e.status, e.reason, e.body)));
      LifeAfterIsRight(w, e);
      LifeMoveConserves(w, e, w1);
      WithdrawAllConserves(w1, e.order);
    }
  }

  /** The lifecycle half of an event, on its own, keeps every task placed. */
  lemma LifeMovePlaces(w: World, e: Event, id: string)
    requires Valid(w) && Enabled(w, e) && Placed(w, id)
    ensures Placed(w.(db := w.db.(life := LifeAfter(w, e))), id)
  {
    hide Placed, Reply, Apply, LifeAfter, SameSlot, Admits, Conserved;
    var w1 := w.(db := w.db.(life := LifeAfter(w, e)));
    LifeAfterIsRight(w, e);
    EqualSlots(w.db, w1.db, id);
    if id in w.db.tasks && Closed(w.db, w.db.tasks[id]) { ClosedStays(w, e, id); }
    PlacedStays(w, w1, id);
  }

  lemma LifeMoveConserves(w: World, e: Event, w1: World)
    requires Valid(w) && Enabled(w, e)
    requires w1 == w.(db := w.db.(life := LifeAfter(w, e)))
    ensures Conserved(w1)
  {
    hide Placed, LifeAfter;
    forall id | id !in w.loose
      ensures Placed(w1, id)
    {
      assert Placed(w, id);
      LifeMovePlaces(w, e, id);
    }
  }

  lemma CancelConserves(w: World, e: Event)
    requires Valid(w) && Enabled(w, e) && e.CancelId?
    ensures Conserved(Apply(w, e))
  {
    hide Withdraw, Condemn, Placed, Ticketed, Enrolled, Bookkept;
    var w1 := w.(db := w.db.(life := LifeAfter(w, e)));
    LifeMoveConserves(w, e, w1);
    if e.id !in w.db.life.parents && e.id in w.db.tasks {
      WithdrawConserves(w1, e.id, CANCELLED);
    }
  }

  lemma HeldHasNoCopies(w: World, id: string)
    requires Placed(w, id) && id in w.db.tasks && w.db.tasks[id].claim.Some?
    ensures NoCopies(w.db.queues, id)
  {
  }

  function Popped(w: World, k: Queue): World
    requires Listed(w.db.queues, k) != []
  {
    w.(db := w.db.(queues := Pop(w.db.queues, k).0))
  }

  lemma PopTouches(w: World, k: Queue)
    requires Listed(w.db.queues, k) != []
    ensures Touches(w.db, Popped(w, k).db, Pop(w.db.queues, k).1)
  {
    hide Copies, Entries, Pop;
  }

  /** An id whose pop finds nothing to claim was debris or a task no longer admitted. */
  lemma PopOfDebris(w: World, k: Queue)
    requires Conserved(w) && Listed(w.db.queues, k) != []
    requires !Claimable(Popped(w, k).db, Pop(w.db.queues, k).1)
    ensures Conserved(Popped(w, k))
  {
    var id := Pop(w.db.queues, k).1;
    PopTouches(w, k);
    if id !in w.loose {
      assert Placed(Popped(w, k), id) by {
        hide Copies, Entries, Pop, NoEntries, OneEntry, Anchored, Admits, Touches;
        assert Placed(w, id);
      }
    }
    hide Placed, Copies, Entries, Pop, Touches, Claimable;
    OneMoved(w, Popped(w, k), id);
  }

  /** The claim of a popped, admitted task. */
  function Took(w: World, k: Queue, v: Worker, instance: string, token: string): World
    requires Listed(w.db.queues, k) != [] && Claimable(Popped(w, k).db, Pop(w.db.queues, k).1)
  {
    var id := Pop(w.db.queues, k).1;
    w.(db := Take(Popped(w, k).db, id, k, v, instance, token),
       claims := w.claims[token := Info(id, v, instance, k, BaseOf(w.db, id))])
  }

  lemma PoppedHome(qs: Queues, k: Queue, home: Queue)
    requires Listed(qs, k) != [] && (OneCopy(qs, Pop(qs, k).1, home) || NoCopies(qs, Pop(qs, k).1))
    ensures k == home && NoCopies(Pop(qs, k).0, Pop(qs, k).1)
  {
    hide Copies, Pop;
  }

  lemma FirstEntry(fl: InFlight, id: string, v: Worker, token: string)
    requires NoEntries(fl, id)
    ensures OneEntry(PushEntry(fl, v, Entry(token, id)), id, token, v)
  {
    hide Entries, PushEntry;
  }

  lemma TookPlaces(w: World, k: Queue, v: Worker, instance: string, token: string)
    requires Ticketed(w) && token !in w.claims
    requires Listed(w.db.queues, k) != [] && Claimable(Popped(w, k).db, Pop(w.db.queues, k).1)
    requires Placed(w, Pop(w.db.queues, k).1)
    ensures Placed(Took(w, k, v, instance, token), Pop(w.db.queues, k).1)
  {
    hide Copies, Entries, Pop, PushEntry, Admits, OneEntry, NoEntries, NoCopies, OneCopy, Anchored;
    var id := Pop(w.db.queues, k).1;
    PoppedHome(w.db.queues, k, Home(w.db.tasks[id]));
    FirstEntry(w.db.inflight, id, v, token);
  }

  lemma TakeConserves(w: World, k: Queue, v: Worker, instance: string, token: string)
    requires Conserved(w) && Ticketed(w) && token !in w.claims
    requires Listed(w.db.queues, k) != [] && Claimable(Popped(w, k).db, Pop(w.db.queues, k).1)
    ensures Conserved(Took(w, k, v, instance, token))
  {
    hide Copies, Entries, Pop, PushEntry, Placed, Admits;
    var id := Pop(w.db.queues, k).1;
    var w' := Took(w, k, v, instance, token);
    if id !in w.loose {
      TookPlaces(w, k, v, instance, token);
    }
    PopTouches(w, k);
    forall x | x != id
      ensures SameTicket(w, w', x)
    {
    }
    hide Touches, Claimable, Took, Ticketed;
    TookTouches(w, k, v, instance, token);
    OneMoved(w, w', id);
  }

  lemma TookTouches(w: World, k: Queue, v: Worker, instance: string, token: string)
    requires Listed(w.db.queues, k) != [] && Claimable(Popped(w, k).db, Pop(w.db.queues, k).1)
    ensures Touches(w.db, Took(w, k, v, instance, token).db, Pop(w.db.queues, k).1)
    ensures Took(w, k, v, instance, token).loose == w.loose
  {
    hide Copies, Entries, Pop, PushEntry, Admits;
  }

  function ClaimWorld(w: World, k: Queue, v: Worker, instance: string, token: string, limit: nat): World {
    var (d, got) := ClaimNext(w.db, k, v, instance, token, limit);
    if got.None? then w.(db := d)
    else w.(db := d, claims := w.claims[token := Info(got.value, v, instance, k, BaseOf(w.db, got.value))])
  }

  lemma {:induction false} ClaimConserves(w: World, k: Queue, v: Worker, instance: string, token: string, limit: nat)
    requires Conserved(w) && Ticketed(w) && token !in w.claims
    ensures Conserved(ClaimWorld(w, k, v, instance, token, limit))
    decreases limit
  {
    hide Conserved, Pop, Copies, Entries, Claimable, Take;
    if limit == 0 || Listed(w.db.queues, k) == [] {
      assert ClaimWorld(w, k, v, instance, token, limit) == w;
    } else if Claimable(Popped(w, k).db, Pop(w.db.queues, k).1) {
      TakeConserves(w, k, v, instance, token);
      assert ClaimWorld(w, k, v, instance, token, limit) == Took(w, k, v, instance, token);
    } else {
      PopOfDebris(w, k);
      ClaimConserves(Popped(w, k), k, v, instance, token, limit - 1);
      assert ClaimWorld(w, k, v, instance, token, limit) == ClaimWorld(Popped(w, k), k, v, instance, token, limit - 1);
    }
  }

  lemma PopCpuConserves(w: World, e: Event)
    requires Valid(w) && Enabled(w, e) && e.PopCpu?
    ensures Conserved(Apply(w, e))
  {
    if Listed(w.db.queues, e.queue) != [] {
      PopTouches(w, e.queue);
      forall x | x !in Apply(w, e).loose
        ensures Placed(Apply(w, e), x)
      {
        hide Placed, Pop, SameSlot, Bookkept, Enrolled, Ticketed;
        assert Placed(w, x);
        PlacedStays(w, Apply(w, e), x);
      }
    }
  }

  /** Conservation: whatever happens next, every task that never went through a path
      without a claim is in exactly one place. */
  lemma EveryEventConserves(w: World, e: Event)
    requires Valid(w) && Enabled(w, e)
    ensures Conserved(Apply(w, e))
  {
    hide Conserved, Bookkept, Enrolled;
    match e
    case ClaimTask(token, v, instance, k, limit) => ClaimConserves(w, k, v, instance, token, limit);
    case PopCpu(_) => PopCpuConserves(w, e);
    case FinishParent(_, _, _, _, _, _) => FinishConserves(w, e);
    case CancelId(_) => CancelConserves(w, e);
    case _ => SingleTaskConserves(w, e);
  }
}
