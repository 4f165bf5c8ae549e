/** What holds over every run of the replay queue. */
module QueueTheorems {
  import opened Text
  import opened Envelopes
  import opened Pruning
  import opened FileStores
  import opened SyncProtocol
  import opened QueueRuns

  /** One step of a run, under the limits configured at the time. */
  datatype Event = Event(cfg: Config, op: Op)

  function Exec(w: World, events: seq<Event>): World {
    if events == [] then w
    else
      var last := events[|events| - 1];
      Next(last.cfg, Exec(w, events[..|events| - 1]), last.op)
  }

  ghost predicate LegalRun(w: World, events: seq<Event>) {
    events != [] ==>
      var init, last := events[..|events| - 1], events[|events| - 1];
      LegalRun(w, init) && Legal(Exec(w, init), last.op)
  }

  /** A process starting on a disk that is missing, legacy, unreadable or holds an acceptable snapshot. */
  ghost predicate Initial(w: World) {
    && w.store == Store(Disk(w.store.disk.visible, {w.store.disk.visible}), false, "", false)
    && w.history.claims == [] && w.history.fates == map[]
    && (forall p :: p in w.history.minted ==> ValidProducerId(p))
    && (w.store.disk.visible.Snapshot? ==>
          Accepts(w.store.disk.visible.env) && w.store.disk.visible.env.producerId in w.history.minted)
  }

  ghost predicate Reachable(w: World) {
    exists start, events :: Initial(start) && LegalRun(start, events) && Exec(start, events) == w
  }

  lemma {:induction false} RunKeepsInv(w: World, events: seq<Event>)
    requires Inv(w.store.disk, w.history) && LegalRun(w, events)
    ensures Inv(Exec(w, events).store.disk, Exec(w, events).history)
    ensures w.history.claims <= Exec(w, events).history.claims
  {
    if events != [] {
      var init, last := events[..|events| - 1], events[|events| - 1];
      RunKeepsInv(w, init);
      StepKeepsInv(last.cfg, Exec(w, init), last.op);
    }
  }

  lemma ReachableInv(w: World)
    requires Reachable(w)
    ensures Inv(w.store.disk, w.history)
  {
    var start, events :| Initial(start) && LegalRun(start, events) && Exec(start, events) == w;
    assert Inv(start.store.disk, start.history);
    RunKeepsInv(start, events);
  }

  lemma ReachableNext(c: Config, w: World, op: Op)
    requires Reachable(w) && Legal(w, op)
    ensures Reachable(Next(c, w, op))
  {
    var start, events :| Initial(start) && LegalRun(start, events) && Exec(start, events) == w;
    var longer := events + [Event(c, op)];
    assert longer[..|longer| - 1] == events;
    assert LegalRun(start, longer) && Exec(start, longer) == Next(c, w, op);
  }

  /** A set of worlds that legal steps never leave and that all satisfy the invariant. */
  ghost predicate Closed(safe: iset<World>) {
    && (forall w {:trigger Inv(w.store.disk, w.history)} :: w in safe ==> Inv(w.store.disk, w.history))
    && (forall c, w, op {:trigger Next(c, w, op)} :: w in safe && Legal(w, op) ==> Next(c, w, op) in safe)
  }

  /** The reachable worlds are such a set. */
  lemma ReachableClosed()
    ensures Closed(iset w | Reachable(w))
  {
    forall w | Reachable(w)
      ensures Inv(w.store.disk, w.history)
    {
      ReachableInv(w);
    }
    forall c, w, op | Reachable(w) && Legal(w, op)
      ensures Reachable(Next(c, w, op))
    {
      ReachableNext(c, w, op);
    }
  }

  // ----- over every run -----

  /** Crash-safe allocation: no run returns one producer's batch sequence twice; later ones are larger. */
  lemma NeverAllocatedTwice(w: World, i: nat, j: nat)
    requires Reachable(w)
    requires i < j < |w.history.claims| && w.history.claims[i].Allocated? && w.history.claims[j].Allocated?
    ensures w.history.claims[i].producer == w.history.claims[j].producer ==>
            w.history.claims[i].sequence < w.history.claims[j].sequence
  {
    ReachableInv(w);
    assert InOrder(w.history.claims[i], w.history.claims[j]);
  }

  /** Live blocks of one producer never overlap, across crashes and restarts. */
  lemma BlocksNeverOverlap(w: World, i: nat, j: nat)
    requires Reachable(w)
    requires i < j < |w.history.claims| && w.history.claims[i].Reserved? && w.history.claims[j].Reserved?
    ensures w.history.claims[i].producer == w.history.claims[j].producer ==>
            w.history.claims[i].last < w.history.claims[j].first
  {
    ReachableInv(w);
    assert InOrder(w.history.claims[i], w.history.claims[j]);
  }

  /** The messages of a producer stay in order: bounds never go back, live sequences strictly increase, and one
      sequence never names two batches, whatever was lost in between. */
  lemma MessagesStayInOrder(w: World, i: nat, j: nat)
    requires Reachable(w)
    requires i < j < |w.history.claims| && w.history.claims[i].Said? && w.history.claims[j].Said?
    requires w.history.claims[i].producer == w.history.claims[j].producer
    ensures MessagesInOrder(w.history.claims[i].message, w.history.claims[j].message)
  {
    ReachableInv(w);
    assert InOrder(w.history.claims[i], w.history.claims[j]);
  }

  /** What is transmitted under a sequence is what Enqueue returned that sequence for, and only after it did. */
  lemma MessageCarriesItsBatch(w: World, i: nat, j: nat)
    requires Reachable(w) && i < |w.history.claims| && j < |w.history.claims| && w.history.claims[i].Allocated?
    requires w.history.claims[j].Said?
    requires w.history.claims[i].producer == w.history.claims[j].producer
    requires w.history.claims[i].sequence == w.history.claims[j].message.batchSequence != 0
    ensures i < j && Canonical(w.history.claims[j].message) == Canonical(w.history.claims[i].request)
  {
    ReachableInv(w);
    BatchBeforeMessage(w.history.claims, i, j);
  }

  lemma BatchBeforeMessage(claims: seq<Claim>, i: nat, j: nat)
    requires ClaimsInOrder(claims) && i < |claims| && j < |claims| && claims[i].Allocated? && claims[j].Said?
    requires claims[i].producer == claims[j].producer && claims[i].sequence == claims[j].message.batchSequence != 0
    ensures i < j && Canonical(claims[j].message) == Canonical(claims[i].request)
  {
    var (a, b) := if i < j then (i, j) else (j, i);
    assert InOrder(claims[a], claims[b]);
  }

  /** Every file the disk holds or could hold after a power loss is one decoding accepts, in the middle
      of a session change as much as anywhere else. */
  lemma SnapshotsStayAcceptable(w: World, f: File)
    requires Reachable(w) && f in w.store.disk.survivors && f.Snapshot?
    ensures Accepts(f.env)
  {
    ReachableInv(w);
  }

  /** Every batch Enqueue ever returned is queued or has a recorded fate, and not both; a batch that was pruned
      fitted in no queue within the limits, and one retired with its session was of another session. */
  lemma LedgerIsExact(w: World, i: nat)
    requires Reachable(w) && i < |w.history.claims| && w.history.claims[i].Allocated?
    ensures var k := Key(w.history.claims[i].producer, w.history.claims[i].sequence);
            && (k in Keys(w.store.disk.visible) <==> k !in w.history.fates)
            && (k in w.history.fates ==>
                  match w.history.fates[k]
                  case PrunedAway(c, e, now) => OutOfLimits(c, e, now, k)
                  case SessionRetired(session) => w.history.claims[i].request.sessionId != session
                  case _ => true)
  {
    ReachableInv(w);
    var k := Key(w.history.claims[i].producer, w.history.claims[i].sequence);
    assert IsBatch(w.history.claims[i], k);
    if k in w.history.fates {
      assert FateOk(k, w.history.fates[k], w.history.claims);
    }
  }

  /** A removal that reached the disk is final: no power loss, restart or later operation brings the
      batch back. */
  lemma SettledRemovalIsFinal(w: World, events: seq<Event>, i: nat)
    requires Reachable(w) && LegalRun(w, events)
    requires w.store.disk.Settled() && w.store.disk.visible.Snapshot?
    requires i < |w.history.claims| && w.history.claims[i].Allocated?
    requires Key(w.history.claims[i].producer, w.history.claims[i].sequence) in w.history.fates
    ensures Key(w.history.claims[i].producer, w.history.claims[i].sequence) !in Keys(Exec(w, events).store.disk.visible)
  {
    ReachableInv(w);
    var claim := Removed(w.history.claims[i].producer, w.history.claims[i].sequence);
    AbsentIsRemoved(w, i);
    ClaimKeepsInv(w.store.disk, w.history, claim);
    var marked := w.(history := w.history.(claims := w.history.claims + [claim]));
    SameRun(w, marked, events);
    RunKeepsInv(marked, events);
    var end := Exec(marked, events);
    assert end.history.claims[|w.history.claims|] == claim;
    if end.store.disk.visible.Snapshot? {
      assert Honours(end.store.disk.visible.env, claim);
    }
  }

  lemma AbsentIsRemoved(w: World, i: nat)
    requires Inv(w.store.disk, w.history) && w.store.disk.visible.Snapshot?
    requires i < |w.history.claims| && w.history.claims[i].Allocated?
    requires Key(w.history.claims[i].producer, w.history.claims[i].sequence) in w.history.fates
    ensures Honours(w.store.disk.visible.env, Removed(w.history.claims[i].producer, w.history.claims[i].sequence))
  {
    var e := w.store.disk.visible.env;
    assert Honours(e, w.history.claims[i]);
    forall x | x in e.entries
      ensures Key(e.producerId, x.Seq()) in Keys(w.store.disk.visible)
    {
    }
  }

  ghost predicate SameIssued(a: seq<Claim>, b: seq<Claim>) {
    forall p, n :: AboveIssued(a, p, n) <==> AboveIssued(b, p, n)
  }

  lemma SameIssuedAppend(a: seq<Claim>, b: seq<Claim>, more: seq<Claim>)
    requires SameIssued(a, b)
    ensures SameIssued(a + more, b + more)
  {
    forall p, n
      ensures AboveIssued(a + more, p, n) <==> AboveIssued(b + more, p, n)
    {
      IssuedSplit(a, more, p, n);
      IssuedSplit(b, more, p, n);
    }
  }

  lemma IssuedSplit(a: seq<Claim>, more: seq<Claim>, p: string, n: int)
    ensures AboveIssued(a + more, p, n) <==> AboveIssued(a, p, n) && AboveIssued(more, p, n)
  {
    if AboveIssued(a + more, p, n) {
      forall i | 0 <= i < |a| && a[i].Said? && a[i].producer == p && a[i].message.liveSignal.Some?
        ensures a[i].message.liveSignal.value.sequence < n
      {
        assert (a + more)[i] == a[i];
      }
      forall i | 0 <= i < |more| && more[i].Said? && more[i].producer == p && more[i].message.liveSignal.Some?
        ensures more[i].message.liveSignal.value.sequence < n
      {
        assert (a + more)[|a| + i] == more[i];
      }
    }
  }

  /** Noting that a batch is gone does not steer the run. */
  lemma {:induction false} SameRun(v: World, w: World, events: seq<Event>)
    requires v.store == w.store && v.history.minted == w.history.minted && LegalRun(v, events)
    requires v.history.claims <= w.history.claims && forall i :: |v.history.claims| <= i < |w.history.claims| ==>
      !w.history.claims[i].Said?
    ensures LegalRun(w, events)
    ensures Exec(v, events).store == Exec(w, events).store
    ensures Exec(v, events).history.minted == Exec(w, events).history.minted
    ensures SameIssued(Exec(v, events).history.claims, Exec(w, events).history.claims)
  {
    if events == [] {
      var more := w.history.claims[|v.history.claims|..];
      assert w.history.claims == v.history.claims + more;
      forall p, n
        ensures AboveIssued(v.history.claims, p, n) <==> AboveIssued(w.history.claims, p, n)
      {
        IssuedSplit(v.history.claims, more, p, n);
      }
    } else {
      var init, last := events[..|events| - 1], events[|events| - 1];
      SameRun(v, w, init);
      var a, b := Exec(v, init), Exec(w, init);
      SameIssuedAppend(a.history.claims, b.history.claims, NewClaims(last.cfg, a.store, last.op));
    }
  }

  // ----- runs go on -----

  /** A process can open a queue where there was none. */
  lemma OpensOnNothing(c: Config, w: World, session: string, producer: string)
    requires Reachable(w) && w.store == Store(Disk(Missing, {Missing}), false, "", false)
    requires session != "" && ValidProducerId(producer) && producer !in w.history.minted
    requires |c.json.envelope(Fresh(session, producer))| <= c.opts.maxBytes
    ensures var op := Open(session, producer, Io(true, Committed), Committed);
            var after := Next(c, w, op);
            && Legal(w, op) && Reachable(after) && after.history.claims == w.history.claims
            && after.store.disk.visible == Snapshot(Fresh(session, producer)) && Serves(after.store, session)
  {
    var op := Open(session, producer, Io(true, Committed), Committed);
    ReachableNext(c, w, op);
    FreshAccepted(session, producer);
  }

  predicate Serves(s: Store, session: string) {
    && s.locked && !s.poisoned && s.session == session && s.disk.Settled()
    && s.disk.visible.Snapshot? && Accepts(s.disk.visible.env) && s.disk.visible.env.sessionId == session
  }

  lemma EnqueueCommits(c: Config, s: Store, request: Request, now: nat, pruneNow: nat)
    requires Serves(s, request.sessionId) && now > 0 && s.disk.visible.env.lastAllocated < MAX_INT64
    requires HasRoom(c, s.disk.visible.env, request, now, pruneNow)
    ensures var step := Enqueue(c, s, request, now, pruneNow, Io(true, Committed));
            && step.result.Ok? && Ready(s, Io(true, Committed)) == Ok(s.disk.visible.env)
            && Serves(step.store, request.sessionId)
            && step.store.disk.visible.env.lastAllocated == s.disk.visible.env.lastAllocated + 1
  {
    EnqueueSucceedsExactly(c, s.disk.visible.env, request, now, pruneNow);
    EnqueueEvolves(c, s.disk.visible.env, request, now, pruneNow);
  }

  lemma EnqueueClaims(c: Config, w: World, op: Op)
    requires op.EnqueueBatch? && Succeeds(c, w.store, op) && Ready(w.store, op.io).value.lastAllocated < MAX_INT64
    ensures var e := Ready(w.store, op.io).value;
            && Next(c, w, op).history.claims == w.history.claims + [Allocated(e.producerId, e.lastAllocated + 1, Stamped(e, op.request))]
            && Next(c, w, op).store == Enqueue(c, w.store, op.request, op.now, op.pruneNow, op.io).store
  {
  }

  /** An open queue with room for a batch allocates the next sequence to it and stays open, so runs of any number
      of allocations exist. */
  lemma AllocatesNext(c: Config, w: World, request: Request, now: nat, pruneNow: nat)
    requires Serves(w.store, request.sessionId) && now > 0 && w.store.disk.visible.env.lastAllocated < MAX_INT64
    requires HasRoom(c, w.store.disk.visible.env, request, now, pruneNow)
    ensures var e, op := w.store.disk.visible.env, EnqueueBatch(request, now, pruneNow, Io(true, Committed));
            var after := Next(c, w, op);
            && Legal(w, op) && Serves(after.store, request.sessionId)
            && after.history.claims == w.history.claims + [Allocated(e.producerId, e.lastAllocated + 1, Stamped(e, request))]
            && after.store.disk.visible.env.lastAllocated == e.lastAllocated + 1
  {
    EnqueueCommits(c, w.store, request, now, pruneNow);
    var op := EnqueueBatch(request, now, pruneNow, Io(true, Committed));
    EnqueueClaims(c, w, op);
  }

  // ----- one operation -----

  /** After an ambiguous write the store refuses everything until the process is replaced. */
  lemma PoisonedRefusesAll(c: Config, s: Store, op: Op)
    requires s.poisoned && !op.Say? && !op.Restart? && !op.PowerLoss?
    ensures !Succeeds(c, s, op)
    ensures StoreAfter(c, s, op).poisoned && StoreAfter(c, s, op).disk == s.disk
  {
  }

  predicate SameProcess(events: seq<Event>) {
    forall i :: 0 <= i < |events| ==> !events[i].op.Restart? && !events[i].op.PowerLoss?
  }

  /** So until then a run changes nothing on disk, and allocates and reserves nothing. */
  lemma {:induction false} PoisonedIsInert(w: World, events: seq<Event>)
    requires w.store.poisoned && LegalRun(w, events) && SameProcess(events)
    ensures var end := Exec(w, events);
            && end.store.poisoned && end.store.disk == w.store.disk && w.history.claims <= end.history.claims
            && forall i :: |w.history.claims| <= i < |end.history.claims| ==>
              !end.history.claims[i].Allocated? && !end.history.claims[i].Reserved?
  {
    if events != [] {
      var init, last := events[..|events| - 1], events[|events| - 1];
      PoisonedIsInert(w, init);
      var before := Exec(w, init);
      if !last.op.Say? {
        PoisonedRefusesAll(last.cfg, before.store, last.op);
      }
    }
  }

  /** An operation that reports anything but success or ambiguity left the disk exactly as it was;
      one that reports success left nothing in doubt. */
  lemma RefusalLeavesDisk(c: Config, s: Store, op: Op)
    requires op.EnqueueBatch? || op.Reserve? || op.Change?
    ensures !Succeeds(c, s, op) && !StoreAfter(c, s, op).poisoned ==> StoreAfter(c, s, op) == s
    ensures Succeeds(c, s, op) ==> StoreAfter(c, s, op).disk.Settled() && !StoreAfter(c, s, op).poisoned && s.locked
  {
    match op
    case EnqueueBatch(request, now, pruneNow, io) => EnqueueRefusal(c, s, request, now, pruneNow, io);
    case Reserve(count, io) => ReserveRefusal(c, s, count, io);
    case Change(mutation, _, io) => MutateRefusal(c, s, mutation, io);
  }

  lemma EnqueueRefusal(c: Config, s: Store, request: Request, now: nat, pruneNow: nat, io: Io)
    ensures var step := Enqueue(c, s, request, now, pruneNow, io);
            && (step.result.Err? && !step.store.poisoned ==> step.store == s)
            && (step.result.Ok? ==> step.store.disk.Settled() && !step.store.poisoned && s.locked)
  {
  }

  lemma ReserveRefusal(c: Config, s: Store, count: int, io: Io)
    ensures var step := ReserveLive(c, s, count, io);
            && (step.result.Err? && !step.store.poisoned ==> step.store == s)
            && (step.result.Ok? ==> step.store.disk.Settled() && !step.store.poisoned && s.locked)
  {
  }

  lemma MutateRefusal(c: Config, s: Store, m: Mutation, io: Io)
    ensures var step := Mutate(c, s, m, io);
            && (step.result.Err? && !step.store.poisoned ==> step.store == s)
            && (step.result.Ok? ==> step.store.disk.Settled() && !step.store.poisoned && s.locked)
  {
  }

  /** A write right after pruning is never refused for its size. */
  lemma PrunedWriteFits(c: Config, s: Store, e: Envelope, now: nat, w: Write)
    requires Accountable(e) && Pruned(c.json, c.opts, e, now).Some?
    ensures WriteEnvelope(c, s, Pruned(c.json, c.opts, e, now).value, w).result != Err(ExceedsCapacity)
  {
    PrunedShape(c.json, c.opts, e, now, Pruned(c.json, c.opts, e, now).value);
  }
}
