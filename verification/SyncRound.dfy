/** What queue operations leave of the queue while the agent serves a session. */
module SyncRound {
  import opened Text
  import opened Envelopes
  import opened Pruning
  import opened FileStores
  import opened QueueRuns

  // ----- what operations leave of the queue -----

  lemma EnqueueLeaves(c: Config, s: Store, e: Envelope, op: Op)
    requires op.EnqueueBatch? && s.disk.visible == Snapshot(e)
    ensures var f := StoreAfter(c, s, op).disk.visible;
            || f == Snapshot(e)
            || (Ready(s, op.io) == Ok(e) && EnqueuePlan(c, e, op.request, op.now, op.pruneNow).Ok?
                && f == Snapshot(EnqueuePlan(c, e, op.request, op.now, op.pruneNow).value))
  {
  }

  lemma EnqueueMovesForward(c: Config, s: Store, e: Envelope, op: Op)
    requires op.EnqueueBatch? && op.now > 0 && s.disk.visible == Snapshot(e)
    ensures var f := StoreAfter(c, s, op).disk.visible; f.Snapshot? && Evolves(e, f.env)
  {
    EnqueueLeaves(c, s, e, op);
    if StoreAfter(c, s, op).disk.visible == Snapshot(e) {
      ThinningEvolves(e, e);
    } else {
      EnqueueEvolves(c, e, op.request, op.now, op.pruneNow);
    }
  }

  lemma ReserveMovesForward(c: Config, s: Store, e: Envelope, op: Op)
    requires op.Reserve? && s.disk.visible == Snapshot(e)
    ensures var f := StoreAfter(c, s, op).disk.visible; f.Snapshot? && Evolves(e, f.env)
  {
    ThinningEvolves(e, e);
    if Ready(s, op.io).Ok? && op.count == LIVE_SEQUENCE_RESERVATION && e.liveReserved <= MAX_INT64 - op.count {
      ReserveEvolves(e, op.count);
    }
  }

  lemma ChangeLeaves(c: Config, s: Store, e: Envelope, op: Op)
    requires op.Change? && s.disk.visible == Snapshot(e)
    ensures var f := StoreAfter(c, s, op).disk.visible;
            || f == Snapshot(e)
            || (Ready(s, op.io) == Ok(e) && Mutated(c, e, op.mutation).Ok? && f == Snapshot(Mutated(c, e, op.mutation).value))
  {
  }

  lemma ChangeMovesForward(c: Config, s: Store, e: Envelope, op: Op)
    requires op.Change? && s.disk.visible == Snapshot(e)
    ensures var f := StoreAfter(c, s, op).disk.visible; f.Snapshot? && Evolves(e, f.env)
  {
    ChangeLeaves(c, s, e, op);
    if StoreAfter(c, s, op).disk.visible == Snapshot(e) {
      ThinningEvolves(e, e);
    } else {
      MutatedEvolves(c, e, op.mutation);
    }
  }

  /** Enqueue, reservations and mutations only ever move an authority forward. */
  lemma OperationEvolves(c: Config, w: World, op: Op)
    requires Legal(w, op) && (op.EnqueueBatch? || op.Reserve? || op.Change?)
    requires w.store.disk.visible.Snapshot?
    ensures var f := StoreAfter(c, w.store, op).disk.visible;
            f.Snapshot? && Evolves(w.store.disk.visible.env, f.env)
  {
    var e := w.store.disk.visible.env;
    match op
    case EnqueueBatch(_, _, _, _) => EnqueueMovesForward(c, w.store, e, op);
    case Reserve(_, _) => ReserveMovesForward(c, w.store, e, op);
    case Change(_, _, _) => ChangeMovesForward(c, w.store, e, op);
  }

  lemma EnqueueHeader(c: Config, e: Envelope, request: Request, now: nat, pruneNow: nat)
    requires Accepts(e) && EnqueuePlan(c, e, request, now, pruneNow).Ok?
    ensures EnqueuePlan(c, e, request, now, pruneNow).value.producerId == e.producerId
    ensures EnqueuePlan(c, e, request, now, pruneNow).value.lastAllocated == e.lastAllocated + 1
  {
    AppendOrdered(e, request, now);
    PrunedShape(c.json, c.opts, Appended(e, request, now), pruneNow, EnqueuePlan(c, e, request, now, pruneNow).value);
  }

  lemma EnqueueWrites(c: Config, s: Store, op: Op) returns (p: Envelope)
    requires op.EnqueueBatch? && Succeeds(c, s, op)
    ensures s.disk.visible.Snapshot? && Accepts(s.disk.visible.env)
    ensures EnqueuePlan(c, s.disk.visible.env, op.request, op.now, op.pruneNow) == Ok(p)
    ensures StoreAfter(c, s, op).disk.visible == Snapshot(p)
    ensures Enqueue(c, s, op.request, op.now, op.pruneNow, op.io).result == Ok(Identity(p.producerId, p.lastAllocated))
  {
    p := EnqueuePlan(c, s.disk.visible.env, op.request, op.now, op.pruneNow).value;
  }

  /** A successful enqueue leaves some newest part of the old queue and the stamped batch behind it. */
  lemma EnqueueQueues(c: Config, s: Store, op: Op)
    requires op.EnqueueBatch? && Succeeds(c, s, op)
    ensures s.disk.visible.Snapshot? && s.disk.visible.env.lastAllocated < MAX_INT64
    ensures var e, f := s.disk.visible.env, StoreAfter(c, s, op).disk.visible;
            && f.Snapshot? && f.env.producerId == e.producerId && 0 < |f.env.entries| <= |e.entries| + 1
            && f.env.entries == e.entries[|e.entries| + 1 - |f.env.entries|..] + [NewEntry(e, op.request, op.now)]
            && Enqueue(c, s, op.request, op.now, op.pruneNow, op.io).result == Ok(Identity(e.producerId, e.lastAllocated + 1))
  {
    var p := EnqueueWrites(c, s, op);
    EnqueueStores(c, s.disk.visible.env, op.request, op.now, op.pruneNow);
    EnqueueHeader(c, s.disk.visible.env, op.request, op.now, op.pruneNow);
  }

  lemma DeleteKeepsOthers(e: Envelope, ids: set<string>, r: Request)
    requires Accepts(e) && Holds(e, r) && Identity(e.producerId, r.batchSequence) !in ids
    ensures Holds(Deleted(e, ids), r)
  {
    WithoutKeeps(e.entries, ids);
    var x :| x in e.entries && x.request == r;
    assert EntryOk(e, x);
    assert x in Deleted(e, ids).entries;
  }

  lemma MarkKeepsRequests(e: Envelope, id: string, r: Request)
    requires MarkFrom(e.entries, id).Some? && Holds(e, r)
    ensures Holds(e.(entries := MarkFrom(e.entries, id).value), r)
  {
    MarkFromKeeps(e.entries, id);
    var x :| x in e.entries && x.request == r;
    var i :| 0 <= i < |e.entries| && e.entries[i] == x;
    assert MarkFrom(e.entries, id).value[i] in MarkFrom(e.entries, id).value;
  }
}
