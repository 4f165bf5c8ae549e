/** Every run of the replay queue: operations, failed and ambiguous writes, process restarts, power
    losses and session changes, with what each run has promised to the outside. */
module QueueRuns {
  import opened Text
  import opened Envelopes
  import opened Pruning
  import opened FileStores
  import opened SyncProtocol

  /** Something the agent has told the outside world, which no later state may contradict. */
  datatype Claim =
    | Allocated(producer: string, sequence: int, request: Request)  // Enqueue returned this batch
    | Reserved(producer: string, first: int, last: int)             // ReserveLiveSequences returned this block
    | Said(producer: string, message: Request)                      // this message was handed to the center
    | Removed(producer: string, sequence: int)                      // this batch is durably gone from the queue

  /** Why an entry left the queue. The first three name the exchange with the center that decided it, counted
      over all exchanges there were; a pruned entry was in the queue `e` at `now`. */
  datatype Fate =
    | Acknowledged(at: nat)
    | Rejected(at: nat)
    | Cleared(at: nat)
    | Stale(authority: Authority, at: nat)
    | PrunedAway(cfg: Config, e: Envelope, now: nat)
    | SessionRetired(session: string)

  datatype Key = Key(producer: string, sequence: int)

  datatype History = History(minted: set<string>, claims: seq<Claim>, fates: map<Key, Fate>)

  datatype World = World(store: Store, history: History)

  function Keys(f: File): set<Key> {
    if f.Snapshot? then set x | x in f.env.entries :: Key(f.env.producerId, x.Seq()) else {}
  }

  /** Entries that disappear get a fate; entries that are in the file have none. */
  function Settle(fates: map<Key, Fate>, before: set<Key>, after: set<Key>, why: Fate): map<Key, Fate> {
    (fates - after) + map k | k in before && k !in after :: why
  }

  // ----- the invariant -----

  /** A claim is honoured by an authority's snapshot. */
  ghost predicate Honours(e: Envelope, c: Claim) {
    e.producerId == c.producer ==>
      match c
      case Allocated(_, n, r) => n <= e.lastAllocated && forall x :: x in e.entries && x.Seq() == n ==> x.request == r
      case Reserved(_, _, last) => last <= e.liveReserved
      case Said(_, m) =>
        && m.allocatedThrough <= e.lastAllocated && m.retiredThrough <= e.retiredFloor
        && (m.liveSignal.Some? ==> m.liveSignal.value.sequence <= e.liveReserved)
        && m.batchSequence <= e.lastAllocated
        && forall x :: x in e.entries && x.Seq() == m.batchSequence ==> Canonical(x.request) == Canonical(m)
      case Removed(_, n) => n <= e.lastAllocated && forall x :: x in e.entries ==> x.Seq() != n
  }

  /** Two messages of one producer: bounds never go back, live sequences strictly increase, and a batch sequence
      always names the same batch. */
  predicate MessagesInOrder(m: Request, n: Request) {
    && m.allocatedThrough <= n.allocatedThrough && m.retiredThrough <= n.retiredThrough
    && (m.liveSignal.Some? && n.liveSignal.Some? ==> m.liveSignal.value.sequence < n.liveSignal.value.sequence)
    && (m.batchSequence == n.batchSequence != 0 ==> Canonical(m) == Canonical(n))
  }

  /** An earlier and a later claim by the same authority. */
  predicate InOrder(a: Claim, b: Claim) {
    a.producer == b.producer ==>
      match (a, b)
      case (Allocated(_, m, _), Allocated(_, n, _)) => m < n
      case (Reserved(_, _, last), Reserved(_, first, _)) => last < first
      case (Said(_, m), Said(_, n)) => MessagesInOrder(m, n)
      case (Allocated(_, n, r), Said(_, m)) => m.batchSequence == n != 0 ==> Canonical(m) == Canonical(r)
      case (Said(_, m), Allocated(_, n, _)) => m.batchSequence < n
      case _ => true
  }

  /** A message about a batch lies within the bounds it advertises. */
  predicate MessageOk(m: Request) {
    m.batchSequence != 0 ==> m.retiredThrough < m.batchSequence <= m.allocatedThrough
  }

  ghost predicate DiskOk(d: Disk, minted: set<string>) {
    && d.visible in d.survivors
    && (forall p :: p in minted ==> ValidProducerId(p))
    && forall f :: f in d.survivors && f.Snapshot? ==> Accepts(f.env) && f.env.producerId in minted
  }

  ghost predicate ClaimsHonoured(d: Disk, claims: seq<Claim>) {
    forall f, i :: f in d.survivors && f.Snapshot? && 0 <= i < |claims| ==> Honours(f.env, claims[i])
  }

  predicate ClaimsInOrder(claims: seq<Claim>) {
    forall i, j :: 0 <= i < j < |claims| ==> InOrder(claims[i], claims[j])
  }

  predicate SaidOk(c: Claim)
    requires c.Said?
  {
    c.producer == c.message.producerId && MessageOk(c.message)
  }

  predicate ClaimsSound(claims: seq<Claim>, minted: set<string>) {
    forall i :: 0 <= i < |claims| ==> claims[i].producer in minted && (claims[i].Said? ==> SaidOk(claims[i]))
  }

  /** No queue that still held the batch met the limits. */
  ghost predicate OutOfLimits(c: Config, e: Envelope, now: nat, k: Key) {
    && Accountable(e)
    && exists i :: 0 <= i < |e.entries| && Key(e.producerId, e.entries[i].Seq()) == k
                   && forall m: nat :: m <= i ==> !Fits(c.json, c.opts, e, now, m)
  }

  predicate IsBatch(c: Claim, k: Key) {
    c.Allocated? && Key(c.producer, c.sequence) == k
  }

  /** Pruning takes only what no limit allows, and a session change only what is of another session. */
  ghost predicate FateOk(k: Key, fate: Fate, claims: seq<Claim>) {
    match fate
    case PrunedAway(c, e, now) => OutOfLimits(c, e, now, k)
    case SessionRetired(session) => forall i :: 0 <= i < |claims| && IsBatch(claims[i], k) ==>
      claims[i].request.sessionId != session
    case _ => true
  }

  ghost predicate FatesOk(claims: seq<Claim>, fates: map<Key, Fate>) {
    forall k :: k in fates ==> FateOk(k, fates[k], claims)
  }

  /** Every batch Enqueue returned is queued or accounted for, in the file and in every file a power
      loss could bring back; and in the current file it is never both. */
  ghost predicate LedgerOk(d: Disk, claims: seq<Claim>, fates: map<Key, Fate>) {
    && (forall f, i :: f in d.survivors && 0 <= i < |claims| && claims[i].Allocated? ==>
          var k := Key(claims[i].producer, claims[i].sequence);
          k in Keys(f) || k in fates)
    && (forall k :: k in Keys(d.visible) ==> k !in fates)
  }

  ghost predicate Inv(d: Disk, h: History) {
    && DiskOk(d, h.minted)
    && ClaimsHonoured(d, h.claims)
    && ClaimsInOrder(h.claims)
    && ClaimsSound(h.claims, h.minted)
    && LedgerOk(d, h.claims, h.fates)
    && FatesOk(h.claims, h.fates)
  }

  // ----- one write -----

  lemma EvolvesHonours(e: Envelope, next: Envelope, c: Claim)
    requires Evolves(e, next) && Honours(e, c)
    ensures Honours(next, c)
  {
    if next.producerId == c.producer && (c.Allocated? || c.Said?) {
      forall x | x in next.entries && x.Seq() <= e.lastAllocated
        ensures exists y :: y in e.entries && y.request == x.request && y.Seq() == x.Seq()
      {
        var y :| y in e.entries && y.request == x.request;
      }
    }
    if c.Removed? && next.producerId == c.producer {
      forall x | x in next.entries
        ensures x.Seq() != c.sequence
      {
        if x.Seq() <= e.lastAllocated {
          var y :| y in e.entries && y.request == x.request;
          assert y.Seq() == x.Seq();
        }
      }
    }
  }

  /** A snapshot that may replace the visible file: a later state of its authority, or a brand new
      authority once nothing is queued. */
  ghost predicate MayReplace(f: File, next: Envelope, claims: seq<Claim>) {
    || (f.Snapshot? && Evolves(f.env, next))
    || (next.entries == [] && Keys(f) == {} && forall i :: 0 <= i < |claims| ==> claims[i].producer != next.producerId)
  }

  lemma ReplacementHonours(d: Disk, h: History, next: Envelope, i: nat)
    requires Inv(d, h) && MayReplace(d.visible, next, h.claims) && i < |h.claims|
    ensures Honours(next, h.claims[i])
  {
    if d.visible.Snapshot? && Evolves(d.visible.env, next) {
      EvolvesHonours(d.visible.env, next, h.claims[i]);
    }
  }

  /** A batch already returned that the replacement still holds was held before. */
  lemma ReplacementAddsNothingOld(d: Disk, h: History, next: Envelope, i: nat)
    requires Inv(d, h) && MayReplace(d.visible, next, h.claims)
    requires i < |h.claims| && h.claims[i].Allocated?
    requires Key(h.claims[i].producer, h.claims[i].sequence) in Keys(Snapshot(next))
    ensures Key(h.claims[i].producer, h.claims[i].sequence) in Keys(d.visible)
  {
    var x :| x in next.entries && Key(next.producerId, x.Seq()) == Key(h.claims[i].producer, h.claims[i].sequence);
    var e := d.visible.env;
    assert Honours(e, h.claims[i]);
    assert Holds(e, x.request);
    var y :| y in e.entries && y.request == x.request;
    assert Key(e.producerId, y.Seq()) in Keys(d.visible);
  }

  function DiskAfter(d: Disk, next: Envelope, w: Write): Disk {
    match w
    case FailedBeforeRename => d
    case Committed => Disk(Snapshot(next), {Snapshot(next)})
    case Ambiguous => Disk(Snapshot(next), d.survivors + {Snapshot(next)})
  }

  /** The reason given is right for every entry the replacement drops. */
  ghost predicate RightReason(f: File, next: Envelope, why: Fate, claims: seq<Claim>) {
    forall k :: k in Keys(f) && k !in Keys(Snapshot(next)) ==> FateOk(k, why, claims)
  }

  lemma LedgerAfterWrite(d: Disk, h: History, next: Envelope, w: Write, why: Fate)
    requires Inv(d, h) && MayReplace(d.visible, next, h.claims) && w != FailedBeforeRename
    ensures LedgerOk(DiskAfter(d, next, w), h.claims, Settle(h.fates, Keys(d.visible), Keys(Snapshot(next)), why))
  {
    var d' := DiskAfter(d, next, w);
    var fates := Settle(h.fates, Keys(d.visible), Keys(d'.visible), why);
    forall f, i | f in d'.survivors && 0 <= i < |h.claims| && h.claims[i].Allocated?
      ensures Key(h.claims[i].producer, h.claims[i].sequence) in Keys(f)
           || Key(h.claims[i].producer, h.claims[i].sequence) in fates
    {
      var k := Key(h.claims[i].producer, h.claims[i].sequence);
      assert k in Keys(d.visible) || k in h.fates;
      if k in Keys(d'.visible) {
        ReplacementAddsNothingOld(d, h, next, i);
        assert k !in h.fates;
        assert f in d.survivors ==> k in Keys(f);
      }
    }
  }

  /** One write, however it ends, keeps the invariant. */
  lemma WriteKeepsInv(d: Disk, h: History, next: Envelope, w: Write, why: Fate)
    requires Inv(d, h) && Accepts(next) && next.producerId in h.minted
    requires MayReplace(d.visible, next, h.claims) && RightReason(d.visible, next, why, h.claims)
    ensures var d' := DiskAfter(d, next, w);
            Inv(d', h.(fates := Settle(h.fates, Keys(d.visible), Keys(d'.visible), why)))
  {
    if w == FailedBeforeRename {
      var fates := Settle(h.fates, Keys(d.visible), Keys(d.visible), why);
      assert fates == h.fates;
    } else {
      LedgerAfterWrite(d, h, next, w, why);
      forall i | 0 <= i < |h.claims|
        ensures Honours(next, h.claims[i])
      {
        ReplacementHonours(d, h, next, i);
      }
    }
  }

  /** A new claim may be made once the disk is settled and honours it. */
  lemma ClaimKeepsInv(d: Disk, h: History, c: Claim)
    requires Inv(d, h) && d.Settled() && d.visible.Snapshot? && c.producer in h.minted
    requires Honours(d.visible.env, c)
    requires forall i :: 0 <= i < |h.claims| ==> InOrder(h.claims[i], c)
    requires c.Said? ==> SaidOk(c)
    requires c.Allocated? ==> Key(c.producer, c.sequence) in Keys(d.visible)
    ensures Inv(d, h.(claims := h.claims + [c]))
  {
    var claims := h.claims + [c];
    forall i, j | 0 <= i < j < |claims|
      ensures InOrder(claims[i], claims[j])
    {
    }
    forall k | k in h.fates
      ensures FateOk(k, h.fates[k], claims)
    {
      assert c.Allocated? ==> !IsBatch(c, k);
    }
  }

  lemma PowerLossKeepsInv(d: Disk, h: History, f: File)
    requires Inv(d, h) && f in d.survivors
    ensures Inv(Disk(f, {f}), h.(fates := h.fates - Keys(f)))
  {
  }

  // ----- operations as steps of a run -----

  datatype Op =
    | Open(session: string, producer: string, io: Io, second: Write)
    | Shut
    | EnqueueBatch(request: Request, now: nat, pruneNow: nat, io: Io)
    | Reserve(count: int, io: Io)
    | Change(mutation: Mutation, why: Fate, io: Io)
    | Say(message: Request)  // the runtime hands this message to the center
    | Restart
    | PowerLoss(file: File)

  function StoreAfter(c: Config, s: Store, op: Op): Store {
    match op
    case Open(session, producer, io, second) => OpenSession(c, s, session, producer, io, second).store
    case Shut => Close(s).store
    case EnqueueBatch(request, now, pruneNow, io) => Enqueue(c, s, request, now, pruneNow, io).store
    case Reserve(count, io) => ReserveLive(c, s, count, io).store
    case Change(mutation, _, io) => Mutate(c, s, mutation, io).store
    case Say(_) => s
    case Restart => Store(s.disk, false, "", false)
    case PowerLoss(file) => Store(Disk(file, {file}), false, "", false)
  }

  /** Whether the operation reported success to its caller. */
  predicate Succeeds(c: Config, s: Store, op: Op) {
    match op
    case Open(session, producer, io, second) => OpenSession(c, s, session, producer, io, second).result.Ok?
    case Shut => Close(s).result.Ok?
    case EnqueueBatch(request, now, pruneNow, io) => Enqueue(c, s, request, now, pruneNow, io).result.Ok?
    case Reserve(count, io) => ReserveLive(c, s, count, io).result.Ok?
    case Change(mutation, _, io) => Mutate(c, s, mutation, io).result.Ok?
    case Say(_) => true
    case Restart => true
    case PowerLoss(_) => true
  }

  /** What the center or the authority can ask for; the queue itself prunes and retires. */
  predicate Asked(why: Fate) {
    why.Acknowledged? || why.Rejected? || why.Cleared? || why.Stale?
  }

  const NOTHING := Envelope(ENVELOPE_VERSION, "", "", 0, 0, 0, [])

  /** The queue the limits are applied to. */
  function PruneInput(s: Store, op: Op): Envelope {
    if !s.disk.visible.Snapshot? then NOTHING
    else if op.EnqueueBatch? && s.disk.visible.env.lastAllocated < MAX_INT64 then Appended(s.disk.visible.env, op.request, op.now)
    else s.disk.visible.env
  }

  /** Why the entries this operation removes are removed. */
  function Why(c: Config, s: Store, op: Op): Fate {
    match op
    case Open(session, _, _, _) => SessionRetired(session)
    case EnqueueBatch(_, _, pruneNow, _) => PrunedAway(c, PruneInput(s, op), pruneNow)
    case Change(Prune(now), _, _) => PrunedAway(c, PruneInput(s, op), now)
    case Change(_, why, _) => why
    case _ => SessionRetired("")
  }

  /** What a successful operation promises. */
  function NewClaims(c: Config, s: Store, op: Op): seq<Claim> {
    if !Succeeds(c, s, op) then []
    else
      match op
      case EnqueueBatch(request, now, pruneNow, io) =>
        var e := Ready(s, io).value;
        if e.lastAllocated < MAX_INT64 then [Allocated(e.producerId, e.lastAllocated + 1, Stamped(e, request))] else []
      case Reserve(count, io) =>
        var e := Ready(s, io).value;
        [Reserved(e.producerId, e.liveReserved + 1, e.liveReserved + count)]
      case Say(m) => [Said(m.producerId, m)]
      case _ => []
  }

  function Next(c: Config, w: World, op: Op): World {
    var store := StoreAfter(c, w.store, op);
    var h := w.history;
    World(store,
          History(
            if op.Open? then h.minted + {op.producer} else h.minted,
            h.claims + NewClaims(c, w.store, op),
            if op.PowerLoss? then h.fates - Keys(op.file)
            else Settle(h.fates, Keys(w.store.disk.visible), Keys(store.disk.visible), Why(c, w.store, op))))
  }

  /** Every live sequence the producer has attached to a message is below n. */
  ghost predicate AboveIssued(claims: seq<Claim>, producer: string, n: int) {
    forall i :: 0 <= i < |claims| && claims[i].Said? && claims[i].producer == producer && claims[i].message.liveSignal.Some? ==>
      claims[i].message.liveSignal.value.sequence < n
  }

  /** The queue holds the batch the message is about. */
  ghost predicate Backs(e: Envelope, m: Request) {
    exists x :: x in e.entries && x.Seq() == m.batchSequence && Canonical(x.request) == Canonical(m)
  }

  /** A message may go out only while the disk is settled, and only with what the stored authority backs: its own
      bounds, an unused live sequence it has reserved, and a batch it holds. */
  ghost predicate MaySay(d: Disk, claims: seq<Claim>, m: Request) {
    && d.Settled() && d.visible.Snapshot?
    && var e := d.visible.env;
    && m.producerId == e.producerId && m.allocatedThrough == e.lastAllocated && m.retiredThrough == e.retiredFloor
    && (m.liveSignal.Some? ==>
          m.liveSignal.value.sequence <= e.liveReserved && AboveIssued(claims, e.producerId, m.liveSignal.value.sequence))
    && (m.batchSequence == 0 || Backs(e, m))
  }

  /** What the environment guarantees: UUIDs are new, the clock is past year one, and a power loss
      leaves one of the files the disk could still hold; and what the runtime owes before it speaks. */
  ghost predicate Legal(w: World, op: Op) {
    match op
    case Say(m) => MaySay(w.store.disk, w.history.claims, m)
    case Open(_, producer, _, _) => ValidProducerId(producer) && producer !in w.history.minted
    case EnqueueBatch(_, now, _, _) => now > 0
    case Change(_, why, _) => Asked(why)
    case PowerLoss(file) => file in w.store.disk.survivors
    case _ => true
  }

  lemma StoreWriteKeepsInv(c: Config, s: Store, h: History, next: Envelope, w: Write, why: Fate)
    requires Inv(s.disk, h) && Accepts(next) && next.producerId in h.minted
    requires MayReplace(s.disk.visible, next, h.claims) && RightReason(s.disk.visible, next, why, h.claims)
    ensures var s' := WriteEnvelope(c, s, next, w).store;
            Inv(s'.disk, h.(fates := Settle(h.fates, Keys(s.disk.visible), Keys(s'.disk.visible), why)))
  {
    WriteKeepsInv(s.disk, h, next, if |c.json.envelope(next)| > c.opts.maxBytes then FailedBeforeRename else w, why);
  }

  lemma NoChangeSettles(d: Disk, h: History, why: Fate)
    requires Inv(d, h)
    ensures Settle(h.fates, Keys(d.visible), Keys(d.visible), why) == h.fates
  {
  }

  lemma FreshAccepted(session: string, producer: string)
    requires session != "" && ValidProducerId(producer)
    ensures Accepts(Fresh(session, producer))
  {
  }

  lemma RetiredEvolves(e: Envelope)
    requires Accepts(e)
    ensures Accepts(Retired(e)) && Evolves(e, Retired(e)) && Keys(Snapshot(Retired(e))) == {}
  {
  }

  lemma BootstrapKeepsInv(c: Config, s: Store, h: History, session: string, producer: string, w: Write)
    requires Inv(s.disk, h) && Keys(s.disk.visible) == {}
    requires session != "" && producer in h.minted && forall i :: 0 <= i < |h.claims| ==>
      h.claims[i].producer != producer
    ensures var s' := Bootstrap(c, s, session, producer, w).store;
            Inv(s'.disk, h) && Keys(s'.disk.visible) == {}
  {
    FreshAccepted(session, producer);
    var next := Fresh(session, producer);
    StoreWriteKeepsInv(c, s, h, next, w, SessionRetired(session));
    assert Keys(Snapshot(next)) == {};
    assert Settle(h.fates, {}, {}, SessionRetired(session)) == h.fates;
  }

  lemma MintKeepsInv(d: Disk, h: History, producer: string)
    requires Inv(d, h) && ValidProducerId(producer)
    ensures Inv(d, h.(minted := h.minted + {producer}))
  {
  }

  /** What a session change retires is of another session. */
  lemma OtherSession(d: Disk, h: History, e: Envelope, session: string)
    requires Inv(d, h) && d.visible == Snapshot(e) && e.sessionId != session
    ensures RightReason(d.visible, Retired(e), SessionRetired(session), h.claims)
  {
    forall k, i | k in Keys(d.visible) && 0 <= i < |h.claims| && IsBatch(h.claims[i], k)
      ensures h.claims[i].request.sessionId != session
    {
      var x :| x in e.entries && Key(e.producerId, x.Seq()) == k;
      assert Honours(e, h.claims[i]) && EntryOk(e, x);
    }
  }

  lemma ReplaceAuthorityKeepsInv(c: Config, s: Store, h: History, session: string, producer: string, first: Write,
                                 second: Write)
    requires Inv(s.disk, h) && s.disk.visible.Snapshot? && Accepts(s.disk.visible.env)
    requires s.disk.visible.env.sessionId != session
    requires session != "" && producer in h.minted && forall i :: 0 <= i < |h.claims| ==>
      h.claims[i].producer != producer
    ensures var retire := WriteEnvelope(c, s, Retired(s.disk.visible.env), first);
            var s' := if retire.result.Err? then retire.store else Bootstrap(c, retire.store, session, producer, second).store;
            Inv(s'.disk, h.(fates := Settle(h.fates, Keys(s.disk.visible), Keys(s'.disk.visible), SessionRetired(session))))
  {
    var e := s.disk.visible.env;
    RetiredEvolves(e);
    OtherSession(s.disk, h, e, session);
    StoreWriteKeepsInv(c, s, h, Retired(e), first, SessionRetired(session));
    var retire := WriteEnvelope(c, s, Retired(e), first);
    if retire.result.Ok? {
      BootstrapKeepsInv(c, retire.store, h.(fates := Settle(h.fates, Keys(s.disk.visible), {}, SessionRetired(session))), session, producer, second);
    }
  }

  /** Whether OpenSession gets as far as looking at the file. */
  predicate Opens(s: Store, op: Op)
    requires op.Open?
  {
    !s.poisoned && op.io.reachable && op.session != "" && !s.locked
  }

  lemma OpenEmptyKeepsInv(c: Config, s: Store, h: History, op: Op)
    requires op.Open? && Opens(s, op) && Inv(s.disk, h) && !s.disk.visible.Snapshot? && op.producer in h.minted
    requires forall i :: 0 <= i < |h.claims| ==> h.claims[i].producer != op.producer
    ensures Inv(StoreAfter(c, s, op).disk, h) && Keys(StoreAfter(c, s, op).disk.visible) == {}
  {
    BootstrapKeepsInv(c, s.(locked := true, session := ""), h, op.session, op.producer, op.io.write);
  }

  lemma OpenSnapshotKeepsInv(c: Config, s: Store, h: History, op: Op)
    requires op.Open? && Opens(s, op) && Inv(s.disk, h) && s.disk.visible.Snapshot? && op.producer in h.minted
    requires forall i :: 0 <= i < |h.claims| ==> h.claims[i].producer != op.producer
    ensures var d' := StoreAfter(c, s, op).disk;
            Inv(d', h.(fates := Settle(h.fates, Keys(s.disk.visible), Keys(d'.visible), SessionRetired(op.session))))
  {
    if s.disk.visible.env.sessionId == op.session {
      NoChangeSettles(s.disk, h, SessionRetired(op.session));
    } else {
      ReplaceAuthorityKeepsInv(c, s.(locked := true, session := ""), h, op.session, op.producer, op.io.write,
                               op.second);
    }
  }

  lemma OpenKeepsInv(c: Config, w: World, op: Op)
    requires op.Open? && Inv(w.store.disk, w.history) && Legal(w, op)
    ensures Inv(Next(c, w, op).store.disk, Next(c, w, op).history)
  {
    var s, h := w.store, w.history.(minted := w.history.minted + {op.producer});
    MintKeepsInv(s.disk, w.history, op.producer);
    if !Opens(s, op) {
      NoChangeSettles(s.disk, h, SessionRetired(op.session));
    } else if s.disk.visible.Snapshot? {
      OpenSnapshotKeepsInv(c, s, h, op);
    } else {
      OpenEmptyKeepsInv(c, s, h, op);
      assert Settle(h.fates, {}, {}, SessionRetired(op.session)) == h.fates;
    }
  }

  lemma SuffixKeys(e: Envelope, cut: nat)
    requires Accountable(e) && cut <= |e.entries|
    ensures forall j :: cut <= j < |e.entries| ==>
      Key(e.producerId, e.entries[j].Seq()) in Keys(Snapshot(Suffix(e, cut)))
  {
    forall j | cut <= j < |e.entries|
      ensures Key(e.producerId, e.entries[j].Seq()) in Keys(Snapshot(Suffix(e, cut)))
    {
      assert Suffix(e, cut).entries[j - cut] == e.entries[j];
    }
  }

  /** What pruning drops, no limit allowed to stay. */
  lemma PrunedOut(c: Config, e: Envelope, now: nat, p: Envelope, k: Key)
    requires Accountable(e) && Pruned(c.json, c.opts, e, now) == Some(p)
    requires k in Keys(Snapshot(e)) && k !in Keys(Snapshot(p))
    ensures OutOfLimits(c, e, now, k)
  {
    PrunedIsLongest(c.json, c.opts, e, now, Some(p));
    var cut: nat :| LeastCut(c.json, c.opts, e, now, cut) && p == Suffix(e, cut);
    var x :| x in e.entries && Key(e.producerId, x.Seq()) == k;
    var i :| 0 <= i < |e.entries| && e.entries[i] == x;
    SuffixKeys(e, cut);
  }

  lemma PrunedForReason(c: Config, f: File, e: Envelope, now: nat, p: Envelope, claims: seq<Claim>)
    requires Accountable(e) && Pruned(c.json, c.opts, e, now) == Some(p) && Keys(f) <= Keys(Snapshot(e))
    ensures RightReason(f, p, PrunedAway(c, e, now), claims)
  {
    forall k | k in Keys(f) && k !in Keys(Snapshot(p))
      ensures OutOfLimits(c, e, now, k)
    {
      PrunedOut(c, e, now, p, k);
    }
  }

  lemma AppendedKeys(e: Envelope, request: Request, now: nat)
    requires e.lastAllocated < MAX_INT64
    ensures Keys(Snapshot(e)) <= Keys(Snapshot(Appended(e, request, now)))
  {
    forall k | k in Keys(Snapshot(e))
      ensures k in Keys(Snapshot(Appended(e, request, now)))
    {
      var x :| x in e.entries && Key(e.producerId, x.Seq()) == k;
      assert x in Appended(e, request, now).entries;
    }
  }

  lemma EnqueueKeepsInv(c: Config, w: World, op: Op)
    requires op.EnqueueBatch? && Inv(w.store.disk, w.history) && Legal(w, op)
    ensures Inv(Next(c, w, op).store.disk, Next(c, w, op).history)
  {
    var ready := Ready(w.store, op.io);
    if ready.Ok? && EnqueuePlan(c, ready.value, op.request, op.now, op.pruneNow).Ok? {
      var e := ready.value;
      var p := EnqueuePlan(c, e, op.request, op.now, op.pruneNow).value;
      EnqueueEvolves(c, e, op.request, op.now, op.pruneNow);
      EnqueueStores(c, e, op.request, op.now, op.pruneNow);
      AppendOrdered(e, op.request, op.now);
      AppendedKeys(e, op.request, op.now);
      PrunedForReason(c, Snapshot(e), Appended(e, op.request, op.now), op.pruneNow, p, w.history.claims);
      PlannedWriteKeepsInv(c, w, op, e, p);
    } else {
      NoChangeSettles(w.store.disk, w.history, Why(c, w.store, op));
    }
  }

  /** An enqueue past its plan is one write, and a claim on success. */
  lemma PlannedNext(c: Config, w: World, op: Op, e: Envelope, p: Envelope)
    requires op.EnqueueBatch? && Ready(w.store, op.io) == Ok(e)
    requires EnqueuePlan(c, e, op.request, op.now, op.pruneNow) == Ok(p)
    requires |p.entries| > 0 && p.entries[|p.entries| - 1].Seq() == e.lastAllocated + 1
    ensures var step, after := WriteEnvelope(c, w.store, p, op.io.write), Next(c, w, op);
            && after.store.disk == step.store.disk && after.history.minted == w.history.minted
            && after.history.claims ==
               w.history.claims + (if step.result.Ok? then [Allocated(e.producerId, e.lastAllocated + 1, Stamped(e, op.request))] else [])
            && after.history.fates == Settle(w.history.fates, Keys(w.store.disk.visible), Keys(step.store.disk.visible),
                                             PrunedAway(c, Appended(e, op.request, op.now), op.pruneNow))
  {
  }

  lemma PlannedWriteKeepsInv(c: Config, w: World, op: Op, e: Envelope, p: Envelope)
    requires op.EnqueueBatch? && Inv(w.store.disk, w.history)
    requires Ready(w.store, op.io) == Ok(e) && EnqueuePlan(c, e, op.request, op.now, op.pruneNow) == Ok(p)
    requires Accepts(p) && Evolves(e, p) && p.lastAllocated == e.lastAllocated + 1
    requires |p.entries| > 0 && p.entries[|p.entries| - 1] == NewEntry(e, op.request, op.now)
    requires RightReason(Snapshot(e), p, PrunedAway(c, Appended(e, op.request, op.now), op.pruneNow), w.history.claims)
    ensures Inv(Next(c, w, op).store.disk, Next(c, w, op).history)
  {
    var newest := p.entries[|p.entries| - 1];
    assert newest in p.entries;
    var claim := Allocated(e.producerId, e.lastAllocated + 1, Stamped(e, op.request));
    PlannedNext(c, w, op, e, p);
    OnlyRequest(p, newest);
    WriteAndClaim(c, w.store, w.history, e, p, op.io.write, PrunedAway(c, Appended(e, op.request, op.now), op.pruneNow),
                  claim);
  }

  /** Every earlier claim of the authority precedes one about a sequence past its counters. */
  lemma ClaimsPrecede(d: Disk, h: History, e: Envelope, c: Claim)
    requires Inv(d, h) && d.visible == Snapshot(e) && PastCounters(e, c)
    ensures forall i :: 0 <= i < |h.claims| ==> InOrder(h.claims[i], c)
  {
    forall i | 0 <= i < |h.claims|
      ensures InOrder(h.claims[i], c)
    {
      assert Honours(e, h.claims[i]);
    }
  }

  predicate PastCounters(e: Envelope, c: Claim) {
    && c.producer == e.producerId
    && match c
       case Allocated(_, n, _) => n > e.lastAllocated
       case Reserved(_, first, _) => first > e.liveReserved
       case _ => false
  }

  /** The later state grants what is claimed. */
  ghost predicate Grants(next: Envelope, c: Claim) {
    && c.producer == next.producerId
    && match c
       case Allocated(_, n, r) =>
         n <= next.lastAllocated && (exists x :: x in next.entries && x.Seq() == n) && forall x ::
           x in next.entries && x.Seq() == n ==> x.request == r
       case Reserved(_, _, last) => last <= next.liveReserved
       case _ => false
  }

  /** A committed write past the old counters lets its result be claimed. */
  lemma ClaimAfterCommit(d: Disk, h: History, e: Envelope, next: Envelope, fates: map<Key, Fate>, c: Claim)
    requires Inv(d, h) && d.visible == Snapshot(e) && PastCounters(e, c) && Grants(next, c)
    requires Inv(Disk(Snapshot(next), {Snapshot(next)}), h.(fates := fates))
    ensures Inv(Disk(Snapshot(next), {Snapshot(next)}), History(h.minted, h.claims + [c], fates))
  {
    ClaimsPrecede(d, h, e, c);
    ClaimKeepsInv(Disk(Snapshot(next), {Snapshot(next)}), h.(fates := fates), c);
  }

  /** Write a later state of the authority, and claim its result if the write commits. */
  lemma WriteAndClaim(c: Config, s: Store, h: History, e: Envelope, next: Envelope, w: Write, why: Fate, claim: Claim)
    requires Inv(s.disk, h) && s.disk.visible == Snapshot(e)
    requires Accepts(next) && Evolves(e, next) && PastCounters(e, claim) && Grants(next, claim)
    requires RightReason(Snapshot(e), next, why, h.claims)
    ensures var step := WriteEnvelope(c, s, next, w);
            Inv(step.store.disk,
                History(h.minted,
                        h.claims + if step.result.Ok? then [claim] else [],
                        Settle(h.fates, Keys(s.disk.visible), Keys(step.store.disk.visible), why)))
  {
    StoreWriteKeepsInv(c, s, h, next, w, why);
    var step := WriteEnvelope(c, s, next, w);
    if step.result.Ok? {
      ClaimAfterCommit(s.disk, h, e, next, Settle(h.fates, Keys(s.disk.visible), Keys(Snapshot(next)), why), claim);
    } else {
      assert h.claims + [] == h.claims;
    }
  }

  lemma ReserveKeepsInv(c: Config, w: World, op: Op)
    requires op.Reserve? && Inv(w.store.disk, w.history)
    ensures Inv(Next(c, w, op).store.disk, Next(c, w, op).history)
  {
    var ready := Ready(w.store, op.io);
    if ready.Ok? && op.count == LIVE_SEQUENCE_RESERVATION && ready.value.liveReserved <= MAX_INT64 - op.count {
      ReserveEvolves(ready.value, op.count);
      ReservedWriteKeepsInv(c, w, op, ready.value, ready.value.(liveReserved := ready.value.liveReserved + op.count));
    } else {
      NoChangeSettles(w.store.disk, w.history, Why(c, w.store, op));
    }
  }

  lemma ReservedWriteKeepsInv(c: Config, w: World, op: Op, e: Envelope, next: Envelope)
    requires op.Reserve? && op.count == LIVE_SEQUENCE_RESERVATION && Inv(w.store.disk, w.history)
    requires Ready(w.store, op.io) == Ok(e) && e.liveReserved <= MAX_INT64 - op.count
    requires next == e.(liveReserved := e.liveReserved + op.count) && Accepts(next) && Evolves(e, next)
    ensures Inv(Next(c, w, op).store.disk, Next(c, w, op).history)
  {
    var claim := Reserved(e.producerId, e.liveReserved + 1, next.liveReserved);
    assert Keys(Snapshot(e)) == Keys(Snapshot(next));
    WriteAndClaim(c, w.store, w.history, e, next, op.io.write, SessionRetired(""), claim);
    ReserveNext(c, w, op, e, next);
  }

  lemma ReserveNext(c: Config, w: World, op: Op, e: Envelope, next: Envelope)
    requires op.Reserve? && op.count == LIVE_SEQUENCE_RESERVATION
    requires Ready(w.store, op.io) == Ok(e) && e.liveReserved <= MAX_INT64 - op.count
    requires next == e.(liveReserved := e.liveReserved + op.count)
    ensures var step, after := WriteEnvelope(c, w.store, next, op.io.write), Next(c, w, op);
            && after.store.disk == step.store.disk && after.history.minted == w.history.minted
            && after.history.claims == w.history.claims + (if step.result.Ok? then [Reserved(e.producerId, e.liveReserved + 1, next.liveReserved)] else [])
            && after.history.fates == Settle(w.history.fates, Keys(w.store.disk.visible), Keys(step.store.disk.visible),
                                             SessionRetired(""))
  {
  }

  lemma ReserveEvolves(e: Envelope, count: int)
    requires Accepts(e) && 0 <= count && e.liveReserved + count <= MAX_INT64
    ensures Accepts(e.(liveReserved := e.liveReserved + count))
    ensures Evolves(e, e.(liveReserved := e.liveReserved + count))
  {
    var next := e.(liveReserved := e.liveReserved + count);
    forall i | 0 <= i < |next.entries|
      ensures EntryOk(next, next.entries[i])
    {
      assert EntryOk(e, e.entries[i]);
    }
    ThinningEvolves(e, next);
  }

  lemma ChangeKeepsInv(c: Config, w: World, op: Op)
    requires op.Change? && Inv(w.store.disk, w.history) && Asked(op.why)
    ensures Inv(Next(c, w, op).store.disk, Next(c, w, op).history)
  {
    var s, h, why := w.store, w.history, Why(c, w.store, op);
    NoChangeSettles(s.disk, h, why);
    var ready := Ready(s, op.io);
    if ready.Ok? && Mutated(c, ready.value, op.mutation).Ok? {
      var e, next := ready.value, Mutated(c, ready.value, op.mutation).value;
      MutatedEvolves(c, e, op.mutation);
      if op.mutation.Prune? {
        PrunedForReason(c, Snapshot(e), e, op.mutation.now, next, h.claims);
      }
      StoreWriteKeepsInv(c, s, h, next, op.io.write, why);
    }
  }

  /** An accepted queue holds at most one request per sequence. */
  lemma OnlyRequest(e: Envelope, x: Entry)
    requires Accepts(e) && x in e.entries
    ensures forall y :: y in e.entries && y.Seq() == x.Seq() ==> y == x
  {
    var i :| 0 <= i < |e.entries| && e.entries[i] == x;
    forall y | y in e.entries && y.Seq() == x.Seq()
      ensures y == x
    {
      var j :| 0 <= j < |e.entries| && e.entries[j] == y;
      assert !(i < j) && !(j < i);
    }
  }

  /** A message the queue backs lies within its bounds and about the only batch with its sequence. */
  lemma BackedMessage(e: Envelope, m: Request)
    requires Accepts(e) && m.allocatedThrough == e.lastAllocated && m.retiredThrough == e.retiredFloor
    requires m.batchSequence == 0 || Backs(e, m)
    ensures MessageOk(m) && m.batchSequence <= e.lastAllocated
    ensures forall x :: x in e.entries && x.Seq() == m.batchSequence ==> Canonical(x.request) == Canonical(m)
  {
    forall x | x in e.entries
      ensures 0 < x.Seq() <= e.lastAllocated && e.retiredFloor < x.Seq()
    {
      assert EntryOk(e, x);
    }
    if m.batchSequence != 0 {
      var x :| x in e.entries && x.Seq() == m.batchSequence && Canonical(x.request) == Canonical(m);
      OnlyRequest(e, x);
    }
  }

  lemma SayKeepsInv(d: Disk, h: History, m: Request)
    requires Inv(d, h) && MaySay(d, h.claims, m)
    ensures Inv(d, h.(claims := h.claims + [Said(m.producerId, m)]))
  {
    var e, claim := d.visible.env, Said(m.producerId, m);
    BackedMessage(e, m);
    forall i | 0 <= i < |h.claims|
      ensures InOrder(h.claims[i], claim)
    {
      assert Honours(e, h.claims[i]);
      if m.batchSequence != 0 && h.claims[i].producer == e.producerId {
        var x :| x in e.entries && x.Seq() == m.batchSequence && Canonical(x.request) == Canonical(m);
      }
    }
    ClaimKeepsInv(d, h, claim);
  }

  /** Every step of every run keeps the invariant. */
  lemma StepKeepsInv(c: Config, w: World, op: Op)
    requires Inv(w.store.disk, w.history) && Legal(w, op)
    ensures Inv(Next(c, w, op).store.disk, Next(c, w, op).history)
  {
    match op
    case Open(_, _, _, _) => OpenKeepsInv(c, w, op);
    case EnqueueBatch(_, _, _, _) => EnqueueKeepsInv(c, w, op);
    case Reserve(_, _) => ReserveKeepsInv(c, w, op);
    case Change(_, _, _) => ChangeKeepsInv(c, w, op);
    case Say(m) =>
      NoChangeSettles(w.store.disk, w.history, Why(c, w.store, op));
      SayKeepsInv(w.store.disk, w.history, m);
    case PowerLoss(f) => PowerLossKeepsInv(w.store.disk, w.history, f);
    case Shut => NoChangeSettles(w.store.disk, w.history, Why(c, w.store, op));
    case Restart => NoChangeSettles(w.store.disk, w.history, Why(c, w.store, op));
  }
}
