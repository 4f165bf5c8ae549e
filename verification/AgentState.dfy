/** What the agent's sync loop relies on between queue operations, and what each of them does to it. */
module AgentState {
  import opened Text
  import opened Envelopes
  import opened Pruning
  import opened FileStores
  import opened SyncProtocol
  import opened QueueRuns
  import opened QueueTheorems
  import opened SyncRound
  import opened AgentLog
  import opened AgentItems

  datatype Failure = Queue(error: Error) | Local | Policy(action: Action)

  datatype Result<+T> = Done(value: T) | Failed(failure: Failure)

  /** How a backlog send leaves the round: go on, stop replaying until the next round, or collection stopped. */
  datatype Progress = GoOn | RetryLater | Halted

  datatype EntryOutcome = EntryAcknowledged | EntryDiscarded

  // ----- what the runtime relies on between queue operations -----

  ghost predicate Firm(w: World) {
    w.store.poisoned || w.store.disk.Settled()
  }

  /** The unused part of the live block is durably reserved and above everything issued. */
  ghost predicate LiveBlock(w: World, next: int, last: int) {
    next != 0 && w.store.locked && !w.store.poisoned ==>
      && w.store.disk.Settled()
      && w.store.disk.visible.Snapshot?
      && 0 < next <= last <= w.store.disk.visible.env.liveReserved
      && AboveIssued(w.history.claims, w.store.disk.visible.env.producerId, next)
  }

  /** `safe` is a set of worlds no legal step leaves; all worlds a process can get into will do. */
  ghost predicate AgentInv(safe: iset<World>, w: World, next: int, last: int, stopped: bool) {
    && w in safe
    && LiveBlock(w, next, last)
    && (stopped ==> Firm(w))
  }

  predicate QueueOp(op: Op) {
    op.EnqueueBatch? || op.Reserve? || op.Change?
  }

  /** A queue operation keeps everything the runtime relies on, and leaves nothing in doubt that was not. */
  lemma OperationKeepsAgentInv(safe: iset<World>, c: Config, w: World, op: Op, next: int, last: int, stopped: bool)
    requires Closed(safe) && AgentInv(safe, w, next, last, stopped) && Legal(w, op) && QueueOp(op)
    ensures AgentInv(safe, Next(c, w, op), next, last, stopped)
    ensures Firm(w) ==> Firm(Next(c, w, op))
    ensures Succeeds(c, w.store, op) ==> Next(c, w, op).store.disk.Settled() && !Next(c, w, op).store.poisoned
  {
    RefusalLeavesDisk(c, w.store, op);
    PoisonLasts(c, w.store, op);
    LiveBlockKept(c, w, op, next, last);
  }

  lemma PoisonLasts(c: Config, s: Store, op: Op)
    requires QueueOp(op)
    ensures s.poisoned ==> StoreAfter(c, s, op).poisoned
    ensures StoreAfter(c, s, op).locked == s.locked && StoreAfter(c, s, op).session == s.session
  {
  }

  lemma LiveBlockKept(c: Config, w: World, op: Op, next: int, last: int)
    requires LiveBlock(w, next, last) && Legal(w, op) && QueueOp(op)
    ensures LiveBlock(Next(c, w, op), next, last)
  {
    PoisonLasts(c, w.store, op);
    RefusalLeavesDisk(c, w.store, op);
    if next != 0 && w.store.locked && !w.store.poisoned {
      OperationEvolves(c, w, op);
      NewClaimsIssueNothing(c, w, op);
    }
  }

  lemma NewClaimsIssueNothing(c: Config, w: World, op: Op)
    requires QueueOp(op)
    ensures forall producer, n :: AboveIssued(w.history.claims, producer, n) ==>
      AboveIssued(Next(c, w, op).history.claims, producer, n)
  {
    var added := NewClaims(c, w.store, op);
    assert forall i :: 0 <= i < |added| ==> !added[i].Said?;
  }

  ghost predicate HasStop(log: seq<Exchange>) {
    exists at :: 0 <= at < |log| && StopAcked(log[at])
  }

  /** The log holds every message there was, every removal from the queue can be pointed at in it, and so can
      the stop that suspended collection. */
  ghost predicate Core(safe: iset<World>, w: World, log: seq<Exchange>, served: seq<Service>, next: int, last: int,
                       stopped: bool)
  {
    && AgentInv(safe, w, next, last, stopped)
    && Logged(w.history.claims, log)
    && Justified(w.history.claims, w.history.fates, log, served)
    && (stopped ==> HasStop(log))
  }

  lemma CoreGives(safe: iset<World>, w: World, log: seq<Exchange>, served: seq<Service>, next: int, last: int,
                  stopped: bool)
    requires Core(safe, w, log, served, next, last, stopped)
    ensures w in safe && Logged(w.history.claims, log) && (stopped ==> Firm(w))
  {
  }

  /** A queue operation keeps all of it. */
  lemma StepKeepsCore(safe: iset<World>, c: Config, w: World, op: Op, log: seq<Exchange>, served: seq<Service>,
                      next: int, last: int, stopped: bool)
    requires Closed(safe) && Core(safe, w, log, served, next, last, stopped) && Legal(w, op) && QueueOp(op)
    requires RightAsked(w.history.claims, log, served, w.store.disk.visible, StoreAfter(c, w.store, op).disk.visible,
                        op)
    ensures Core(safe, Next(c, w, op), log, served, next, last, stopped)
    ensures Firm(w) ==> Firm(Next(c, w, op))
    ensures Succeeds(c, w.store, op) ==> Next(c, w, op).store.disk.Settled() && !Next(c, w, op).store.poisoned
  {
    OperationKeepsAgentInv(safe, c, w, op, next, last, stopped);
    StepJustified(safe, c, w, op, log, served);
    AllocatedIsQueued(c, w.store, op);
    StillLogged(w.history.claims, NewClaims(c, w.store, op), log);
  }

  /** An operation that returns no batch leaves every item where it was. */
  lemma StepKeepsItems(c: Config, w: World, op: Op, items: Items, log: seq<Exchange>, results: seq<CommandResult>,
                       reports: seq<Fact>)
    requires ItemsOk(items, w.history.claims, log, results, reports)
    requires (op.Reserve? || op.Change? || op.Open? || op.Shut?)
    ensures ItemsOk(items, Next(c, w, op).history.claims, log, results, reports)
  {
    AllocatedIsQueued(c, w.store, op);
    ItemsKept(items, w.history.claims, NewClaims(c, w.store, op), log, log, results, reports);
  }

  // ----- deletions -----

  function KeysNamed(f: File, ids: seq<string>): set<Key> {
    if f.Snapshot? then set x | x in f.env.entries && x.id in ids :: Key(f.env.producerId, x.Seq()) else {}
  }

  ghost predicate DeletedFrom(f: File, ids: seq<string>, g: File) {
    f.Snapshot? && Accepts(f.env) && g == Snapshot(Deleted(f.env, set id | id in ids))
  }

  lemma DeletionDropsNamed(e: Envelope, ids: seq<string>)
    requires Accepts(e)
    ensures Keys(Snapshot(e)) - Keys(Snapshot(Deleted(e, set id | id in ids))) <= KeysNamed(Snapshot(e), ids)
  {
    var named := set id | id in ids;
    var d := Deleted(e, named);
    WithoutKeeps(e.entries, named);
    forall k | k in Keys(Snapshot(e)) && k !in Keys(Snapshot(d))
      ensures k in KeysNamed(Snapshot(e), ids)
    {
      var x :| x in e.entries && Key(e.producerId, x.Seq()) == k;
      assert x !in d.entries;
    }
  }

  lemma MutationDisk(c: Config, s: Store, m: Mutation, io: Io)
    ensures var step := Mutate(c, s, m, io);
            if step.result.Ok? || (step.store.poisoned && !s.poisoned)
            then s.disk.visible.Snapshot? && Accepts(s.disk.visible.env) && Mutated(c, s.disk.visible.env, m).Ok?
                 && step.store.disk.visible == Snapshot(Mutated(c, s.disk.visible.env, m).value)
            else step.store == s
  {
    if Ready(s, io).Ok? && Mutated(c, s.disk.visible.env, m).Ok? {
      var next := Mutated(c, s.disk.visible.env, m).value;
      assert Mutate(c, s, m, io) == Step(WriteEnvelope(c, s, next, io.write).store,
                                         WriteEnvelope(c, s, next, io.write).result);
    }
  }

  /** The reason is right for every entry named. */
  ghost predicate NamedFor(claims: seq<Claim>, log: seq<Exchange>, served: seq<Service>, f: File, ids: seq<string>,
                           why: Fate)
  {
    Asked(why) && forall k :: k in KeysNamed(f, ids) ==> Explains(claims, log, served, k, why)
  }

  /** A deletion removes only the keys of the ids it names. */
  lemma DeletionFacts(c: Config, w: World, ids: seq<string>, why: Fate, io: Io, log: seq<Exchange>,
                      served: seq<Service>)
    requires NamedFor(w.history.claims, log, served, w.store.disk.visible, ids, why)
    ensures var op := Change(Mutation.DeleteMany(set id | id in ids), why, io);
            && RightAsked(w.history.claims, log, served, w.store.disk.visible, StoreAfter(c, w.store, op).disk.visible,
                          op)
            && (Succeeds(c, w.store, op) ==>
                  DeletedFrom(w.store.disk.visible, ids, StoreAfter(c, w.store, op).disk.visible))
  {
    var m := Mutation.DeleteMany(set id | id in ids);
    MutationDisk(c, w.store, m, io);
    var f, g := w.store.disk.visible, Mutate(c, w.store, m, io).store.disk.visible;
    if f != g {
      DeletionDropsNamed(f.env, ids);
    }
  }

  // ----- operations that remove nothing -----

  /** The same batches are queued, under the same authority. */
  ghost predicate SameBatches(f: File, g: File) {
    && f.Snapshot? && g.Snapshot?
    && g.env.producerId == f.env.producerId && g.env.sessionId == f.env.sessionId
    && Keys(g) == Keys(f)
    && forall q :: Holds(f.env, q) ==> Holds(g.env, q)
  }

  /** Nothing but the live reservation differs. */
  ghost predicate SameQueue(f: File, g: File) {
    f == g || (f.Snapshot? && g.Snapshot? && g.env == f.env.(liveReserved := g.env.liveReserved))
  }

  lemma SameQueueHolds(f: File, g: File, r: Request)
    requires SameQueue(f, g) && f.Snapshot? && Holds(f.env, r)
    ensures g.Snapshot? && Holds(g.env, r) && g.env.producerId == f.env.producerId && NameOf(g, r) == NameOf(f, r)
  {
    var x :| x in f.env.entries && x.request == r;
    assert x in g.env.entries;
  }

  lemma SameEntriesSameBatches(e: Envelope, g: Envelope)
    requires g.producerId == e.producerId && g.sessionId == e.sessionId && g.entries == e.entries
    ensures SameBatches(Snapshot(e), Snapshot(g))
  {
  }

  lemma MarkSameBatches(e: Envelope, id: string)
    requires MarkFrom(e.entries, id).Some?
    ensures SameBatches(Snapshot(e), Snapshot(e.(entries := MarkFrom(e.entries, id).value)))
  {
    var ms := MarkFrom(e.entries, id).value;
    var g := e.(entries := ms);
    MarkFromKeeps(e.entries, id);
    forall q | Holds(e, q)
      ensures Holds(g, q)
    {
      MarkKeepsRequests(e, id, q);
    }
    forall k | k in Keys(Snapshot(e))
      ensures k in Keys(Snapshot(g))
    {
      var x :| x in e.entries && Key(e.producerId, x.Seq()) == k;
      var i :| 0 <= i < |e.entries| && e.entries[i] == x;
      assert ms[i] in ms;
    }
    forall k | k in Keys(Snapshot(g))
      ensures k in Keys(Snapshot(e))
    {
      var x :| x in ms && Key(e.producerId, x.Seq()) == k;
      var i :| 0 <= i < |ms| && ms[i] == x;
      assert e.entries[i] in e.entries;
    }
  }

  /** Marking an attempt, successful or not, leaves the same batches queued. */
  lemma MarkFacts(c: Config, w: World, id: string, io: Io, log: seq<Exchange>, served: seq<Service>)
    ensures var op := Change(Mutation.MarkAttempt(id), Cleared(0), io);
            && RightAsked(w.history.claims, log, served, w.store.disk.visible, StoreAfter(c, w.store, op).disk.visible,
                          op)
            && (w.store.disk.visible.Snapshot? ==>
                  SameBatches(w.store.disk.visible, StoreAfter(c, w.store, op).disk.visible))
  {
    var m := Mutation.MarkAttempt(id);
    MutationDisk(c, w.store, m, io);
    var f, g := w.store.disk.visible, Mutate(c, w.store, m, io).store.disk.visible;
    if f.Snapshot? {
      if f == g {
        SameEntriesSameBatches(f.env, g.env);
      } else {
        MarkSameBatches(f.env, id);
      }
    }
  }

  /** `es` is the newest part of `all`. */
  predicate Newest(es: seq<Entry>, all: seq<Entry>) {
    |es| <= |all| && es == all[|all| - |es|..]
  }

  lemma PruneKeepsNewest(c: Config, e: Envelope, now: nat)
    requires Accepts(e) && Mutated(c, e, Mutation.Prune(now)).Ok?
    ensures var p := Mutated(c, e, Mutation.Prune(now)).value; p.producerId == e.producerId && Newest(p.entries, e.entries)
  {
    PrunedShape(c.json, c.opts, e, now, Mutated(c, e, Mutation.Prune(now)).value);
  }

  /** A successful prune keeps the newest entries, under the same authority. */
  lemma PruneFacts(c: Config, w: World, now: nat, io: Io)
    ensures var op := Change(Mutation.Prune(now), Cleared(0), io);
            var f, g := w.store.disk.visible, StoreAfter(c, w.store, op).disk.visible;
            Succeeds(c, w.store, op) ==>
              f.Snapshot? && g.Snapshot? && g.env.producerId == f.env.producerId && Newest(g.env.entries, f.env.entries)
  {
    MutationDisk(c, w.store, Mutation.Prune(now), io);
    if Mutate(c, w.store, Mutation.Prune(now), io).result.Ok? {
      PruneKeepsNewest(c, w.store.disk.visible.env, now);
    }
  }

  // ----- live sequences -----

  lemma ReserveDisk(c: Config, s: Store, io: Io)
    ensures var step := ReserveLive(c, s, LIVE_SEQUENCE_RESERVATION, io);
            if step.result.Ok? || (step.store.poisoned && !s.poisoned)
            then s.disk.visible.Snapshot? && s.locked && !s.poisoned
                 && s.disk.visible.env.liveReserved <= MAX_INT64 - LIVE_SEQUENCE_RESERVATION
                 && step.store.disk.visible ==
                    Snapshot(s.disk.visible.env.(liveReserved := s.disk.visible.env.liveReserved + LIVE_SEQUENCE_RESERVATION))
                 && (step.result.Ok? ==>
                       step.result.value == Block(s.disk.visible.env.liveReserved + 1,
                                                  s.disk.visible.env.liveReserved + LIVE_SEQUENCE_RESERVATION))
            else step.store == s
  {
  }

  /** A reserved block starts above every live sequence issued so far. */
  lemma ReserveFacts(safe: iset<World>, c: Config, w: World, io: Io, log: seq<Exchange>, served: seq<Service>,
                     last: int, stopped: bool)
    requires Closed(safe) && Core(safe, w, log, served, 0, last, stopped)
    ensures var op := Reserve(LIVE_SEQUENCE_RESERVATION, io);
            var step := ReserveLive(c, w.store, LIVE_SEQUENCE_RESERVATION, io);
            var next := Next(c, w, op);
            && next.store == step.store && w.history.claims <= next.history.claims
            && SameQueue(w.store.disk.visible, next.store.disk.visible)
            && (Firm(w) ==> Firm(next))
            && if step.result.Ok? then step.result.value.first != 0 && !next.store.poisoned
                                       && Core(safe, next, log, served, step.result.value.first, step.result.value.last,
                                               stopped)
               else Core(safe, next, log, served, 0, last, stopped)
  {
    var op := Reserve(LIVE_SEQUENCE_RESERVATION, io);
    StepKeepsCore(safe, c, w, op, log, served, 0, last, stopped);
    ReserveDisk(c, w.store, io);
    if w.store.disk.visible.Snapshot? {
      assert Inv(w.store.disk, w.history);
      IssuedWithinReservation(w.store.disk, w.history);
      NewClaimsIssueNothing(c, w, op);
    }
  }

  lemma IssuedWithinReservation(d: Disk, h: History)
    requires Inv(d, h) && d.visible.Snapshot?
    ensures AboveIssued(h.claims, d.visible.env.producerId, d.visible.env.liveReserved + 1)
    ensures d.visible.env.liveReserved >= 0
  {
    forall i | 0 <= i < |h.claims| && h.claims[i].Said? && h.claims[i].producer == d.visible.env.producerId && h.claims[i].message.liveSignal.Some?
      ensures h.claims[i].message.liveSignal.value.sequence < d.visible.env.liveReserved + 1
    {
      assert Honours(d.visible.env, h.claims[i]);
    }
  }

  /** A live sequence taken from the block: reserved, above every one attached so far, and below the rest of the block.
      */
  ghost predicate Unused(w: World, sequence: int, next: int) {
    && w.store.disk.Settled() && w.store.disk.visible.Snapshot?
    && sequence <= w.store.disk.visible.env.liveReserved && (next == 0 || sequence < next)
    && AboveIssued(w.history.claims, w.store.disk.visible.env.producerId, sequence)
  }

  lemma TakeNext(safe: iset<World>, w: World, log: seq<Exchange>, served: seq<Service>, next: int, last: int,
                 stopped: bool)
    requires Core(safe, w, log, served, next, last, stopped) && next != 0 && w.store.locked && !w.store.poisoned
    ensures var rest := if next == last then 0 else next + 1;
            Core(safe, w, log, served, rest, last, stopped) && Unused(w, next, rest)
  {
  }

  // ----- saying things -----

  /** The message is a stored batch, marked as backfill or with a live signal attached, or no batch at all. */
  predicate Carries(message: Request, stored: Option<Request>) {
    match stored
    case None => message.batchSequence == 0
    case Some(r) => message == WithBackfilledFacts(r, true) || (message.liveSignal.Some? && message == r.(liveSignal := message.liveSignal))
  }

  /** The message with the stored authority's current bounds. */
  function Refreshed(message: Request, e: Envelope): Request {
    message.(protocolRevision := SYNC_PROTOCOL_REVISION, producerId := e.producerId,
             allocatedThrough := e.lastAllocated, retiredThrough := e.retiredFloor)
  }

  function Bare(m: Request): Request {
    m.(liveSignal := None, protocolRevision := 0, allocatedThrough := 0, retiredThrough := 0)
  }

  /** The message on the wire delivers the batch: its facts as stored with a live signal when current, marked as
      backfill without one otherwise. */
  predicate Delivers(m: Request, r: Request, current: bool) {
    (m.liveSignal.Some? <==> current) && Bare(m) == Bare(if current then r else WithBackfilledFacts(r, true))
  }

  lemma WireBacked(e: Envelope, message: Request, r: Request)
    requires Accepts(e) && Holds(e, r) && Carries(message, Some(r))
    ensures Backs(e, Refreshed(message, e)) && Delivers(Refreshed(message, e), r, message.liveSignal.Some?)
  {
    var x :| x in e.entries && x.request == r;
    assert EntryOk(e, x);
    TransportKeepsDigest(r, true, message.liveSignal, 0, 0, 0);
    TransportKeepsDigest(message, true, None, SYNC_PROTOCOL_REVISION, e.lastAllocated, e.retiredFloor);
    assert x.Seq() == Refreshed(message, e).batchSequence && Canonical(x.request) == Canonical(Refreshed(message, e));
  }

  /** A message built from what is stored may be sent. */
  lemma WireMayBeSaid(safe: iset<World>, w: World, message: Request, stored: Option<Request>, next: int)
    requires Closed(safe) && w in safe && w.store.disk.Settled() && w.store.disk.visible.Snapshot?
    requires Carries(message, stored) && (stored.Some? ==> Holds(w.store.disk.visible.env, stored.value))
    requires message.liveSignal.Some? ==> Unused(w, message.liveSignal.value.sequence, next)
    ensures MaySay(w.store.disk, w.history.claims, Refreshed(message, w.store.disk.visible.env))
    ensures stored.Some? ==>
              Delivers(Refreshed(message, w.store.disk.visible.env), stored.value, message.liveSignal.Some?)
  {
    SafeAccepts(safe, w);
    if stored.Some? {
      WireBacked(w.store.disk.visible.env, message, stored.value);
    }
  }

  lemma SaidKeepsAgentInv(safe: iset<World>, c: Config, w: World, m: Request, next: int, last: int, stopped: bool)
    requires Closed(safe) && AgentInv(safe, w, next, last, stopped) && MaySay(w.store.disk, w.history.claims, m)
    requires m.liveSignal.Some? ==> next == 0 || m.liveSignal.value.sequence < next
    ensures AgentInv(safe, Next(c, w, Say(m)), next, last, stopped)
    ensures Next(c, w, Say(m)).history.claims == w.history.claims + [Said(m.producerId, m)]
  {
  }

  /** Handing a message to the center, whatever it answers. */
  lemma SayFacts(safe: iset<World>, c: Config, w: World, m: Request, log: seq<Exchange>, served: seq<Service>,
                 next: int, last: int, stopped: bool, reply: Reply)
    requires Closed(safe) && Core(safe, w, log, served, next, last, stopped)
    requires MaySay(w.store.disk, w.history.claims, m)
    requires m.liveSignal.Some? ==> next == 0 || m.liveSignal.value.sequence < next
    ensures Core(safe, Next(c, w, Say(m)), log + [Exchange(m, reply)], served, next, last, stopped)
    ensures Next(c, w, Say(m)).store == w.store
    ensures Next(c, w, Say(m)).history.claims == w.history.claims + [Said(m.producerId, m)]
  {
    var x := Exchange(m, reply);
    SaidKeepsAgentInv(safe, c, w, m, next, last, stopped);
    SaidKeepsFates(safe, c, w, m);
    StillJustified(w.history.claims, [Said(m.producerId, m)], w.history.fates, log, log + [x], served, served);
    OneMoreLogged(w.history.claims, m, log, reply);
    StopRemembered(log, log + [x]);
  }

  /** Following the plan of an acknowledgement. */
  lemma PlanKeepsCore(safe: iset<World>, w: World, log: seq<Exchange>, served: seq<Service>, next: int, last: int,
                      stopped: bool, at: nat)
    requires Core(safe, w, log, served, next, last, stopped) && w.store.disk.Settled() && at < |log| && Acked(log[at])
    ensures Core(safe, w, log, served, next, last, log[at].reply.response.value.stopCollection)
  {
    assert log[at].reply.response.value.stopCollection ==> StopAcked(log[at]);
  }

  lemma StopRemembered(log: seq<Exchange>, later: seq<Exchange>)
    requires log <= later
    ensures HasStop(log) ==> HasStop(later)
  {
    if HasStop(log) {
      var at :| 0 <= at < |log| && StopAcked(log[at]);
      assert StopAcked(later[at]);
    }
  }

  lemma SaidKeepsFates(safe: iset<World>, c: Config, w: World, m: Request)
    requires Closed(safe) && w in safe
    ensures Next(c, w, Say(m)).history.fates == w.history.fates
  {
    assert Inv(w.store.disk, w.history);
    NoChangeSettles(w.store.disk, w.history, SessionRetired(""));
  }

  lemma SaidKeepsItems(c: Config, w: World, m: Request, items: Items, log: seq<Exchange>, reply: Reply,
                       results: seq<CommandResult>, reports: seq<Fact>)
    requires ItemsOk(items, w.history.claims, log, results, reports)
    ensures ItemsOk(items, Next(c, w, Say(m)).history.claims, log + [Exchange(m, reply)], results, reports)
  {
    ItemsKept(items, w.history.claims, [Said(m.producerId, m)], log, log + [Exchange(m, reply)], results, reports);
  }

  /** What the loop makes of an answer. */
  function Judge(x: Exchange): Result<Response> {
    if !x.reply.Answered? then Failed(Policy(Classify(x.reply)))
    else if !Acknowledges(x.message, x.reply.response) then Failed(Policy(Terminal))
    else Done(x.reply.response.value)
  }

  /** It discards exactly on a rejected payload, takes exactly an acknowledgement of this very message that is not a
      deferral, and tries again when the center was not reached, busy or broken. */
  lemma JudgeMeans(x: Exchange)
    ensures Judge(x) == Failed(Policy(Discard)) <==> PayloadRejected(x)
    ensures Judge(x).Done? && Judge(x).value.disposition != Deferred <==> Acked(x)
    ensures Judge(x).Done? ==> x.reply.Answered? && x.reply.response == Some(Judge(x).value)
    ensures Judge(x).Failed? ==> Judge(x).failure.Policy? && Verdict(x) == Some(Judge(x).failure.action)
    ensures x.reply.TransportFailure? || (x.reply.RemoteFailure? && (x.reply.status == 429 || x.reply.status >= 500)) ==>
              Judge(x) == Failed(Policy(Retry))
  {
  }

  /** What the center's answer asks of a round that cannot go on: to give up, or to try again later. */
  function Verdict(x: Exchange): Option<Action> {
    var judged := Judge(x);
    if judged.Failed? then (if judged.failure.Policy? then Some(judged.failure.action) else None)
    else if judged.value.disposition == Deferred then Some(Retry)
    else None
  }

  /** An answer since asked for this. */
  predicate Blamed(base: seq<Exchange>, log: seq<Exchange>, action: Action) {
    exists i :: |base| <= i < |log| && Verdict(log[i]) == Some(action)
  }

  /** A failure that is not the agent's own is what an answer asked for. */
  predicate Answerable<T>(base: seq<Exchange>, log: seq<Exchange>, r: Result<T>) {
    r.Failed? && r.failure.Policy? ==> Blamed(base, log, r.failure.action)
  }

  lemma BlamedLast(base: seq<Exchange>, log: seq<Exchange>, action: Action)
    requires |base| < |log| && Verdict(log[|log| - 1]) == Some(action)
    ensures Blamed(base, log, action)
  {
  }

  /** What is blamed on a part of the log is blamed on all of it. */
  lemma StillBlamed(base: seq<Exchange>, was: seq<Exchange>, mid: seq<Exchange>, log: seq<Exchange>, action: Action)
    requires base <= was <= mid <= log && Blamed(was, mid, action)
    ensures Blamed(base, log, action)
  {
    var i :| |was| <= i < |mid| && Verdict(mid[i]) == Some(action);
    assert log[i] == mid[i];
  }

  // ----- what handling one entry does to the queue -----

  /** Exactly the batch r left the queue. */
  ghost predicate DroppedOne(f: File, g: File, r: Request) {
    && f.Snapshot? && g.Snapshot?
    && g.env.producerId == f.env.producerId && g.env.sessionId == f.env.sessionId
    && Keys(g) == Keys(f) - {Key(f.env.producerId, r.batchSequence)}
    && forall q :: Holds(f.env, q) && q.batchSequence != r.batchSequence ==> Holds(g.env, q)
  }

  function NameOf(f: File, r: Request): string {
    if f.Snapshot? then Identity(f.env.producerId, r.batchSequence) else ""
  }

  lemma NamesOneKey(f: File, r: Request)
    requires f.Snapshot? && Accepts(f.env)
    ensures KeysNamed(f, [NameOf(f, r)]) <= {Key(f.env.producerId, r.batchSequence)}
  {
    forall x | x in f.env.entries && x.id in [NameOf(f, r)]
      ensures x.Seq() == r.batchSequence
    {
      assert EntryOk(f.env, x);
      IdentityInjective(f.env.producerId, x.Seq(), f.env.producerId, r.batchSequence);
    }
  }

  lemma DeletingOneDropsOne(f: File, g: File, r: Request)
    requires f.Snapshot? && Accepts(f.env) && DeletedFrom(f, [NameOf(f, r)], g)
    ensures DroppedOne(f, g, r)
  {
    var e := f.env;
    var ids := set id | id in [NameOf(f, r)];
    assert forall id :: id in ids <==> id == NameOf(f, r);
    WithoutKeeps(e.entries, ids);
    forall x | x in e.entries
      ensures x.id in ids <==> x.Seq() == r.batchSequence
    {
      assert EntryOk(e, x);
      if x.id in ids {
        IdentityInjective(e.producerId, x.Seq(), e.producerId, r.batchSequence);
      }
    }
    forall q | Holds(e, q) && q.batchSequence != r.batchSequence
      ensures Holds(g.env, q)
    {
      var x :| x in e.entries && x.request == q;
      assert x in g.env.entries;
    }
    KeysOfDeleted(f, g, ids, r.batchSequence);
  }

  lemma KeysOfDeleted(f: File, g: File, ids: set<string>, n: int)
    requires f.Snapshot? && g.Snapshot? && g.env.producerId == f.env.producerId
    requires forall x :: x in g.env.entries <==> x in f.env.entries && x.id !in ids
    requires forall x :: x in f.env.entries ==> (x.id in ids <==> x.Seq() == n)
    ensures Keys(g) == Keys(f) - {Key(f.env.producerId, n)}
  {
    forall k | k in Keys(f) && k != Key(f.env.producerId, n)
      ensures k in Keys(g)
    {
      var x :| x in f.env.entries && Key(f.env.producerId, x.Seq()) == k;
      assert x in g.env.entries;
    }
    forall k | k in Keys(g)
      ensures k in Keys(f) && k != Key(f.env.producerId, n)
    {
      var x :| x in g.env.entries && Key(g.env.producerId, x.Seq()) == k;
    }
  }

  lemma SafeAccepts(safe: iset<World>, w: World)
    requires Closed(safe) && w in safe && w.store.disk.visible.Snapshot?
    ensures Accepts(w.store.disk.visible.env)
  {
    assert Inv(w.store.disk, w.history);
  }

  lemma NameFacts(safe: iset<World>, w: World, r: Request)
    requires Closed(safe) && w in safe && w.store.disk.visible.Snapshot?
    ensures var f := w.store.disk.visible;
            && KeysNamed(f, [NameOf(f, r)]) <= {Key(f.env.producerId, r.batchSequence)}
            && forall g :: DeletedFrom(f, [NameOf(f, r)], g) ==> DroppedOne(f, g, r)
  {
    SafeAccepts(safe, w);
    var f := w.store.disk.visible;
    NamesOneKey(f, r);
    forall g | DeletedFrom(f, [NameOf(f, r)], g)
      ensures DroppedOne(f, g, r)
    {
      DeletingOneDropsOne(f, g, r);
    }
  }

  lemma ProducerOf(safe: iset<World>, w: World, r: Request)
    requires Closed(safe) && w in safe && w.store.disk.visible.Snapshot? && Holds(w.store.disk.visible.env, r)
    ensures r.producerId == w.store.disk.visible.env.producerId
  {
    SafeAccepts(safe, w);
    var x :| x in w.store.disk.visible.env.entries && x.request == r;
    assert EntryOk(w.store.disk.visible.env, x);
  }

  lemma SameQueueSameBatches(f: File, g: File)
    requires SameQueue(f, g) && f.Snapshot?
    ensures SameBatches(f, g)
  {
    SameEntriesSameBatches(f.env, g.env);
  }

  /** What the queue may look like after one entry was handled. */
  ghost predicate Handled(f: File, g: File, r: Request, result: Result<EntryOutcome>, stopped: bool) {
    if result.Failed? then result.failure.Policy? ==> !stopped && result.failure.action != Discard && SameBatches(f, g)
    else if stopped then Keys(g) == {}
    else DroppedOne(f, g, r)
  }

  lemma HandledNothing(f: File, g: File, r: Request, result: Result<EntryOutcome>, stopped: bool)
    requires result.Failed? && !result.failure.Policy?
    ensures Handled(f, g, r, result, stopped)
  {
  }

  lemma HandledAfterSend(f: File, g: File, k: File, r: Request, result: Result<EntryOutcome>, stopped: bool)
    requires SameQueue(f, g) && f.Snapshot? && Handled(g, k, r, result, stopped)
    ensures Handled(f, k, r, result, stopped)
  {
    SameQueueSameBatches(f, g);
    SameComposed(f, g, k, r);
  }

  lemma SameComposed(f: File, g: File, k: File, r: Request)
    requires SameBatches(f, g)
    ensures SameBatches(g, k) ==> SameBatches(f, k)
    ensures DroppedOne(g, k, r) ==> DroppedOne(f, k, r)
  {
  }

  /** A stop just ordered is reason enough to delete anything there is. */
  lemma ClearingFor(claims: seq<Claim>, log: seq<Exchange>, served: seq<Service>, f: File, ids: seq<string>)
    requires Logged(claims, log) && JustSaid(claims) && log != [] && StopAcked(log[|log| - 1])
    ensures NamedFor(claims, log, served, f, ids, Cleared(|log| - 1))
  {
    forall i | 0 <= i < |claims| && claims[i].Allocated?
      ensures Sent(claims, i) <= |log| - 1
    {
      SentBeforeLast(claims, log, i);
    }
  }

  lemma DeletingAllEmpties(f: File, g: File, ids: seq<string>)
    requires f.Snapshot? && Accepts(f.env) && DeletedFrom(f, ids, g)
    requires forall x :: x in f.env.entries ==> x.id in ids
    ensures Keys(g) == {}
  {
    WithoutKeeps(f.env.entries, set id | id in ids);
  }

  // ----- backing off -----

  const SECOND := 1_000_000_000

  const MAX_BACKLOG_PER_ROUND := 2

  /** How long the center asked to be left alone, within a second and a minute, five seconds by default. */
  function Wait(retryAfter: int): int {
    if retryAfter < SECOND || retryAfter > 60 * SECOND then 5 * SECOND else retryAfter
  }

  predicate Throttles(reply: Reply) {
    reply.RemoteFailure? && (reply.status == 429 || reply.status == 503)
  }

  /** When backlog may be sent again after this answer; a back-off already asked for is never shortened. */
  function BackOff(until: nat, reply: Reply, now: nat): nat {
    if Throttles(reply) && now + Wait(reply.retryAfter) > until then now + Wait(reply.retryAfter) else until
  }

  /** How many backlog batches a round sends when nothing holds it up. */
  function Turns(backlog: seq<Entry>): nat {
    if |backlog| < MAX_BACKLOG_PER_ROUND then |backlog| else MAX_BACKLOG_PER_ROUND
  }

  /** No answer since asked to be left alone. */
  predicate Quiet(base: seq<Exchange>, log: seq<Exchange>) {
    forall i :: |base| <= i < |log| ==> !Throttles(log[i].reply)
  }

  /** Every time read since is past the back-off. */
  predicate Over(until: nat, was: seq<nat>, read: seq<nat>) {
    forall i :: |was| <= i < |read| ==> read[i] >= until
  }

  /** A back-off is never shortened, and stays as it is while nobody asks for one. */
  predicate BackOffKept(until: nat, now: nat, base: seq<Exchange>, log: seq<Exchange>) {
    now >= until && (Quiet(base, log) ==> now == until)
  }

  /** The same when the backlog may have been sent: a back-off that is over is forgotten. */
  predicate BackOffAfter(until: nat, now: nat, base: seq<Exchange>, log: seq<Exchange>) {
    Quiet(base, log) ==> now == 0 || now == until
  }

  /** Nothing holds the backlog up: no back-off is left, or none was asked for and the old one is over. */
  predicate Unheld(until: nat, now: nat, base: seq<Exchange>, log: seq<Exchange>, was: seq<nat>, read: seq<nat>) {
    now == 0 || (Quiet(base, log) && Over(until, was, read))
  }

  /** A time read before a back-off is over holds the backlog up. */
  lemma HeldUp(until: nat, now: nat, base: seq<Exchange>, log: seq<Exchange>, was: seq<nat>, read: seq<nat>)
    requires BackOffAfter(until, now, base, log) && |was| < |read| && read[|read| - 1] < now
    ensures !Unheld(until, now, base, log, was, read)
  {
  }

  // ----- stretches of the loop -----

  /** A stretch of the loop that drained these reports: nothing is forgotten, every plan is followed (but perhaps the
      last, if something failed), and the back-off is what the answers asked for or over. */
  ghost predicate Stretch(a: Past, b: Past, whole: bool, reports: seq<Fact>) {
    && Moves(a, b, whole) && b.items.reports[|a.items.reports|..] == reports
    && a.read <= b.read && BackOffAfter(a.until, b.until, a.log, b.log)
  }

  lemma StretchLess(a: Past, b: Past, whole: bool, less: bool, reports: seq<Fact>)
    requires Stretch(a, b, whole, reports) && (less ==> whole)
    ensures Stretch(a, b, less, reports)
  {
  }

  lemma BackOffOn(until: nat, mid: nat, now: nat, a: seq<Exchange>, b: seq<Exchange>, c: seq<Exchange>)
    requires a <= b <= c && BackOffAfter(until, mid, a, b) && BackOffAfter(mid, now, b, c)
    ensures BackOffAfter(until, now, a, c)
  {
    assert forall i :: |a| <= i < |b| ==> c[i] == b[i];
  }

  lemma StretchJoin(a: Past, b: Past, c: Past, whole: bool, first: seq<Fact>, second: seq<Fact>)
    requires Stretch(a, b, true, first) && Stretch(b, c, whole, second)
    ensures Stretch(a, c, whole, first + second)
  {
    MovesOn(a, b, c, whole);
    BackOffOn(a.until, b.until, c.until, a.log, b.log, c.log);
    assert c.items.reports[|a.items.reports|..] == first + second;
  }

  lemma StretchOn(a: Past, b: Past, c: Past, whole: bool, reports: seq<Fact>)
    requires Stretch(a, b, true, reports) && Stretch(b, c, whole, [])
    ensures Stretch(a, c, whole, reports)
  {
    StretchJoin(a, b, c, whole, reports, []);
    assert reports + [] == reports;
  }

  /** Nothing said or produced. */
  lemma StandingStretch(a: Past, b: Past)
    requires a.claims <= b.claims && b.log == a.log && b.stopped == a.stopped
    requires b.items == a.items.(inDoubt := b.items.inDoubt)
    requires b.until == a.until && a.read <= b.read
    ensures Stretch(a, b, true, []) && Stretch(a, b, false, [])
  {
    StandingMoves(a, b);
  }

  /** Reports drained. */
  lemma DrainingStretch(a: Past, b: Past, reports: seq<Fact>)
    requires b == a.(items := a.items.(reports := b.items.reports)) && a.items.reports <= b.items.reports
    requires b.items.reports[|a.items.reports|..] == reports
    ensures Stretch(a, b, true, reports)
  {
    assert b.log[|a.log|..] == [];
  }

  /** Everything pending put into a batch, or nothing. */
  lemma StoringStretch(a: Past, b: Past)
    requires a.claims <= b.claims && b.log == a.log && b.stopped == a.stopped && b.until == a.until && a.read <= b.read
    requires b.items == Leave(a.items, InBatch(|a.claims|)) || b.items == a.items.(inDoubt := b.items.inDoubt)
    ensures Stretch(a, b, true, []) && Stretch(a, b, false, [])
  {
    StoringMoves(a, b);
  }

  /** One exchange, and its plan if it was got to. */
  lemma ExchangeStretch(a: Past, b: Past, whole: bool)
    requires a.claims <= b.claims && a.log <= b.log && |b.log| == |a.log| + 1
    requires Applied(a.items, b.items, a.stopped, b.stopped, b.log[|a.log|], |a.log|, whole)
    requires a.read <= b.read && BackOffKept(a.until, b.until, a.log, b.log)
    ensures Stretch(a, b, whole, [])
  {
    AppliedMoves(a, b, whole);
  }

  /** At most one exchange, whose plan was not followed. */
  lemma UnappliedStretch(a: Past, b: Past)
    requires a.claims <= b.claims && a.log <= b.log && |b.log| <= |a.log| + 1 && b.stopped == a.stopped
    requires b.items == a.items
    requires a.read <= b.read && BackOffKept(a.until, b.until, a.log, b.log)
    ensures Stretch(a, b, false, [])
    ensures |b.log| == |a.log| || !Acked(b.log[|a.log|]) ==> Stretch(a, b, true, [])
  {
    UnappliedMoves(a, b);
  }

  predicate Unhindered(a: Past, b: Past) {
    Unheld(a.until, b.until, a.log, b.log, a.read, b.read)
  }

  /** What is blamed on a part of a stretch is blamed on all of it. */
  lemma BlamedOn(a: Past, b: Past, c: Past, whole: bool)
    requires Stretch(a, b, true, []) && Stretch(b, c, whole, [])
    ensures forall action :: Blamed(a.log, b.log, action) || Blamed(b.log, c.log, action) ==>
      Blamed(a.log, c.log, action)
  {
    forall action | Blamed(a.log, b.log, action) || Blamed(b.log, c.log, action)
      ensures Blamed(a.log, c.log, action)
    {
      if Blamed(a.log, b.log, action) {
        StillBlamed(a.log, a.log, b.log, c.log, action);
      } else {
        StillBlamed(a.log, b.log, c.log, c.log, action);
      }
    }
  }

  /** Nothing held up a stretch up to its end, so nothing did on the way. */
  lemma UnhinderedBefore(a: Past, b: Past, c: Past, whole: bool)
    requires Stretch(a, b, true, []) && Stretch(b, c, whole, []) && c.until >= b.until
    ensures Unhindered(a, c) ==> Unhindered(a, b)
  {
    assert forall i :: |a.log| <= i < |b.log| ==> c.log[i] == b.log[i];
    assert forall i :: |a.read| <= i < |b.read| ==> c.read[i] == b.read[i];
  }

  /** Nor after something else went before. */
  lemma UnhinderedAfter(a: Past, b: Past, c: Past)
    requires b.until == a.until && b.log == a.log && a.read <= b.read <= c.read
    ensures Unhindered(a, c) ==> Unhindered(b, c)
  {
  }

  /** Asking whether the backlog may be sent: it may unless a back-off is not over. */
  lemma AskedBacklog(a: Past, b: Past, c: Past)
    requires Stretch(a, b, true, []) && c == b.(until := c.until, read := c.read) && |c.read| == |b.read| + 1
    requires b.read <= c.read
    requires c.until == if b.until <= c.read[|b.read|] then 0 else b.until
    ensures Stretch(a, c, true, []) && (c.until != 0 ==> !Unhindered(a, c))
  {
    assert a.read <= c.read;
    if c.until != 0 {
      HeldUp(a.until, c.until, a.log, c.log, a.read, c.read);
    }
  }

  lemma AfterStoring(a: Past, b: Past, c: Past, whole: bool)
    requires b.until == a.until && b.log == a.log && a.read <= b.read && Stretch(b, c, whole, [])
    ensures Unhindered(a, c) ==> Unhindered(b, c)
  {
    UnhinderedAfter(a, b, c);
  }

  // ----- the entries of one round -----

  /** The entries that belong to the current authority, in queue order. */
  function Retained(es: seq<Entry>, a: Authority): seq<Entry> {
    if es == [] then []
    else
      var rest := Retained(es[..|es| - 1], a);
      if Belongs(es[|es| - 1].request, a) then rest + [es[|es| - 1]] else rest
  }

  /** Every one of these entries is in the file, under the name it carries. */
  ghost predicate AllStored(f: File, es: seq<Entry>) {
    f.Snapshot? && forall x :: x in es ==> Holds(f.env, x.request) && x.id == NameOf(f, x.request)
  }

  lemma {:induction false} RetainedKeeps(es: seq<Entry>, a: Authority)
    ensures forall x :: x in Retained(es, a) <==> x in es && Belongs(x.request, a)
  {
    if es != [] {
      RetainedKeeps(es[..|es| - 1], a);
      assert es == es[..|es| - 1] + [es[|es| - 1]];
    }
  }

  lemma {:induction false} RetainedOrdered(es: seq<Entry>, a: Authority)
    requires Ordered(es)
    ensures Ordered(Retained(es, a))
  {
    if es != [] {
      var init, last := es[..|es| - 1], es[|es| - 1];
      var rest := Retained(init, a);
      RetainedOrdered(init, a);
      RetainedKeeps(init, a);
      forall i | 0 <= i < |rest|
        ensures rest[i].Seq() < last.Seq() && rest[i].createdAt < last.createdAt
      {
        assert rest[i] in init;
        var k :| 0 <= k < |init| && init[k] == rest[i];
        assert es[k] == rest[i];
      }
    }
  }

  lemma RetainedStored(f: File, es: seq<Entry>, a: Authority)
    requires f.Snapshot? && Accepts(f.env) && es == f.env.entries
    ensures AllStored(f, Retained(es, a))
  {
    RetainedKeeps(es, a);
    forall x | x in Retained(es, a)
      ensures Holds(f.env, x.request) && x.id == NameOf(f, x.request)
    {
      assert EntryOk(f.env, x);
    }
  }

  lemma DeletionKeepsUnnamed(f: File, g: File, ids: seq<string>, es: seq<Entry>)
    requires DeletedFrom(f, ids, g) && AllStored(f, es) && forall x :: x in es ==> x.id !in ids
    ensures AllStored(g, es)
  {
    forall x | x in es
      ensures Holds(g.env, x.request)
    {
      DeleteKeepsOthers(f.env, (set id | id in ids), x.request);
    }
  }

  ghost predicate OnlyThese(f: File, es: seq<Entry>) {
    f.Snapshot? && forall x :: x in f.env.entries ==> x in es
  }

  /** Deleting the stale names leaves only what belongs to the authority. */
  lemma StaleComplete(f: File, es: seq<Entry>, a: Authority, stale: seq<string>, retainedIds: set<string>)
    requires f.Snapshot? && Accepts(f.env) && es == f.env.entries
    requires retainedIds == set x | x in Retained(es, a) :: x.id
    requires forall k :: 0 <= k < |es| ==> Belongs(es[k].request, a) || es[k].id in stale || es[k].id in retainedIds
    ensures stale == [] ==> OnlyThese(f, Retained(es, a))
    ensures forall g :: DeletedFrom(f, stale, g) ==> OnlyThese(g, Retained(es, a))
  {
    RetainedKeeps(es, a);
    forall x | x in es && x.id !in stale
      ensures x in Retained(es, a)
    {
      var k :| 0 <= k < |es| && es[k] == x;
      if !Belongs(x.request, a) {
        var y :| y in Retained(es, a) && y.id == x.id;
        var j :| 0 <= j < |es| && es[j] == y;
        IdsDistinct(f.env, k, j);
      }
    }
    WithoutKeeps(es, set id | id in stale);
  }

  /** Entries named as stale are, and so is every batch they hold. */
  lemma StaleNamed(safe: iset<World>, w: World, log: seq<Exchange>, served: seq<Service>, ids: seq<string>,
                   a: Authority)
    requires Closed(safe) && w in safe && w.store.disk.visible.Snapshot? && Logged(w.history.claims, log)
    requires InService(served, a, |log|)
    requires forall id :: id in ids ==> IsStale(w.store.disk.visible.env.entries, id, a)
    ensures NamedFor(w.history.claims, log, served, w.store.disk.visible, ids, Stale(a, |log|))
  {
    assert Inv(w.store.disk, w.history);
    forall k | k in KeysNamed(w.store.disk.visible, ids)
      ensures ReturnedBy(w.history.claims, k, |log|) && Foreign(w.history.claims, k, a)
    {
      forall i | 0 <= i < |w.history.claims| && IsBatch(w.history.claims[i], k)
        ensures Sent(w.history.claims, i) <= |log| && !Belongs(w.history.claims[i].request, a)
      {
        SentGrows(w.history.claims, log, i);
        StaleClaim(w.store.disk, w.history, ids, a, k, i);
      }
    }
  }

  lemma StaleClaim(d: Disk, h: History, ids: seq<string>, a: Authority, k: Key, i: nat)
    requires Inv(d, h) && d.visible.Snapshot? && k in KeysNamed(d.visible, ids) && i < |h.claims|
    requires IsBatch(h.claims[i], k)
    requires forall id :: id in ids ==> IsStale(d.visible.env.entries, id, a)
    ensures !Belongs(h.claims[i].request, a)
  {
    var e := d.visible.env;
    var x :| x in e.entries && x.id in ids && Key(e.producerId, x.Seq()) == k;
    OnlyStale(e, x, a);
    assert Honours(e, h.claims[i]);
  }

  predicate IsStale(es: seq<Entry>, id: string, a: Authority) {
    exists k :: 0 <= k < |es| && es[k].id == id && !Belongs(es[k].request, a)
  }

  lemma OnlyStale(e: Envelope, x: Entry, a: Authority)
    requires Accepts(e) && x in e.entries && IsStale(e.entries, x.id, a)
    ensures !Belongs(x.request, a)
  {
    var k :| 0 <= k < |e.entries| && e.entries[k].id == x.id && !Belongs(e.entries[k].request, a);
    var i :| 0 <= i < |e.entries| && e.entries[i] == x;
    IdsDistinct(e, i, k);
  }

  predicate DistinctSequences(es: seq<Entry>) {
    forall i, j :: 0 <= i < j < |es| ==> es[i].Seq() != es[j].Seq()
  }

  /** Exactly one more message went out, delivering this batch. */
  predicate AddsMessage(before: seq<Exchange>, after: seq<Exchange>, r: Request, current: bool) {
    |after| == |before| + 1 && after[..|before|] == before && Delivers(after[|before|].message, r, current)
  }

  /** The first n backlog entries were put on the wire, in order. */
  predicate SentBacklog(base: seq<Exchange>, log: seq<Exchange>, backlog: seq<Entry>, n: nat) {
    && n <= |backlog| && |log| == |base| + n && log[..|base|] == base
    && forall j :: 0 <= j < n ==> Delivers(log[|base| + j].message, backlog[j].request, false)
  }

  lemma SentOneMore(base: seq<Exchange>, was: seq<Exchange>, now: seq<Exchange>, backlog: seq<Entry>, n: nat)
    requires SentBacklog(base, was, backlog, n) && n < |backlog|
    requires now == was || AddsMessage(was, now, backlog[n].request, false)
    ensures SentBacklog(base, now, backlog, |now| - |base|) && n <= |now| - |base| <= n + 1
  {
    assert now[..|was|] == was;
    assert now[..|base|] == was[..|base|];
  }

  /** Nothing from here on was answered with a stop. */
  predicate NoStop(base: seq<Exchange>, log: seq<Exchange>) {
    forall i :: |base| <= i < |log| ==> !StopAcked(log[i])
  }

  /** Nothing was sent after a stop. */
  predicate NoneAfterStop(base: seq<Exchange>, log: seq<Exchange>) {
    forall i :: |base| <= i < |log| - 1 ==> !StopAcked(log[i])
  }

  lemma StopsLast(base: seq<Exchange>, was: seq<Exchange>, log: seq<Exchange>)
    requires NoStop(base, was) && was <= log && |log| <= |was| + 1
    ensures NoneAfterStop(base, log)
    ensures log == was || !StopAcked(log[|was|]) ==> NoStop(base, log)
  {
    assert forall i :: 0 <= i < |was| ==> log[i] == was[i];
  }

  lemma NothingSentYet(base: seq<Exchange>, backlog: seq<Entry>)
    ensures SentBacklog(base, base, backlog, 0) && NoStop(base, base)
  {
  }

  lemma NoStopAtAll(base: seq<Exchange>, log: seq<Exchange>)
    requires NoStop(base, log)
    ensures NoneAfterStop(base, log)
  {
  }

  lemma OthersDiffer(backlog: seq<Entry>, current: Entry, i: nat)
    requires i < |backlog| && DistinctSequences(backlog + [current])
    ensures forall x :: x in backlog[i + 1..] + [current] ==> x.Seq() != backlog[i].Seq()
    ensures forall x :: x in backlog[i + 1..] + [current] ==> x in backlog[i..] + [current]
  {
    var all := backlog + [current];
    forall x | x in backlog[i + 1..] + [current]
      ensures x.Seq() != backlog[i].Seq()
    {
      var k :| 0 <= k < |backlog[i + 1..] + [current]| && (backlog[i + 1..] + [current])[k] == x;
      assert all[i + 1 + k] == x && all[i] == backlog[i];
    }
    assert backlog[i..] == [backlog[i]] + backlog[i + 1..];
  }

  /** The entries still to be sent survive the handling of another one. */
  lemma StoredAfter(f: File, g: File, r: Request, before: seq<Entry>, after: seq<Entry>)
    requires AllStored(f, before) && forall x :: x in after ==> x in before
    requires f == g || SameBatches(f, g) || (DroppedOne(f, g, r) && forall x :: x in after ==>
                                               x.Seq() != r.batchSequence)
    ensures AllStored(g, after)
  {
    forall x | x in after
      ensures Holds(g.env, x.request) && x.id == NameOf(g, x.request)
    {
      assert Holds(f.env, x.request);
    }
  }

  /** The entries other than the current one. */
  function Others(es: seq<Entry>, id: string): seq<Entry> {
    if es == [] then []
    else
      var rest := Others(es[..|es| - 1], id);
      if es[|es| - 1].id != id then rest + [es[|es| - 1]] else rest
  }

  lemma {:induction false} OthersFacts(es: seq<Entry>, id: string)
    requires Ordered(es)
    ensures forall x :: x in Others(es, id) <==> x in es && x.id != id
    ensures Ordered(Others(es, id))
  {
    if es != [] {
      var init, last := es[..|es| - 1], es[|es| - 1];
      OthersFacts(init, id);
      assert es == init + [last];
      OrderedMore(es, Others(init, id));
    }
  }

  /** Entries from before the last, in order, stay in order with the last after them. */
  lemma OrderedMore(es: seq<Entry>, rest: seq<Entry>)
    requires Ordered(es) && es != [] && Ordered(rest) && forall x :: x in rest ==> x in es[..|es| - 1]
    ensures Ordered(rest + [es[|es| - 1]])
  {
    var init, last := es[..|es| - 1], es[|es| - 1];
    forall i | 0 <= i < |rest|
      ensures rest[i].Seq() < last.Seq() && rest[i].createdAt < last.createdAt
    {
      assert rest[i] in rest && rest[i] in init;
      var k :| 0 <= k < |init| && init[k] == rest[i];
      assert es[k] == rest[i];
    }
  }

  lemma OthersDistinct(es: seq<Entry>, id: string, current: Entry)
    requires Ordered(es) && current in es && current.id == id
    ensures DistinctSequences(Others(es, id) + [current])
  {
    OthersFacts(es, id);
    var others := Others(es, id);
    forall i | 0 <= i < |others|
      ensures others[i].Seq() != current.Seq()
    {
      assert others[i] in es;
      var k :| 0 <= k < |es| && es[k] == others[i];
      var c :| 0 <= c < |es| && es[c] == current;
      assert k != c;
    }
  }

  lemma RoundOrdered(e: Envelope, a: Authority)
    requires Accepts(e)
    ensures Ordered(Retained(e.entries, a))
  {
    RetainedOrdered(e.entries, a);
  }

  /** The current entry and the others, all stored. */
  lemma RoundStored(f: File, es: seq<Entry>, a: Authority, current: Entry)
    requires Ordered(Retained(es, a)) && AllStored(f, Retained(es, a)) && current in Retained(es, a)
    ensures AllStored(f, Others(Retained(es, a), current.id) + [current]) && current in es
    ensures |current.request.heartbeats| > 0
  {
    RetainedKeeps(es, a);
    OthersFacts(Retained(es, a), current.id);
  }

  /** A round puts at most two backlog batches on the wire, the oldest first, then at most the current one, and nothing
      after a stop; a round that is done sent the current one, and a whole round the two oldest before it. */
  predicate RoundShape(base: seq<Exchange>, log: seq<Exchange>, backlog: seq<Entry>, current: Request, done: bool,
                       whole: bool)
  {
    && NoneAfterStop(base, log) && (done ==> |log| > |base| && Delivers(log[|log| - 1].message, current, true))
    && (whole ==> done && |log| == |base| + Turns(backlog) + 1)
    && exists n :: 0 <= n <= 2 && n <= |backlog| && RoundOf(base, log, backlog, n, current)
  }

  predicate RoundOf(base: seq<Exchange>, log: seq<Exchange>, backlog: seq<Entry>, n: nat, current: Request) {
    || SentBacklog(base, log, backlog, n)
    || (|log| == |base| + n + 1 && SentBacklog(base, log[..|base| + n], backlog, n) && Delivers(log[|base| + n].message, current, true))
  }

  lemma NothingSent(base: seq<Exchange>, backlog: seq<Entry>, current: Request)
    ensures RoundShape(base, base, backlog, current, false, false)
  {
    assert RoundOf(base, base, backlog, 0, current);
  }

  lemma CurrentLast(base: seq<Exchange>, was: seq<Exchange>, now: seq<Exchange>, backlog: seq<Entry>, n: nat,
                    r: Request)
    requires SentBacklog(base, was, backlog, n) && n <= 2 && NoneAfterStop(base, was)
    requires now == was || (NoStop(base, was) && AddsMessage(was, now, r, true))
    ensures RoundShape(base, now, backlog, r, now != was, now != was && n == Turns(backlog))
  {
    assert RoundOf(base, now, backlog, n, r);
    if now != was {
      assert now[..|was|] == was;
    }
  }

  // ----- ticks -----

  /** What one tick of the loop worked on. */
  datatype Mark =
    | Control(from: nat)
    | Unstored(from: nat)
    | Batch(from: nat, entries: seq<Entry>, current: Entry, done: bool, whole: bool)
  {
    /** The entries are the newest part of the queue there was, with the tick's own batch, newly numbered, behind them.
        */
    predicate WorkedOn(f: File)
      requires Batch?
    {
      && f.Snapshot? && Newest(entries, f.env.entries + [current])
      && current.Seq() == f.env.lastAllocated + 1 && current.id == Identity(f.env.producerId, current.Seq())
    }
  }

  /** A message with bounds and a live signal and nothing else. */
  predicate Minimal(m: Request) {
    && m.batchSequence == 0 && m.heartbeats == [] && m.hostSamples == [] && m.probeObservations == []
    && m.ipQualityReports == [] && m.commandResults == [] && m.liveSignal.Some?
  }

  predicate AddsControl(before: seq<Exchange>, after: seq<Exchange>) {
    |after| == |before| + 1 && after[..|before|] == before && Minimal(after[|before|].message)
  }

  /** What a tick put on the wire. */
  predicate TickOk(base: seq<Exchange>, log: seq<Exchange>, m: Mark, a: Authority) {
    m.from == |base| &&
    match m
    case Control(_) => log == base || AddsControl(base, log)
    case Unstored(_) => log == base
    case Batch(_, es, x, done, whole) => RoundShape(base, log, Others(Retained(es, a), x.id), x.request, done, whole)
  }

  lemma BatchTick(base: seq<Exchange>, log: seq<Exchange>, m: Mark, a: Authority)
    requires m.Batch? && m.from == |base|
    requires RoundShape(base, log, Others(Retained(m.entries, a), m.current.id), m.current.request, m.done, m.whole)
    ensures TickOk(base, log, m, a)
  {
  }

  /** Where a tick put what was pending when it had drained the IP reports: in its batch, the first thing it claimed, or
      nowhere if it could not store one. */
  predicate Placed(m: Mark, was: seq<Claim>, claims: seq<Claim>, results: seq<CommandResult>, reports: seq<Fact>,
                   laterResults: seq<CommandResult>, laterReports: seq<Fact>)
  {
    match m
    case Control(_) => true
    case Unstored(_) => claims == was && laterResults == results && laterReports == reports
    case Batch(_, _, x, _, _) =>
      && |was| < |claims| && claims[|was|].Allocated? && claims[|was|].request == x.request
      && x.request.commandResults == results && Carried(x.request.ipQualityReports, reports)
  }

  /** It stays there. */
  lemma StillPlaced(m: Mark, was: Past, now: Past, later: Past, whole: bool, x: Entry, results: seq<CommandResult>,
                    reports: seq<Fact>,
                    laterResults: seq<CommandResult>, laterReports: seq<Fact>)
    requires m.Batch? && m.current == x && Stretch(now, later, whole, []) && Claimed(was.claims, now.claims, x)
    requires x.request.commandResults == results && Carried(x.request.ipQualityReports, reports)
    ensures Placed(m, was.claims, later.claims, results, reports, laterResults, laterReports)
  {
    assert later.claims[|was.claims|] == now.claims[|was.claims|];
  }

  /** Every batch that went out took the two oldest with it. */
  predicate AllWhole(marks: seq<Mark>) {
    forall i :: 0 <= i < |marks| && marks[i].Batch? && marks[i].done ==> marks[i].whole
  }

  /** While nobody asks for a back-off, none is in force. */
  lemma StillUnheld(a: Past, b: Past, c: Past, whole: bool, first: seq<Fact>, second: seq<Fact>, m: Mark,
                    marks: seq<Mark>)
    requires Stretch(a, b, true, first) && Stretch(b, c, whole, second)
    requires a.until == 0 && Quiet(a.log, b.log) ==> b.until == 0 && AllWhole(marks)
    requires m.Batch? && m.done && Unhindered(b, c) ==> m.whole
    ensures a.until == 0 && Quiet(a.log, c.log) ==> c.until == 0 && AllWhole(marks + [m])
  {
    assert forall i :: |a.log| <= i < |b.log| ==> c.log[i] == b.log[i];
  }

  /** A run of ticks, one after the other. */
  predicate TicksOk(base: seq<Exchange>, log: seq<Exchange>, marks: seq<Mark>, a: Authority)
    decreases |marks|
  {
    if marks == [] then log == base
    else
      var init, m := marks[..|marks| - 1], marks[|marks| - 1];
      m.from <= |log| && TicksOk(base, log[..m.from], init, a) && TickOk(log[..m.from], log, m, a)
  }

  lemma NoTicks(base: seq<Exchange>, a: Authority)
    ensures TicksOk(base, base, [], a) && AllWhole([])
  {
  }

  lemma OneMoreTick(base: seq<Exchange>, was: seq<Exchange>, log: seq<Exchange>, marks: seq<Mark>, m: Mark,
                    a: Authority)
    requires TicksOk(base, was, marks, a) && TickOk(was, log, m, a)
    ensures TicksOk(base, log, marks + [m], a)
  {
    assert (marks + [m])[..|marks|] == marks;
    TickExtends(was, log, m, a);
    assert log[..m.from] == was;
  }

  lemma TickExtends(base: seq<Exchange>, log: seq<Exchange>, m: Mark, a: Authority)
    requires TickOk(base, log, m, a)
    ensures base <= log
  {
    if m.Batch? {
      var backlog := Others(Retained(m.entries, a), m.current.id);
      var n :| 0 <= n <= 2 && n <= |backlog| && RoundOf(base, log, backlog, n, m.current.request);
      if !SentBacklog(base, log, backlog, n) {
        assert log[..|base| + n][..|base|] == log[..|base|];
      }
    }
  }

  // ----- enqueueing -----

  lemma StampedCarries(e: Envelope, request: Request)
    requires e.lastAllocated < MAX_INT64
    ensures Stamped(e, request).commandResults == request.commandResults
    ensures Carried(Stamped(e, request).ipQualityReports, request.ipQualityReports)
    ensures |Stamped(e, request).heartbeats| == |request.heartbeats|
  {
  }

  /** The tick's batch: the newest of a queue that is some newest part of the old one and the batch. */
  ghost predicate QueuedBehind(f: File, g: File, x: Entry) {
    && f.Snapshot? && g.Snapshot? && g.env.producerId == f.env.producerId
    && Newest(g.env.entries, f.env.entries + [x])
    && x.Seq() == f.env.lastAllocated + 1 && x.id == Identity(f.env.producerId, x.Seq())
  }

  /** The batch holds the request's items. */
  predicate Takes(stored: Request, request: Request) {
    stored.commandResults == request.commandResults && Carried(stored.ipQualityReports, request.ipQualityReports)
  }

  /** The newest claim is this batch. */
  predicate Claimed(was: seq<Claim>, claims: seq<Claim>, x: Entry) {
    |claims| == |was| + 1 && claims[|was|].Allocated? && claims[|was|].sequence == x.Seq() && claims[|was|].request == x.request
    && claims == was + [claims[|was|]]
  }

  /** A batch was stored behind the others and claimed. */
  ghost predicate BatchAdded(f: File, g: File, was: seq<Claim>, claims: seq<Claim>, x: Entry) {
    QueuedBehind(f, g, x) && |g.env.entries| > 0 && Claimed(was, claims, x) && claims[|was|].producer == g.env.producerId
  }

  lemma EnqueueClaimed(c: Config, w: World, op: Op)
    requires op.EnqueueBatch? && Succeeds(c, w.store, op)
    requires w.store.disk.visible.Snapshot? && w.store.disk.visible.env.lastAllocated < MAX_INT64
    ensures var e, was, claims := w.store.disk.visible.env, w.history.claims, Next(c, w, op).history.claims;
            Claimed(was, claims, NewEntry(e, op.request, op.now)) && claims[|was|].producer == e.producerId
  {
    EnqueueClaims(c, w, op);
  }

  /** A successful enqueue claims the batch it put at the end of the queue, with the request's items in it. */
  lemma EnqueueFacts(c: Config, w: World, op: Op)
    requires op.EnqueueBatch? && Succeeds(c, w.store, op)
    ensures w.store.disk.visible.Snapshot? && w.store.disk.visible.env.lastAllocated < MAX_INT64
    ensures var e, after := w.store.disk.visible.env, Next(c, w, op);
            var x := NewEntry(e, op.request, op.now);
            && BatchAdded(w.store.disk.visible, after.store.disk.visible, w.history.claims, after.history.claims, x)
            && Enqueue(c, w.store, op.request, op.now, op.pruneNow, op.io).result == Ok(x.id)
            && Takes(x.request, op.request)
  {
    EnqueueQueues(c, w.store, op);
    EnqueueClaimed(c, w, op);
    StampedCarries(w.store.disk.visible.env, op.request);
  }

  lemma StillBehind(f: File, g: File, k: File, x: Entry)
    requires QueuedBehind(f, g, x) && k.Snapshot? && k.env.producerId == g.env.producerId
    requires Newest(k.env.entries, g.env.entries)
    ensures QueuedBehind(f, k, x)
  {
  }

  lemma BehindWorkedOn(f: File, g: File, x: Entry, m: Mark)
    requires QueuedBehind(f, g, x) && m.Batch? && m.entries == g.env.entries && m.current == x
    ensures m.WorkedOn(f)
  {
  }

  /** The round after a queue listing: nothing, or a round of these entries around the one with this id. */
  predicate SentFor(base: seq<Exchange>, log: seq<Exchange>, es: seq<Entry>, id: string, a: Authority, done: bool,
                    whole: bool)
  {
    || (log == base && !done && !whole)
    || exists x :: x in es && x.id == id && RoundShape(base, log, Others(Retained(es, a), id), x.request, done, whole)
  }

  /** The current entry of that round is the batch just stored. */
  lemma CurrentIsNewest(f: File, g: File, x: Entry, base: seq<Exchange>, log: seq<Exchange>, a: Authority, done: bool,
                        whole: bool)
    requires QueuedBehind(f, g, x) && Accepts(g.env) && SentFor(base, log, g.env.entries, x.id, a, done, whole)
    ensures RoundShape(base, log, Others(Retained(g.env.entries, a), x.id), x.request, done, whole)
  {
    NothingSent(base, Others(Retained(g.env.entries, a), x.id), x.request);
    if !(log == base && !done && !whole) {
      var es := g.env.entries;
      var y :| y in es && y.id == x.id && RoundShape(base, log, Others(Retained(es, a), x.id), y.request, done, whole);
      var i :| 0 <= i < |es| && es[i] == y;
      assert es[|es| - 1] == x;
      IdsDistinct(g.env, i, |es| - 1);
    }
  }

  /** Everything the agent put on the wire is in order, and every batch it stored is accounted for. */
  lemma Overview(safe: iset<World>, w: World, log: seq<Exchange>, served: seq<Service>, next: int, last: int,
                 stopped: bool)
    requires Closed(safe) && Core(safe, w, log, served, next, last, stopped)
    ensures WiresOk(log) && Accounted(w.store.disk.visible, w.history, log, served)
  {
    assert Inv(w.store.disk, w.history);
    WiresAreOk(w.store.disk, w.history, log);
    AllAccounted(w.store.disk, w.history, log, served);
  }

  // ----- opening, closing and dying -----

  lemma OpenKeepsFirm(c: Config, s: Store, op: Op)
    requires op.Open? && !s.locked
    ensures var step := OpenSession(c, s, op.session, op.producer, op.io, op.second);
            && (s.poisoned || s.disk.Settled() ==> step.store.poisoned || step.store.disk.Settled())
            && (step.result.Ok? ==> step.store.locked && !step.store.poisoned)
            && (step.result.Err? ==> !step.store.locked)
  {
  }

  lemma OpenFacts(safe: iset<World>, c: Config, w: World, op: Op, log: seq<Exchange>, served: seq<Service>, next: int,
                  last: int, stopped: bool)
    requires Closed(safe) && Core(safe, w, log, served, next, last, stopped)
    requires op.Open? && Legal(w, op) && !w.store.locked
    ensures var step := OpenSession(c, w.store, op.session, op.producer, op.io, op.second);
            var after := Next(c, w, op);
            && after.store == step.store
            && Core(safe, after, log, served, if step.result.Ok? then 0 else next, last, stopped)
            && (step.result.Ok? ==>
                  Core(safe, after, log, served, 0, 0, stopped) && step.store.locked && !step.store.poisoned)
            && (step.result.Err? ==> !step.store.locked)
            && (w.store.poisoned ==> step.store.poisoned)
  {
    OpenKeepsFirm(c, w.store, op);
    StepJustified(safe, c, w, op, log, served);
    StillLogged(w.history.claims, [], log);
    assert w.history.claims + [] == w.history.claims;
  }

  lemma CloseFacts(safe: iset<World>, c: Config, w: World, log: seq<Exchange>, served: seq<Service>, next: int,
                   last: int, stopped: bool)
    requires Closed(safe) && Core(safe, w, log, served, next, last, stopped)
    ensures var after := Next(c, w, Shut);
            after.store == Close(w.store).store && Core(safe, after, log, served, next, last, stopped)
  {
    StepJustified(safe, c, w, Shut, log, served);
    assert w.history.claims + [] == w.history.claims;
  }

  /** A new process over the disk as it is, with whatever is in doubt about it. */
  lemma RestartFacts(safe: iset<World>, c: Config, w: World, log: seq<Exchange>, served: seq<Service>, next: int,
                     last: int, stopped: bool)
    requires Closed(safe) && Core(safe, w, log, served, next, last, stopped)
    ensures var after := Next(c, w, QueueRuns.Restart);
            && Core(safe, after, log, served, 0, 0, false) && after.store == Store(w.store.disk, false, "", false)
            && after.history.claims == w.history.claims
  {
    StepJustified(safe, c, w, QueueRuns.Restart, log, served);
    assert w.history.claims + [] == w.history.claims;
  }

  /** A new process over what a power loss left knows nothing of the old one's memory, and is bound by all it said. */
  lemma PowerLossFacts(safe: iset<World>, c: Config, w: World, file: File, log: seq<Exchange>, served: seq<Service>,
                       next: int, last: int, stopped: bool)
    requires Closed(safe) && Core(safe, w, log, served, next, last, stopped) && file in w.store.disk.survivors
    ensures var after := Next(c, w, PowerLoss(file));
            && Core(safe, after, log, served, 0, 0, false) && after.store == Store(Disk(file, {file}), false, "", false)
            && after.history.claims == w.history.claims
  {
    StepJustified(safe, c, w, PowerLoss(file), log, served);
    assert w.history.claims + [] == w.history.claims;
  }
}
