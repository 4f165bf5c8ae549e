/** The agent's sync loop over the replay queue (agent/runtime/runtime.go). */
module AgentRuntime {
  import opened Text
  import opened Envelopes
  import opened Pruning
  import opened FileStores
  import opened SyncProtocol
  import opened QueueObject
  import opened QueueRuns
  import opened QueueTheorems
  import opened AgentLog
  import opened AgentItems
  import opened AgentState

  // ----- the environment -----

  method AnyIo() returns (io: Io) {
    io := *;
  }

  class Runtime {
    const queue: FileStore
    var collectionStopped: bool
    var pendingResults: seq<CommandResult>
    var pendingIPReports: seq<Fact>
    var backlogRetryNotBefore: nat
    var nextLiveSequence: int64
    var lastLiveSequence: int64
    var fatal: bool

    ghost const safe: iset<World>
    ghost var w: World               // the queue and what was claimed of it
    ghost var log: seq<Exchange>     // every message handed to the center, with its answer
    ghost var served: seq<Service>
    ghost var items: Items
    ghost var collected: seq<Fact>   // every report the IP-quality manager handed over
    ghost var read: seq<nat>         // every time read from the clock

    /** The queue, the log and the live block agree with what was claimed. */
    ghost predicate Sound()
      reads this`w, this`log, this`served, this`nextLiveSequence, this`lastLiveSequence, this`collectionStopped, queue
    {
      && queue.cfg.Valid() && Closed(safe) && w.store == queue.State() && w in safe && Logged(w.history.claims, log)
      && (collectionStopped ==> Firm(w))
      && Core(safe, w, log, served, nextLiveSequence, lastLiveSequence, collectionStopped)
    }

    /** Every command result and IP report is accounted for. */
    ghost predicate Itemized()
      reads this`items, this`w, this`log, this`pendingResults, this`pendingIPReports, queue`poison
    {
      ItemsOk(items, w.history.claims, log, pendingResults, pendingIPReports) && (items.inDoubt ==> queue.poison)
    }

    ghost predicate Valid()
      reads this, queue
    {
      Sound() && Itemized() && (collectionStopped ==> pendingResults == [] && pendingIPReports == [])
    }

    ghost function Trail(): Past
      reads this`w, this`log, this`items, this`collectionStopped, this`backlogRetryNotBefore, this`read
    {
      Past(w.history.claims, log, items, collectionStopped, backlogRetryNotBefore, read)
    }

    /** The queue is open and nothing about it is in doubt: the only state in which anything is sent. */
    ghost predicate Serving()
      reads queue
    {
      queue.lock && !queue.poison && queue.disk.Settled()
    }

    /** The batch is in the queue file right now. */
    ghost predicate Stored(r: Request)
      reads queue
    {
      queue.disk.visible.Snapshot? && Holds(queue.disk.visible.env, r)
    }

    /** A new process over whatever earlier processes left on disk and on the wire. */
    constructor (opts: Options, json: Json, disk: Disk, ghost safe: iset<World>, ghost w: World,
                 ghost log: seq<Exchange>, ghost served: seq<Service>)
      requires json.Lawful() && Closed(safe) && Core(safe, w, log, served, 0, 0, false)
      requires w.store == Store(disk, false, "", false)
      ensures Valid() && fresh(queue) && !queue.lock && !queue.poison && !fatal
      ensures this.safe == safe && this.w == w && this.log == log && this.served == served
      ensures queue.cfg == Config(Normalized(opts), json)
    {
      queue := new FileStore(opts, json, disk);
      collectionStopped, pendingResults, pendingIPReports, backlogRetryNotBefore := false, [], [], 0;
      nextLiveSequence, lastLiveSequence, fatal := 0, 0, false;
      this.safe, this.w, this.log, this.served := safe, w, log, served;
      items, collected, read := NO_ITEMS.(born := |w.history.claims|), [], [];
    }

    /** The clock. Only here is it read. */
    method Now() returns (t: nat)
      modifies this`read
      ensures t > 0 && read == old(read) + [t]
    {
      t :| t > 0;
      read := read + [t];
    }

    // ----- queue operations, recorded in the history -----

    method DeleteEntries(ids: seq<string>, ghost why: Fate) returns (r: Outcome<()>)
      requires Valid() && Serving() && NamedFor(w.history.claims, log, served, queue.disk.visible, ids, why)
      modifies this`w, queue`disk, queue`poison
      ensures Valid() && (!queue.poison ==> Serving())
      ensures w.history.claims == old(w.history.claims)
      ensures r.Ok? ==> !queue.poison && DeletedFrom(old(queue.disk.visible), ids, queue.disk.visible)
    {
      hide Core, Closed, ItemsOk, Logged, Mutate, DeletedFrom, RightAsked, Justified;
      ghost var was := w;
      var io := AnyIo();
      r := queue.DeleteMany(ids, io);
      ghost var op := Change(Mutation.DeleteMany(set id | id in ids), why, io);
      w := Next(queue.cfg, was, op);
      DeletionFacts(queue.cfg, was, ids, why, io, log, served);
      StepKeepsCore(safe, queue.cfg, was, op, log, served, nextLiveSequence, lastLiveSequence, collectionStopped);
      CoreGives(safe, w, log, served, nextLiveSequence, lastLiveSequence, collectionStopped);
      assert was.history.claims + [] == was.history.claims;
    }

    method MarkAttempt(id: string) returns (r: Outcome<()>)
      requires Valid() && Serving()
      modifies this`w, queue`disk, queue`poison
      ensures Valid() && (!queue.poison ==> Serving())
      ensures w.history.claims == old(w.history.claims)
      ensures r.Ok? ==> !queue.poison
      ensures old(queue.disk.visible).Snapshot? ==> SameBatches(old(queue.disk.visible), queue.disk.visible)
    {
      hide Core, Closed, ItemsOk, Logged, Mutate, RightAsked, SameBatches;
      ghost var was := w;
      var io := AnyIo();
      r := queue.MarkAttempt(id, io);
      ghost var op := Change(Mutation.MarkAttempt(id), Cleared(0), io);
      w := Next(queue.cfg, was, op);
      MarkFacts(queue.cfg, was, id, io, log, served);
      StepKeepsCore(safe, queue.cfg, was, op, log, served, nextLiveSequence, lastLiveSequence, collectionStopped);
      CoreGives(safe, w, log, served, nextLiveSequence, lastLiveSequence, collectionStopped);
      assert was.history.claims + [] == was.history.claims;
    }

    method PruneQueue() returns (r: Outcome<()>)
      requires Valid() && Serving()
      modifies this`w, this`read, queue`disk, queue`poison
      ensures Valid() && (!queue.poison ==> Serving()) && old(read) <= read
      ensures w.history.claims == old(w.history.claims)
      ensures r.Ok? ==> !queue.poison && old(queue.disk.visible).Snapshot? && queue.disk.visible.Snapshot?
                        && queue.disk.visible.env.producerId == old(queue.disk.visible).env.producerId
                        && Newest(queue.disk.visible.env.entries, old(queue.disk.visible).env.entries)
    {
      hide Core, Closed, ItemsOk, Logged, Mutate, RightAsked, Newest;
      ghost var was := w;
      var io := AnyIo();
      var now := Now();
      r := queue.Prune(now, io);
      ghost var op := Change(Mutation.Prune(now), Cleared(0), io);
      w := Next(queue.cfg, was, op);
      PruneFacts(queue.cfg, was, now, io);
      StepKeepsCore(safe, queue.cfg, was, op, log, served, nextLiveSequence, lastLiveSequence, collectionStopped);
      CoreGives(safe, w, log, served, nextLiveSequence, lastLiveSequence, collectionStopped);
      assert was.history.claims + [] == was.history.claims;
    }

    /** Replaces the exhausted live block with a durably reserved one. */
    method ReserveBlock() returns (r: Outcome<()>)
      requires Valid() && Serving() && nextLiveSequence == 0
      modifies this`w, this`nextLiveSequence, this`lastLiveSequence, queue`disk, queue`poison
      ensures Valid() && (!queue.poison ==> Serving())
      ensures r.Ok? ==> !queue.poison && nextLiveSequence != 0
      ensures old(w.history.claims) <= w.history.claims
      ensures SameQueue(old(queue.disk.visible), queue.disk.visible)
    {
      hide Core, Closed, ItemsOk, Logged, Next, ReserveLive;
      var io := AnyIo();
      ReserveFacts(safe, queue.cfg, w, io, log, served, lastLiveSequence, collectionStopped);
      StepKeepsItems(queue.cfg, w, Reserve(LIVE_SEQUENCE_RESERVATION, io), items, log, pendingResults,
                     pendingIPReports);
      var block := queue.ReserveLiveSequences(LIVE_SEQUENCE_RESERVATION, io);
      w := Next(queue.cfg, w, Reserve(LIVE_SEQUENCE_RESERVATION, io));
      if block.Ok? {
        nextLiveSequence, lastLiveSequence := block.value.first, block.value.last;
      }
      CoreGives(safe, w, log, served, nextLiveSequence, lastLiveSequence, collectionStopped);
      r := if block.Ok? then Ok(()) else Err(block.error);
    }

    // ----- speaking to the center -----

    /** The center, answering anything at all. Only here does anything reach it. */
    method CallCenter(message: Request) returns (reply: Reply)
      modifies this`log
      ensures log == old(log) + [SyncProtocol.Exchange.Exchange(message, reply)]
    {
      reply := *;
      log := log + [SyncProtocol.Exchange.Exchange(message, reply)];
    }

    /** A live sequence above every one attached to a message so far, durably reserved. */
    method AttachLiveSignal(fingerprint: string) returns (r: Result<LiveSignal>)
      requires Valid() && Serving()
      modifies this`w, this`nextLiveSequence, this`lastLiveSequence, queue`disk, queue`poison
      ensures Valid() && (!queue.poison ==> Serving())
      ensures r.Done? ==> !queue.poison && Unused(w, r.value.sequence, nextLiveSequence)
      ensures old(w.history.claims) <= w.history.claims
      ensures r.Failed? ==> !r.failure.Policy?
      ensures SameQueue(old(queue.disk.visible), queue.disk.visible)
    {
      hide Closed, ItemsOk, Logged;
      if fingerprint == "" {
        return Failed(Local);
      }
      if nextLiveSequence == 0 {
        var block := ReserveBlock();
        if block.Err? {
          return Failed(Queue(block.error));
        }
      }
      var sequence := nextLiveSequence;
      TakeNext(safe, w, log, served, nextLiveSequence, lastLiveSequence, collectionStopped);
      nextLiveSequence := if sequence == lastLiveSequence then 0 else sequence + 1;
      return Done(LiveSignal(sequence, fingerprint));
    }

    /** refreshReplayState: the stored authority must match, and lends the message its current bounds. */
    method RefreshReplayState(message: Request) returns (r: Result<Request>)
      ensures r.Failed? ==> !r.failure.Policy?
      ensures r.Done? ==> queue.disk.visible.Snapshot? && r.value == Refreshed(message, queue.disk.visible.env)
    {
      var io := AnyIo();
      var state := queue.ReplayState(io);
      if state.Err? {
        return Failed(Queue(state.error));
      }
      var bounds := state.value;
      if message.sessionId != bounds.sessionId || (message.batchSequence > 0 && message.producerId != bounds.producerId) {
        return Failed(Local);
      }
      return Done(message.(protocolRevision := SYNC_PROTOCOL_REVISION, producerId := bounds.producerId,
                           allocatedThrough := bounds.allocatedThrough, retiredThrough := bounds.retiredThrough));
    }

    /** Handing a message to the center, whatever it answers. */
    method Ask(wire: Request) returns (reply: Reply)
      requires Valid() && Serving() && MaySay(queue.disk, w.history.claims, wire)
      requires wire.liveSignal.Some? ==> nextLiveSequence == 0 || wire.liveSignal.value.sequence < nextLiveSequence
      modifies this`w, this`log
      ensures Valid() && log == old(log) + [SyncProtocol.Exchange.Exchange(wire, reply)]
      ensures w.history.claims == old(w.history.claims) + [Said(wire.producerId, wire)]
    {
      hide Core, Closed, ItemsOk, Logged, Next, AboveIssued, Backs, MaySay;
      reply := CallCenter(wire);
      SayFacts(safe, queue.cfg, w, wire, old(log), served, nextLiveSequence, lastLiveSequence, collectionStopped,
               reply);
      SaidKeepsItems(queue.cfg, w, wire, items, old(log), reply, pendingResults, pendingIPReports);
      w := Next(queue.cfg, w, Say(wire));
      CoreGives(safe, w, log, served, nextLiveSequence, lastLiveSequence, collectionStopped);
    }

    /** One exchange with the center: the message is in the log with its answer, the answer is judged as it is, and the
        back-off is what the answer asks for. */
    method Exchange(wire: Request) returns (r: Result<Response>, now: nat)
      requires Valid() && Serving() && MaySay(queue.disk, w.history.claims, wire)
      requires wire.liveSignal.Some? ==> nextLiveSequence == 0 || wire.liveSignal.value.sequence < nextLiveSequence
      modifies this`w, this`log, this`read, this`backlogRetryNotBefore
      ensures Valid() && |log| == |old(log)| + 1 && log[..|old(log)|] == old(log)
      ensures log[|old(log)|].message == wire && r == Judge(log[|old(log)|])
      ensures now > 0 && read == old(read) + [now]
      ensures old(w.history.claims) <= w.history.claims && JustSaid(w.history.claims)
      ensures backlogRetryNotBefore == BackOff(old(backlogRetryNotBefore), log[|old(log)|].reply, now)
    {
      hide Core, Closed, ItemsOk, Logged, MaySay;
      var reply := Ask(wire);
      now := Now();
      if !reply.Answered? {
        if reply.RemoteFailure? && (reply.status == 429 || reply.status == 503) {
          var wait := if reply.retryAfter < SECOND || reply.retryAfter > 60 * SECOND then 5 * SECOND else reply.retryAfter;
          if now + wait > backlogRetryNotBefore {
            backlogRetryNotBefore := now + wait;
          }
        }
        return Failed(Policy(Classify(reply))), now;
      }
      if !Acknowledges(wire, reply.response) {
        return Failed(Policy(Terminal)), now;
      }
      return Done(reply.response.value), now;
    }

    /** transmitSyncRequest: refresh the advertised bounds from the stored state, send, and judge the answer.
        A batch is put on the wire only while it is still, and durably, stored. */
    method Transmit(message: Request, ghost stored: Option<Request>) returns (r: Result<Response>)
      requires Valid() && Serving() && Carries(message, stored) && (stored.Some? ==> Stored(stored.value))
      requires message.liveSignal.Some? ==> Unused(w, message.liveSignal.value.sequence, nextLiveSequence)
      modifies this`w, this`log, this`read, this`backlogRetryNotBefore
      ensures Valid()
      ensures log == old(log) || (queue.disk.visible.Snapshot? && |log| == |old(log)| + 1 && log[..|old(log)|] == old(log)
                                  && log[|old(log)|].message == Refreshed(message, queue.disk.visible.env))
      ensures log != old(log) && stored.Some? ==> AddsMessage(old(log), log, stored.value, message.liveSignal.Some?)
      ensures log == old(log) ==> r.Failed? && !r.failure.Policy?
      ensures log != old(log) ==> r == Judge(log[|old(log)|]) && JustSaid(w.history.claims)
      ensures old(w.history.claims) <= w.history.claims && old(read) <= read
      ensures BackOffKept(old(backlogRetryNotBefore), backlogRetryNotBefore, old(log), log)
    {
      hide Core, Closed, ItemsOk, Logged;
      var wire := RefreshReplayState(message);
      if wire.Failed? {
        return Failed(wire.failure);
      }
      WireMayBeSaid(safe, w, message, stored, nextLiveSequence);
      var answer, _ := Exchange(wire.value);
      r := answer;
    }

    /** syncRequest: backlog goes out marked as backfill, the current batch with a live signal. */
    method SyncRequest(entry: Entry, current: bool) returns (r: Result<Response>)
      requires Valid() && Serving() && Stored(entry.request)
      requires current ==> |entry.request.heartbeats| > 0
      modifies this`w, this`log, this`read, this`backlogRetryNotBefore, this`nextLiveSequence, this`lastLiveSequence
      modifies queue`disk, queue`poison
      ensures Valid() && (!queue.poison ==> Serving())
      ensures SameQueue(old(queue.disk.visible), queue.disk.visible)
      ensures log == old(log) || (AddsMessage(old(log), log, entry.request, current) && !queue.poison && r == Judge(log[|old(log)|]))
      ensures log == old(log) ==> r.Failed? && !r.failure.Policy?
      ensures old(w.history.claims) <= w.history.claims && (log != old(log) ==> JustSaid(w.history.claims))
      ensures old(read) <= read && BackOffKept(old(backlogRetryNotBefore), backlogRetryNotBefore, old(log), log)
    {
      hide Core, Closed, ItemsOk, Logged;
      if !current {
        r := Transmit(WithBackfilledFacts(entry.request, true), Some(entry.request));
        return;
      }
      var signal := AttachLiveSignal(entry.request.heartbeats[0].fingerprint);
      if signal.Failed? {
        return Failed(signal.failure);
      }
      SameQueueHolds(old(queue.disk.visible), queue.disk.visible, entry.request);
      r := Transmit(entry.request.(liveSignal := Some(signal.value)), Some(entry.request));
    }

    /** The last exchange is the last thing there was, and its plan has not been followed. */
    ghost predicate Unapplied()
      reads this`w, this`log, this`items
    {
      log != [] && JustSaid(w.history.claims) && DropsBefore(items.parts, |log| - 1)
    }

    /** A stop drops everything pending. */
    method DropPending()
      requires Itemized() && Logged(w.history.claims, log) && Unapplied() && StopAcked(log[|log| - 1])
      modifies this`items, this`pendingResults, this`pendingIPReports
      ensures Itemized() && pendingResults == [] && pendingIPReports == []
      ensures items == Leave(old(items), DroppedByStop(|log| - 1))
    {
      hide Core, Closed, ItemsOk, Logged;
      ItemsDropped(items, w.history.claims, log, pendingResults, pendingIPReports);
      items := Leave(items, DroppedByStop(|log| - 1));
      pendingResults, pendingIPReports := [], [];
    }

    method AddResult(result: CommandResult)
      requires Itemized()
      modifies this`pendingResults, this`items
      ensures Itemized() && pendingResults == old(pendingResults) + [result]
      ensures items == old(items).(results := old(items.results) + [result])
    {
      hide Core, Closed, ItemsOk, Logged;
      ItemsProduced(items, w.history.claims, log, pendingResults, pendingIPReports, [result], []);
      assert pendingIPReports + [] == pendingIPReports && items.reports + [] == items.reports;
      items, pendingResults := items.(results := items.results + [result]), pendingResults + [result];
    }

    method SetStopped(stop: bool)
      requires Sound() && Serving() && log != [] && Acked(log[|log| - 1])
      requires stop == log[|log| - 1].reply.response.value.stopCollection
      modifies this`collectionStopped
      ensures Sound() && collectionStopped == stop
    {
      hide Closed, ItemsOk;
      PlanKeepsCore(safe, w, log, served, nextLiveSequence, lastLiveSequence, collectionStopped, |log| - 1);
      collectionStopped := stop;
    }

    /** applySyncPlan, on the plan of an acknowledgement: a stop drops everything pending; otherwise an executed action
        leaves its result. */
    method ApplySyncPlan(response: Response)
      requires Valid() && Serving() && Unapplied() && Acked(log[|log| - 1])
      requires log[|log| - 1].reply.response == Some(response)
      modifies this`collectionStopped, this`pendingResults, this`pendingIPReports, this`items
      ensures Valid() && collectionStopped == response.stopCollection
      ensures if response.stopCollection then pendingResults == [] && pendingIPReports == []
              else pendingResults == WithResult(old(pendingResults), log[|log| - 1]) && pendingIPReports == old(pendingIPReports)
      ensures Applied(old(items), items, old(collectionStopped), collectionStopped, log[|log| - 1], |log| - 1, true)
    {
      hide Core, Closed, ItemsOk, Logged;
      SetStopped(response.stopCollection);
      if response.stopCollection {
        DropPending();
      } else if response.executed.Some? {
        AddResult(response.executed.value);
      }
    }

    /** Deletes one entry on the center's word. */
    method DropEntry(entry: Entry, ghost why: Fate) returns (r: Outcome<()>)
      requires Valid() && Serving() && Stored(entry.request) && entry.id == NameOf(queue.disk.visible, entry.request)
      requires Asked(why)
      requires Explains(w.history.claims, log, served, Key(queue.disk.visible.env.producerId, entry.Seq()), why)
      modifies this`w, queue`disk, queue`poison
      ensures Valid() && (!queue.poison ==> Serving())
      ensures w.history.claims == old(w.history.claims)
      ensures r.Ok? ==> !queue.poison && DroppedOne(old(queue.disk.visible), queue.disk.visible, entry.request)
    {
      hide Core, Closed, ItemsOk, Logged;
      NameFacts(safe, w, entry.request);
      r := DeleteEntries([entry.id], why);
    }

    /** The last exchange delivered this batch, under the authority of the queue file. */
    ghost predicate JustSent(r: Request, current: bool)
      reads this`w, this`log, this`items, queue
    {
      && Unapplied() && queue.disk.visible.Snapshot? && r.producerId == queue.disk.visible.env.producerId
      && Delivers(log[|log| - 1].message, r, current)
    }

    /** The center refused the batch: remember the attempt, and drop it only if its payload was rejected. */
    method HandleRefusal(entry: Entry, current: bool, action: Action) returns (r: Result<EntryOutcome>)
      requires Valid() && Serving() && Stored(entry.request) && entry.id == NameOf(queue.disk.visible, entry.request)
      requires JustSent(entry.request, current) && Judge(log[|log| - 1]) == Failed(Policy(action))
      modifies this`w, queue`disk, queue`poison
      ensures Valid() && (!queue.poison ==> Serving()) && w.history.claims == old(w.history.claims)
      ensures r.Done? ==>
        !queue.poison && PayloadRejected(log[|log| - 1]) && DroppedOne(old(queue.disk.visible), queue.disk.visible, entry.request)
      ensures r.Failed? && r.failure.Policy? ==>
                !queue.poison && r.failure.action == action != Discard && SameBatches(old(queue.disk.visible), queue.disk.visible)
    {
      hide Core, Closed, ItemsOk, Logged, DropsBefore;
      ghost var before := queue.disk.visible;
      var marked := MarkAttempt(entry.id);
      if marked.Err? {
        return Failed(Queue(marked.error));
      }
      if action != Discard {
        return Failed(Policy(action));
      }
      ghost var between := queue.disk.visible;
      JudgeMeans(log[|log| - 1]);
      var deleted := DropEntry(entry, Rejected(|log| - 1));
      if deleted.Err? {
        return Failed(Queue(deleted.error));
      }
      SameComposed(before, between, queue.disk.visible, entry.request);
      return Done(EntryDiscarded);
    }

    /** After a stop, everything still queued is deleted. */
    method ClearQueue() returns (r: Outcome<()>)
      requires Valid() && Serving() && JustSaid(w.history.claims) && log != [] && StopAcked(log[|log| - 1])
      modifies this`w, queue`disk, queue`poison
      ensures Valid() && (!queue.poison ==> Serving()) && w.history.claims == old(w.history.claims)
      ensures r.Ok? ==> !queue.poison && Keys(queue.disk.visible) == {}
    {
      hide Core, Closed, ItemsOk, Logged;
      var io := AnyIo();
      var listed := queue.List(io);
      if listed.Err? {
        return Err(listed.error);
      }
      var ids := IdsOf(listed.value);
      ghost var f := queue.disk.visible;
      ClearingFor(w.history.claims, log, served, f, ids);
      r := DeleteEntries(ids, Cleared(|log| - 1));
      if r.Ok? {
        DeletingAllEmpties(f, queue.disk.visible, ids);
      }
    }

    method IdsOf(entries: seq<Entry>) returns (ids: seq<string>)
      ensures forall x :: x in entries ==> x.id in ids
    {
      ids := [];
      for i := 0 to |entries|
        invariant forall k :: 0 <= k < i ==> entries[k].id in ids
      {
        ids := ids + [entries[i].id];
      }
    }

    /** The center acknowledged the batch: drop it, follow the plan, and on a stop clear the queue. */
    method HandleAcknowledgement(entry: Entry, current: bool, response: Response) returns (r: Result<EntryOutcome>)
      requires Valid() && Serving() && Stored(entry.request) && entry.id == NameOf(queue.disk.visible, entry.request)
      requires JustSent(entry.request, current) && Acked(log[|log| - 1])
      requires log[|log| - 1].reply.response == Some(response)
      modifies this`w, queue`disk, queue`poison
      modifies this`collectionStopped, this`pendingResults, this`pendingIPReports, this`items
      ensures Valid() && (!queue.poison ==> Serving()) && w.history.claims == old(w.history.claims)
      ensures r.Failed? ==> !r.failure.Policy?
      ensures r.Done? ==> !queue.poison && collectionStopped == response.stopCollection
      ensures Applied(old(items), items, old(collectionStopped), collectionStopped, log[|log| - 1], |log| - 1, r.Done?)
      ensures r.Done? ==> if collectionStopped then Keys(queue.disk.visible) == {}
                          else DroppedOne(old(queue.disk.visible), queue.disk.visible, entry.request)
    {
      hide Core, Closed, ItemsOk, Logged, Applied, DropsBefore;
      var deleted := DropEntry(entry, Acknowledged(|log| - 1));
      if deleted.Err? {
        NotApplied(items, collectionStopped, log[|log| - 1], |log| - 1);
        return Failed(Queue(deleted.error));
      }
      ghost var was, stopped := items, collectionStopped;
      ApplySyncPlan(response);
      AppliedLess(was, items, stopped, collectionStopped, log[|log| - 1], |log| - 1);
      if response.stopCollection {
        var cleared := ClearQueue();
        if cleared.Err? {
          return Failed(Queue(cleared.error));
        }
      }
      return Done(EntryAcknowledged);
    }

    /** What the answer to a transmitted batch means for its entry. */
    method HandleAnswer(entry: Entry, current: bool, response: Result<Response>) returns (r: Result<EntryOutcome>)
      requires Valid() && Serving() && !collectionStopped
      requires Stored(entry.request) && entry.id == NameOf(queue.disk.visible, entry.request)
      requires JustSent(entry.request, current) && response == Judge(log[|log| - 1])
      modifies this`w, queue`disk, queue`poison
      modifies this`collectionStopped, this`pendingResults, this`pendingIPReports, this`items
      ensures Valid() && (!queue.poison ==> Serving()) && w.history.claims == old(w.history.claims)
      ensures Applied(old(items), items, old(collectionStopped), collectionStopped, log[|log| - 1], |log| - 1,
                      r.Done? || r.failure.Policy?)
      ensures r.Done? || r.failure.Policy? ==> !queue.poison && (collectionStopped <==> StopAcked(log[|log| - 1]))
      ensures r.Done? ==> Acked(log[|log| - 1]) || PayloadRejected(log[|log| - 1])
      ensures r.Failed? && r.failure.Policy? ==> Verdict(log[|log| - 1]) == Some(r.failure.action)
      ensures Handled(old(queue.disk.visible), queue.disk.visible, entry.request, r, collectionStopped)
    {
      hide Core, Closed, ItemsOk, Logged, DropsBefore;
      JudgeMeans(log[|log| - 1]);
      if response.Failed? {
        r := HandleRefusal(entry, current, response.failure.action);
      } else if response.value.disposition == Deferred {
        SameEntriesSameBatches(queue.disk.visible.env, queue.disk.visible.env);
        r := Failed(Policy(Retry));
      } else {
        r := HandleAcknowledgement(entry, current, response.value);
      }
    }

    /** Sends a stored entry; whatever is then known about the answer, the entry is still stored. */
    method SendEntry(entry: Entry, current: bool) returns (r: Result<Response>)
      requires Valid() && Serving() && Stored(entry.request) && entry.id == NameOf(queue.disk.visible, entry.request)
      requires current ==> |entry.request.heartbeats| > 0
      modifies this`w, this`log, this`read, this`backlogRetryNotBefore, this`nextLiveSequence, this`lastLiveSequence
      modifies queue`disk, queue`poison
      ensures Valid() && (!queue.poison ==> Serving()) && SameQueue(old(queue.disk.visible), queue.disk.visible)
      ensures log == old(log) ==> r.Failed? && !r.failure.Policy?
      ensures log != old(log) ==>
        !queue.poison && AddsMessage(old(log), log, entry.request, current) && r == Judge(log[|old(log)|])
                                  && Stored(entry.request) && entry.id == NameOf(queue.disk.visible, entry.request)
                                  && JustSent(entry.request, current)
      ensures old(w.history.claims) <= w.history.claims && old(read) <= read
      ensures BackOffKept(old(backlogRetryNotBefore), backlogRetryNotBefore, old(log), log)
    {
      hide Core, Closed, ItemsOk, Logged, Delivers, DropsBefore, SameQueue, Holds, BackOffKept;
      ghost var before := queue.disk.visible;
      ProducerOf(safe, w, entry.request);
      DropsLogged(items, w.history.claims, log, pendingResults, pendingIPReports);
      r := SyncRequest(entry, current);
      SameQueueHolds(before, queue.disk.visible, entry.request);
    }

    /** flushSyncQueueEntry. Only a validated acknowledgement that is not deferred, an explicit payload rejection or a
        stop removes anything; every other answer leaves the same batches queued. */
    method FlushSyncQueueEntry(entry: Entry, current: bool) returns (r: Result<EntryOutcome>)
      requires Valid() && Serving() && !collectionStopped
      requires Stored(entry.request) && entry.id == NameOf(queue.disk.visible, entry.request)
      requires current ==> |entry.request.heartbeats| > 0
      modifies this`w, this`log, this`read, this`backlogRetryNotBefore, this`nextLiveSequence, this`lastLiveSequence
      modifies queue`disk, queue`poison
      modifies this`collectionStopped, this`pendingResults, this`pendingIPReports, this`items
      ensures Valid() && (!queue.poison ==> Serving())
      ensures log == old(log) || AddsMessage(old(log), log, entry.request, current)
      ensures r.Done? || r.failure.Policy? ==>
                && !queue.poison && AddsMessage(old(log), log, entry.request, current)
                && (collectionStopped <==> StopAcked(log[|old(log)|]))
      ensures r.Done? ==> Acked(log[|old(log)|]) || PayloadRejected(log[|old(log)|])
      ensures Handled(old(queue.disk.visible), queue.disk.visible, entry.request, r, collectionStopped)
      ensures Stretch(old(Trail()), Trail(), r.Done? || r.failure.Policy?, [])
      ensures Answerable(old(log), log, r)
      ensures backlogRetryNotBefore >= old(backlogRetryNotBefore)
    {
      hide Core, Closed, ItemsOk, Logged, Stretch, Blamed, Verdict, Applied, SameBatches, Delivers, StopAcked, Acked,
           PayloadRejected, Handled, Holds,
           DropsBefore, SameQueue;
      ghost var before, was := queue.disk.visible, Trail();
      var response := SendEntry(entry, current);
      if response.Failed? && !response.failure.Policy? {
        StandingStretch(was, Trail());
        r := Failed(response.failure);
        HandledNothing(before, queue.disk.visible, entry.request, r, collectionStopped);
        return;
      }
      ghost var between := queue.disk.visible;
      r := HandleAnswer(entry, current, response);
      HandledAfterSend(before, between, queue.disk.visible, entry.request, r, collectionStopped);
      ExchangeStretch(was, Trail(), r.Done? || r.failure.Policy?);
      if r.Failed? && r.failure.Policy? {
        BlamedLast(was.log, log, r.failure.action);
      }
    }

    /** discardStaleSyncQueueEntries: entries of another authority are deleted, the rest stay in order. */
    method DiscardStale(entries: seq<Entry>, authority: Authority) returns (r: Result<seq<Entry>>)
      requires Valid() && Serving() && queue.disk.visible.Snapshot? && queue.disk.visible.env.entries == entries
      requires NowServed(served, authority, |log|)
      modifies this`w, queue`disk, queue`poison
      ensures Valid() && (!queue.poison ==> Serving())
      ensures r.Failed? ==> !r.failure.Policy?
      ensures w.history.claims == old(w.history.claims)
      ensures r.Done? ==> !queue.poison && r.value == Retained(entries, authority)
                          && AllStored(queue.disk.visible, r.value) && OnlyThese(queue.disk.visible, r.value)
    {
      hide Core, Closed, ItemsOk, Logged;
      var retained: seq<Entry> := [];
      var stale: seq<string> := [];
      for i := 0 to |entries|
        invariant retained == Retained(entries[..i], authority)
      {
        assert entries[..i + 1][..i] == entries[..i];
        if Belongs(entries[i].request, authority) {
          retained := retained + [entries[i]];
        }
      }
      assert entries[..|entries|] == entries;
      var retainedIds := set x | x in retained :: x.id;
      for i := 0 to |entries|
        invariant forall id :: id in stale ==> id !in retainedIds && IsStale(entries, id, authority)
        invariant forall k :: 0 <= k < i ==>
          Belongs(entries[k].request, authority) || entries[k].id in stale || entries[k].id in retainedIds
      {
        if !Belongs(entries[i].request, authority) && entries[i].id !in retainedIds {
          stale := stale + [entries[i].id];
        }
      }
      ghost var f := queue.disk.visible;
      SafeAccepts(safe, w);
      RetainedStored(f, entries, authority);
      StaleComplete(f, entries, authority, stale, retainedIds);
      if stale == [] {
        return Done(retained);
      }
      NowInService(served, authority, |log|);
      StaleNamed(safe, w, log, served, stale, authority);
      var deleted := DeleteEntries(stale, Stale(authority, |log|));
      if deleted.Err? {
        return Failed(Queue(deleted.error));
      }
      DeletionKeepsUnnamed(f, queue.disk.visible, stale, retained);
      return Done(retained);
    }

    /** Sends backlog entry i. */
    method FlushBacklogEntry(backlog: seq<Entry>, current: Entry, i: nat,
                             ghost base: seq<SyncProtocol.Exchange>) returns (r: Result<Progress>)
      requires Valid() && Serving() && !collectionStopped
      requires i < |backlog| && DistinctSequences(backlog + [current]) && SentBacklog(base, log, backlog, i)
      requires NoStop(base, log)
      requires AllStored(queue.disk.visible, backlog[i..] + [current])
      modifies this`w, this`log, this`read, this`backlogRetryNotBefore, this`nextLiveSequence, this`lastLiveSequence
      modifies queue`disk, queue`poison
      modifies this`collectionStopped, this`pendingResults, this`pendingIPReports, this`items
      ensures Valid() && (!queue.poison ==> Serving())
      ensures |base| + i <= |log| <= |base| + i + 1 && SentBacklog(base, log, backlog, |log| - |base|)
      ensures NoneAfterStop(base, log)
      ensures r.Failed? ==> r.failure != Policy(Retry) && (r.failure.Policy? ==> !queue.poison)
      ensures r.Done? ==> !queue.poison && |log| == |base| + i + 1 && (r.value == Halted <==> collectionStopped)
      ensures r.Done? && !collectionStopped ==> NoStop(base, log)
      ensures Stretch(old(Trail()), Trail(), r.Done? || r.failure.Policy?, [])
      ensures Answerable(old(log), log, r)
      ensures backlogRetryNotBefore >= old(backlogRetryNotBefore)
      ensures r == Done(RetryLater) ==> AllStored(queue.disk.visible, [current]) && Blamed(old(log), log, Retry)
      ensures r == Done(GoOn) ==> AllStored(queue.disk.visible, backlog[i + 1..] + [current])
    {
      hide Core, Closed, ItemsOk, Logged, Stretch, Blamed, Verdict;
      ghost var f, was := queue.disk.visible, log;
      var entry := backlog[i];
      assert entry in backlog[i..] + [current];
      var flushed := FlushSyncQueueEntry(entry, false);
      SentOneMore(base, was, log, backlog, i);
      StopsLast(base, was, log);
      if flushed.Failed? {
        if flushed.failure == Policy(Retry) {
          StoredAfter(f, queue.disk.visible, entry.request, backlog[i..] + [current], [current]);
          return Done(RetryLater);
        }
        return Failed(flushed.failure);
      }
      if collectionStopped {
        return Done(Halted);
      }
      OthersDiffer(backlog, current, i);
      StoredAfter(f, queue.disk.visible, entry.request, backlog[i..] + [current], backlog[i + 1..] + [current]);
      return Done(GoOn);
    }

    /** The backlog part of a round: oldest first, at most two, stopping at a back-off, a retry or a stop. */
    method FlushBacklog(backlog: seq<Entry>, current: Entry) returns (r: Result<()>, retry: bool, ghost sent: nat)
      requires Valid() && Serving() && !collectionStopped
      requires AllStored(queue.disk.visible, backlog + [current]) && DistinctSequences(backlog + [current])
      modifies this`w, this`log, this`read, this`backlogRetryNotBefore, this`nextLiveSequence, this`lastLiveSequence
      modifies queue`disk, queue`poison
      modifies this`collectionStopped, this`pendingResults, this`pendingIPReports, this`items
      ensures Valid() && (!queue.poison ==> Serving())
      ensures sent <= MAX_BACKLOG_PER_ROUND && sent <= |backlog| && SentBacklog(old(log), log, backlog, sent)
      ensures NoneAfterStop(old(log), log)
      ensures r.Done? || r.failure.Policy? ==> !queue.poison
      ensures r.Done? && !collectionStopped ==> AllStored(queue.disk.visible, [current]) && NoStop(old(log), log)
      ensures retry ==> Blamed(old(log), log, Retry)
      ensures r.Done? && !collectionStopped && !retry ==>
                Unhindered(old(Trail()), Trail()) ==> sent == Turns(backlog)
      ensures Stretch(old(Trail()), Trail(), r.Done? || r.failure.Policy?, [])
      ensures Answerable(old(log), log, r)
    {
      hide Core, Closed, ItemsOk, Logged, Stretch, Blamed, Verdict, Unhindered, DistinctSequences, AllStored,
           SentBacklog, NoStop, NoneAfterStop;
      retry, sent := false, 0;
      ghost var base, was := log, Trail();
      StandingStretch(was, was);
      NothingSentYet(base, backlog);
      assert backlog[0..] == backlog;
      var i := 0;
      while i < |backlog| && i < MAX_BACKLOG_PER_ROUND
        invariant 0 <= i <= |backlog| && i <= MAX_BACKLOG_PER_ROUND && sent == i
        invariant Valid() && Serving() && !collectionStopped
        invariant AllStored(queue.disk.visible, backlog[i..] + [current])
        invariant SentBacklog(base, log, backlog, i) && NoStop(base, log)
        invariant Stretch(was, Trail(), true, [])
        decreases |backlog| - i
      {
        ghost var before := Trail();
        var ready, _ := BacklogReady();
        ghost var now := Trail();
        AskedBacklog(was, before, now);
        if !ready {
          break;
        }
        var step := FlushBacklogEntry(backlog, current, i, base);
        sent := |log| - |base|;
        StretchOn(was, now, Trail(), step.Done? || step.failure.Policy?, []);
        BlamedOn(was, now, Trail(), step.Done? || step.failure.Policy?);
        if step.Failed? {
          return Failed(step.failure), retry, sent;
        }
        if step.value != GoOn {
          return Done(()), step.value == RetryLater, sent;
        }
        i := i + 1;
      }
      r := Done(());
      NoStopAtAll(base, log);
      StoredAfter(queue.disk.visible, queue.disk.visible, current.request, backlog[i..] + [current], [current]);
    }

    /** Whether the back-off the center asked for is over at the time read; it gates only the backlog. */
    method BacklogReady() returns (ready: bool, now: nat)
      modifies this`read, this`backlogRetryNotBefore
      ensures read == old(read) + [now]
      ensures ready <==> old(backlogRetryNotBefore) == 0 || old(backlogRetryNotBefore) <= now
      ensures backlogRetryNotBefore == if ready then 0 else old(backlogRetryNotBefore)
    {
      now := Now();
      if backlogRetryNotBefore == 0 {
        return true, now;
      }
      if now < backlogRetryNotBefore {
        return false, now;
      }
      backlogRetryNotBefore := 0;
      return true, now;
    }

    /** Splits the retained entries into the current one and the backlog, keeping order. There is no current one exactly
        when none or several have its id. */
    method LocateCurrent(entries: seq<Entry>, currentId: string) returns (current: Option<Entry>, backlog: seq<Entry>)
      requires Ordered(entries)
      ensures backlog == Others(entries, currentId)
      ensures current.Some? ==>
        current.value in entries && current.value.id == currentId && DistinctSequences(backlog + [current.value])
      ensures current.None? <==> (forall i :: 0 <= i < |entries| ==> entries[i].id != currentId)
                                 || exists i, j :: 0 <= i < j < |entries| && entries[i].id == entries[j].id == currentId
    {
      current, backlog := None, [];
      ghost var at := 0;
      for i := 0 to |entries|
        invariant backlog == Others(entries[..i], currentId)
        invariant current.None? ==> forall k :: 0 <= k < i ==> entries[k].id != currentId
        invariant current.Some? ==> at < i && entries[at] == current.value && current.value.id == currentId
                                    && forall k :: 0 <= k < i && k != at ==> entries[k].id != currentId
      {
        assert entries[..i + 1][..i] == entries[..i];
        if entries[i].id != currentId {
          backlog := backlog + [entries[i]];
        } else if current.Some? {
          return None, Others(entries, currentId);
        } else {
          current, at := Some(entries[i]), i;
        }
      }
      assert entries[..|entries|] == entries;
      if current.Some? {
        OthersDistinct(entries, currentId, current.value);
      }
    }

    /** The listed entries of this authority, without the stale ones: the current one and the rest, oldest first. */
    method GatherRound(currentId: string, authority: Authority) returns (r: Result<(seq<Entry>, Entry)>)
      requires Valid() && Serving() && NowServed(served, authority, |log|)
      modifies this`w, queue`disk, queue`poison
      ensures Valid() && (!queue.poison ==> Serving()) && w.history.claims == old(w.history.claims)
      ensures r.Failed? ==> !r.failure.Policy?
      ensures r.Done? ==> !queue.poison && old(queue.disk.visible).Snapshot?
                          && r.value.0 == Others(Retained(old(queue.disk.visible).env.entries, authority), currentId)
                          && r.value.1 in old(queue.disk.visible).env.entries && r.value.1.id == currentId
      ensures r.Done? ==>
        AllStored(queue.disk.visible, r.value.0 + [r.value.1]) && DistinctSequences(r.value.0 + [r.value.1])
                          && |r.value.1.request.heartbeats| > 0
    {
      hide Core, Closed, ItemsOk, Logged, OnlyThese, AllStored, Retained, Others, DistinctSequences, Ordered, Accepts;
      var io := AnyIo();
      var listed := queue.List(io);
      if listed.Err? {
        return Failed(Queue(listed.error));
      }
      SafeAccepts(safe, w);
      RoundOrdered(queue.disk.visible.env, authority);
      var retained := DiscardStale(listed.value, authority);
      if retained.Failed? {
        return Failed(retained.failure);
      }
      var current, others := LocateCurrent(retained.value, currentId);
      if current.None? {
        return Failed(Local);
      }
      RoundStored(queue.disk.visible, listed.value, authority, current.value);
      return Done((others, current.value));
    }

    /** flushSyncQueue: the two oldest batches of this authority other than the current one, and only then that one. */
    method FlushSyncQueue(currentId: string, authority: Authority) returns (r: Result<()>)
      requires Valid() && Serving() && !collectionStopped && NowServed(served, authority, |log|)
      modifies this`w, this`log, this`read, this`backlogRetryNotBefore, this`nextLiveSequence, this`lastLiveSequence
      modifies queue`disk, queue`poison
      modifies this`collectionStopped, this`pendingResults, this`pendingIPReports, this`items
      ensures Valid() && (!queue.poison ==> Serving())
      ensures r.Done? || r.failure.Policy? ==> !queue.poison
      ensures if old(queue.disk.visible).Snapshot?
              then SentFor(old(log), log, old(queue.disk.visible).env.entries, currentId, authority,
                           r.Done? && !collectionStopped,
                           r.Done? && !collectionStopped && Unhindered(old(Trail()), Trail()))
              else log == old(log) && r.Failed?
      ensures Stretch(old(Trail()), Trail(), r.Done? || r.failure.Policy?, [])
      ensures Answerable(old(log), log, r)
    {
      hide Core, Closed, ItemsOk, Logged, Stretch, Blamed, Verdict, RoundShape, Unhindered, AllStored,
           DistinctSequences, Others, Retained;
      ghost var was := Trail();
      StandingStretch(was, was);
      var round := GatherRound(currentId, authority);
      if round.Failed? {
        return Failed(round.failure);
      }
      r := SendRound(round.value.0, round.value.1);
    }

    method SendRound(backlog: seq<Entry>, current: Entry) returns (r: Result<()>)
      requires Valid() && Serving() && !collectionStopped
      requires AllStored(queue.disk.visible, backlog + [current]) && DistinctSequences(backlog + [current])
      requires |current.request.heartbeats| > 0
      modifies this`w, this`log, this`read, this`backlogRetryNotBefore, this`nextLiveSequence, this`lastLiveSequence
      modifies queue`disk, queue`poison
      modifies this`collectionStopped, this`pendingResults, this`pendingIPReports, this`items
      ensures Valid() && (!queue.poison ==> Serving())
      ensures r.Done? || r.failure.Policy? ==> !queue.poison
      ensures RoundShape(old(log), log, backlog, current.request, r.Done? && !collectionStopped,
                         r.Done? && !collectionStopped && Unhindered(old(Trail()), Trail()))
      ensures Stretch(old(Trail()), Trail(), r.Done? || r.failure.Policy?, [])
      ensures Answerable(old(log), log, r)
    {
      hide Core, Closed, ItemsOk, Logged, Stretch, Blamed, Verdict;
      ghost var base, was := log, Trail();
      var flushed, retry, sent := FlushBacklog(backlog, current);
      ghost var now := Trail();
      CurrentLast(base, log, log, backlog, sent, current.request);
      if flushed.Failed? || collectionStopped {
        return flushed;
      }
      assert current in [current];
      r := SendCurrent(current, backlog, base, sent);
      StretchOn(was, now, Trail(), r.Done? || r.failure.Policy?, []);
      BlamedOn(was, now, Trail(), r.Done? || r.failure.Policy?);
      UnhinderedBefore(was, now, Trail(), r.Done? || r.failure.Policy?);
      if r.Done? && retry {
        r := Failed(Policy(Retry));
      }
    }

    /** The last send of a round. */
    method SendCurrent(current: Entry, ghost backlog: seq<Entry>, ghost base: seq<SyncProtocol.Exchange>,
                       ghost sent: nat) returns (r: Result<()>)
      requires Valid() && Serving() && !collectionStopped && AllStored(queue.disk.visible, [current])
      requires |current.request.heartbeats| > 0
      requires SentBacklog(base, log, backlog, sent) && sent <= 2 && NoStop(base, log)
      modifies this`w, this`log, this`read, this`backlogRetryNotBefore, this`nextLiveSequence, this`lastLiveSequence
      modifies queue`disk, queue`poison
      modifies this`collectionStopped, this`pendingResults, this`pendingIPReports, this`items
      ensures Valid() && (!queue.poison ==> Serving())
      ensures r.Done? || r.failure.Policy? ==> !queue.poison
      ensures RoundShape(base, log, backlog, current.request, r.Done?, r.Done? && sent == Turns(backlog))
      ensures r.Done? ==> |log| == |old(log)| + 1
      ensures Stretch(old(Trail()), Trail(), r.Done? || r.failure.Policy?, [])
      ensures Answerable(old(log), log, r)
      ensures backlogRetryNotBefore >= old(backlogRetryNotBefore)
    {
      hide Core, Closed, ItemsOk, Logged, Stretch, Blamed, Verdict;
      ghost var was := log;
      assert current in [current];
      var last := FlushSyncQueueEntry(current, true);
      CurrentLast(base, was, log, backlog, sent, current.request);
      return if last.Failed? then Failed(last.failure) else Done(());
    }

    /** acknowledgePendingPayloads: the first items of each pending list are safely queued. */
    method AcknowledgePendingPayloads(commandResults: nat, ipQualityReports: nat)
      modifies this`pendingResults, this`pendingIPReports
      ensures pendingResults == if commandResults >= |old(pendingResults)| then [] else old(pendingResults)[commandResults..]
      ensures pendingIPReports == if ipQualityReports >= |old(pendingIPReports)| then [] else old(pendingIPReports)[ipQualityReports..]
    {
      if commandResults >= |pendingResults| {
        pendingResults := [];
      } else if commandResults > 0 {
        pendingResults := pendingResults[commandResults..];
      }
      if ipQualityReports >= |pendingIPReports| {
        pendingIPReports := [];
      } else if ipQualityReports > 0 {
        pendingIPReports := pendingIPReports[ipQualityReports..];
      }
    }

    /** Enqueue: the batch returned is the newest in the queue and the newest claimed. */
    method EnqueueStep(request: Request) returns (r: Outcome<string>, ghost x: Entry)
      requires Valid() && queue.lock && !queue.poison
      modifies this`w, this`read, queue`disk, queue`poison
      ensures Sound() && (r.Ok? ==> Serving()) && old(read) <= read
      ensures r.Err? ==> w.history.claims == old(w.history.claims)
      ensures r.Ok? ==>
        !queue.poison && r.value == x.id && BatchAdded(old(queue.disk.visible), queue.disk.visible, old(w.history.claims), w.history.claims, x)
      ensures r.Ok? ==> Takes(x.request, request)
    {
      hide Core, Closed, ItemsOk, Logged, Enqueue, BatchAdded, Takes, NewEntry;
      var io := AnyIo();
      var now := Now();
      var pruneNow := Now();
      ghost var op := EnqueueBatch(request, now, pruneNow, io);
      StepKeepsCore(safe, queue.cfg, w, op, log, served, nextLiveSequence, lastLiveSequence, collectionStopped);
      x := Entry("", 0, 0, request);
      if Succeeds(queue.cfg, w.store, op) {
        EnqueueFacts(queue.cfg, w, op);
        x := NewEntry(w.store.disk.visible.env, request, now);
      }
      assert w.history.claims + [] == w.history.claims;
      r := queue.Enqueue(request, now, pruneNow, io);
      w := Next(queue.cfg, w, op);
      CoreGives(safe, w, log, served, nextLiveSequence, lastLiveSequence, collectionStopped);
    }

    /** The round's facts are queued, durably, before anything pending is forgotten. An ambiguous write keeps the items
        pending and marks them as possibly queued. */
    method StoreRound(request: Request) returns (r: Outcome<string>, ghost x: Entry)
      requires Valid() && queue.lock && !queue.poison
      requires request.commandResults == pendingResults && request.ipQualityReports == pendingIPReports
      modifies this`w, this`read, this`pendingResults, this`pendingIPReports, this`items, queue`disk, queue`poison
      ensures Valid() && old(read) <= read
      ensures r.Ok? ==>
        Serving() && r.value == x.id && BatchAdded(old(queue.disk.visible), queue.disk.visible, old(w.history.claims),
                                                   w.history.claims, x)
      ensures r.Ok? ==> Takes(x.request, request) && pendingResults == [] && pendingIPReports == []
                        && items == Leave(old(items), InBatch(|old(w.history.claims)|))
      ensures r.Err? ==> pendingResults == old(pendingResults) && pendingIPReports == old(pendingIPReports)
                         && items == old(items).(inDoubt := queue.poison) && w.history.claims == old(w.history.claims)
    {
      hide Core, Closed;
      ghost var f, was := queue.disk.visible, w.history.claims;
      r, x := EnqueueStep(request);
      if r.Ok? {
        ForgetStored(request, f, was, x);
      } else {
        KeepPending(was);
      }
    }

    /** Everything stays pending, in doubt if the write was ambiguous. */
    ghost method KeepPending(was: seq<Claim>)
      requires ItemsOk(items, was, log, pendingResults, pendingIPReports) && !items.inDoubt && w.history.claims == was
      modifies this`items
      ensures items == old(items).(inDoubt := queue.poison) && Itemized()
    {
      ItemsInDoubt(items, was, log, pendingResults, pendingIPReports, queue.poison);
      items := items.(inDoubt := queue.poison);
    }

    /** Everything pending is in the batch just claimed, and no longer pending. */
    method ForgetStored(request: Request, ghost f: File, ghost was: seq<Claim>, ghost x: Entry)
      requires ItemsOk(items, was, log, pendingResults, pendingIPReports) && !items.inDoubt && Logged(was, log)
      requires BatchAdded(f, queue.disk.visible, was, w.history.claims, x) && Takes(x.request, request)
      requires request.commandResults == pendingResults && request.ipQualityReports == pendingIPReports
      modifies this`items, this`pendingResults, this`pendingIPReports
      ensures items == Leave(old(items), InBatch(|was|))
      ensures Itemized() && pendingResults == [] && pendingIPReports == []
    {
      hide Core, Closed, ItemsOk, Logged;
      ItemsStored(items, was, w.history.claims[|was|], log, pendingResults, pendingIPReports);
      items := Leave(items, InBatch(|was|));
      AcknowledgePendingPayloads(|request.commandResults|, |request.ipQualityReports|);
    }

    /** enqueueAndFlush: everything pending is in the batch stored, which is the current one of the round that follows.
        */
    method EnqueueAndFlush(request: Request, authority: Authority) returns (r: Result<()>, ghost mark: Mark)
      requires Valid() && queue.lock && !queue.poison && !collectionStopped && NowServed(served, authority, |log|)
      requires request.commandResults == pendingResults && request.ipQualityReports == pendingIPReports
      modifies this`w, this`log, this`read, this`backlogRetryNotBefore, this`nextLiveSequence, this`lastLiveSequence
      modifies queue`disk, queue`poison
      modifies this`collectionStopped, this`pendingResults, this`pendingIPReports, this`items
      ensures Valid()
      ensures r.Done? || r.failure.Policy? ==> !queue.poison
      ensures TickOk(old(log), log, mark, authority) && !mark.Control?
      ensures r.Done? && !collectionStopped ==> mark.Batch? && mark.done
      ensures mark.Batch? ==> mark.WorkedOn(old(queue.disk.visible))
      ensures mark.Batch? && mark.done && Unhindered(old(Trail()), Trail()) ==> mark.whole
      ensures Placed(mark, old(w.history.claims), w.history.claims, old(pendingResults), old(pendingIPReports),
                     pendingResults, pendingIPReports)
      ensures Stretch(old(Trail()), Trail(), r.Done? || r.failure.Policy?, [])
      ensures Answerable(old(log), log, r)
    {
      hide Core, Closed, ItemsOk, Logged, Stretch, Blamed, Verdict;
      mark := Unstored(|log|);
      ghost var f, was := queue.disk.visible, Trail();
      ghost var results, reports := pendingResults, pendingIPReports;
      var stored, x := StoreRound(request);
      ghost var now := Trail();
      StoringStretch(was, now);
      if stored.Err? {
        r := Failed(Queue(stored.error));
        return;
      }
      r, mark := FlushStored(stored.value, authority, f, x);
      StretchOn(was, now, Trail(), r.Done? || r.failure.Policy?, []);
      AfterStoring(was, now, Trail(), r.Done? || r.failure.Policy?);
      StillPlaced(mark, was, now, Trail(), r.Done? || r.failure.Policy?, x, results, reports, pendingResults,
                  pendingIPReports);
    }

    /** Prune, then flush around the batch just stored. */
    method FlushStored(id: string, authority: Authority, ghost f: File, ghost x: Entry) returns (r: Result<()>, ghost mark: Mark)
      requires Valid() && Serving() && !collectionStopped && NowServed(served, authority, |log|)
      requires id == x.id && queue.disk.visible.Snapshot? && QueuedBehind(f, queue.disk.visible, x)
      modifies this`w, this`log, this`read, this`backlogRetryNotBefore, this`nextLiveSequence, this`lastLiveSequence
      modifies queue`disk, queue`poison
      modifies this`collectionStopped, this`pendingResults, this`pendingIPReports, this`items
      ensures Valid()
      ensures r.Done? || r.failure.Policy? ==> !queue.poison
      ensures TickOk(old(log), log, mark, authority) && mark.Batch? && mark.current == x && mark.WorkedOn(f)
      ensures r.Done? && !collectionStopped ==> mark.done
      ensures mark.done && Unhindered(old(Trail()), Trail()) ==> mark.whole
      ensures Stretch(old(Trail()), Trail(), r.Done? || r.failure.Policy?, [])
      ensures Answerable(old(log), log, r)
    {
      hide Core, Closed, ItemsOk, Logged, Stretch, Blamed, Verdict, RoundShape, SentFor, TickOk, Unhindered,
           QueuedBehind, Retained, Others, Newest, Accepts, Mark.WorkedOn;
      ghost var g, base, was := queue.disk.visible, log, Trail();
      mark := Batch(|base|, g.env.entries, x, false, false);
      BehindWorkedOn(f, g, x, mark);
      NothingSent(base, Others(Retained(g.env.entries, authority), x.id), x.request);
      BatchTick(base, base, mark, authority);
      var pruned := PruneQueue();
      ghost var now := Trail();
      StandingStretch(was, now);
      if pruned.Err? {
        r := Failed(Queue(pruned.error));
        return;
      }
      ghost var k := queue.disk.visible;
      StillBehind(f, g, k, x);
      SafeAccepts(safe, w);
      r := FlushSyncQueue(id, authority);
      StretchOn(was, now, Trail(), r.Done? || r.failure.Policy?, []);
      AfterStoring(was, now, Trail(), r.Done? || r.failure.Policy?);
      mark := Batch(|base|, k.env.entries, x, r.Done? && !collectionStopped,
                    r.Done? && !collectionStopped && Unhindered(now, Trail()));
      CurrentIsNewest(f, k, x, base, log, authority, mark.done, mark.whole);
      BatchTick(base, log, mark, authority);
      BehindWorkedOn(f, k, x, mark);
    }

    /** A control message: a live signal and the stored bounds. */
    method TransmitControl(request: Request, fingerprint: string) returns (r: Result<Response>)
      requires Valid() && Serving() && Minimal(request.(liveSignal := Some(LiveSignal(0, ""))))
      modifies this`w, this`log, this`read, this`backlogRetryNotBefore, this`nextLiveSequence, this`lastLiveSequence
      modifies queue`disk, queue`poison
      ensures Valid() && (!queue.poison ==> Serving())
      ensures log == old(log) || (AddsControl(old(log), log) && !queue.poison && r == Judge(log[|old(log)|]))
      ensures log == old(log) ==> r.Failed? && !r.failure.Policy?
      ensures old(w.history.claims) <= w.history.claims && (log != old(log) ==> JustSaid(w.history.claims))
      ensures old(read) <= read && BackOffKept(old(backlogRetryNotBefore), backlogRetryNotBefore, old(log), log)
    {
      hide Core, Closed, ItemsOk, Logged;
      var signal := AttachLiveSignal(fingerprint);
      if signal.Failed? {
        return Failed(signal.failure);
      }
      r := Transmit(request.(liveSignal := Some(signal.value)), None);
    }

    /** sendControl: while collection is stopped only a minimal control message goes out, never a batch. */
    method SendControl(request: Request, fingerprint: string) returns (r: Result<()>)
      requires Valid() && queue.lock && !queue.poison && collectionStopped
      requires Minimal(request.(liveSignal := Some(LiveSignal(0, ""))))
      modifies this`w, this`log, this`read, this`backlogRetryNotBefore, this`nextLiveSequence, this`lastLiveSequence
      modifies queue`disk, queue`poison
      modifies this`collectionStopped, this`pendingResults, this`pendingIPReports, this`items
      ensures Valid()
      ensures log == old(log) || AddsControl(old(log), log)
      ensures r.Done? || r.failure.Policy? ==> !queue.poison
      ensures Stretch(old(Trail()), Trail(), r.Done? || r.failure.Policy?, [])
      ensures Answerable(old(log), log, r)
      ensures backlogRetryNotBefore >= old(backlogRetryNotBefore)
      ensures r.Done? ==>
        |log| == |old(log)| + 1 && Acked(log[|old(log)|]) && collectionStopped == StopAcked(log[|old(log)|])
    {
      hide Core, Closed, ItemsOk, Logged, Stretch, Blamed, Verdict, Applied, Minimal, Judge, Acked, DropsBefore;
      ghost var was := Trail();
      DropsLogged(items, w.history.claims, log, pendingResults, pendingIPReports);
      var response := TransmitControl(request, fingerprint);
      if log != was.log {
        JudgeMeans(log[|was.log|]);
      }
      UnappliedStretch(was, Trail());
      if response.Failed? {
        if response.failure.Policy? {
          BlamedLast(was.log, log, response.failure.action);
        }
        return Failed(response.failure);
      }
      if response.value.disposition != Suppressed {
        return Failed(Local);
      }
      ApplySyncPlan(response.value);
      ExchangeStretch(was, Trail(), true);
      return Done(());
    }

    /** What the IP-quality manager has waiting. Only here is anything taken from it. */
    method DrainReports() returns (reports: seq<Fact>)
      modifies this`collected
      ensures collected == old(collected) + reports
    {
      reports := *;
      collected := collected + reports;
    }

    /** buildSyncRequest: newly drained IP reports join the pending ones, and everything pending rides along. */
    method BuildSyncRequest(authority: Authority) returns (request: Request, drained: seq<Fact>)
      requires Valid()
      modifies this`pendingIPReports, this`items, this`collected
      ensures Valid() && collected == old(collected) + drained && (collectionStopped ==> drained == [])
      ensures pendingIPReports == old(pendingIPReports) + Filled(drained, authority.fingerprint)
      ensures items == old(items).(reports := items.reports) && old(items.reports) <= items.reports
      ensures items.reports[|old(items.reports)|..] == Filled(drained, authority.fingerprint)
      ensures !collectionStopped ==>
        request.commandResults == pendingResults && request.ipQualityReports == pendingIPReports
                                     && |request.heartbeats| == 1
                                     && request.heartbeats[0].fingerprint == authority.fingerprint
      ensures collectionStopped ==> Minimal(request.(liveSignal := Some(LiveSignal(0, ""))))
      ensures request.sessionId == SessionOf(authority.syncToken) && request.batchSequence == 0
    {
      hide Core, Closed, ItemsOk, Logged;
      var hostSamples, probes, body := AnyFacts();
      drained := [];
      request := Request(0, "", 0, 0, 0, SessionOf(authority.syncToken), None, authority.monitoringInstanceId,
                         authority.syncToken, [], [], [], [], []);
      if collectionStopped {
        return;
      }
      drained := DrainReports();
      var filled := Filled(drained, authority.fingerprint);
      ItemsProduced(items, w.history.claims, log, pendingResults, pendingIPReports, [], filled);
      assert pendingResults + [] == pendingResults && items.results + [] == items.results;
      items, pendingIPReports := items.(reports := items.reports + filled), pendingIPReports + filled;
      request := request.(heartbeats := [Fact(body, authority.fingerprint, "", false)], hostSamples := hostSamples,
                          probeObservations := probes, ipQualityReports := pendingIPReports, commandResults := pendingResults);
    }

    /** One tick of the loop in Run. What was pending and what it drained is in the batch it stored, or still pending if
        it could store none; the results of the plans it followed are recorded; a stop drops what is pending then. */
    method Tick(authority: Authority) returns (r: Result<()>, ghost mark: Mark)
      requires Valid() && queue.lock && !queue.poison && NowServed(served, authority, |log|)
      modifies this`w, this`log, this`read, this`backlogRetryNotBefore, this`nextLiveSequence, this`lastLiveSequence
      modifies queue`disk, queue`poison
      modifies this`collectionStopped, this`pendingResults, this`pendingIPReports, this`items, this`collected
      ensures Valid()
      ensures r.Done? || r.failure.Policy? ==> !queue.poison
      ensures TickOk(old(log), log, mark, authority) && (mark.Control? <==> old(collectionStopped))
      ensures Answerable(old(log), log, r)
      ensures r.Done? && !old(collectionStopped) && !collectionStopped ==> mark.Batch? && mark.done
      ensures r.Done? && old(collectionStopped) ==> |log| == |old(log)| + 1 && Acked(log[|old(log)|])
      ensures mark.Batch? ==> mark.WorkedOn(old(queue.disk.visible))
      ensures mark.Batch? && mark.done && Unhindered(old(Trail()), Trail()) ==> mark.whole
      ensures old(collected) <= collected
      ensures var drained := Filled(collected[|old(collected)|..], authority.fingerprint);
              && Stretch(old(Trail()), Trail(), r.Done? || r.failure.Policy?, drained)
              && Placed(mark, old(w.history.claims), w.history.claims, old(pendingResults),
                        old(pendingIPReports) + drained,
                        pendingResults, pendingIPReports)
    {
      hide Core, Closed, ItemsOk, Logged, Stretch, Blamed, Verdict;
      ghost var was := Trail();
      var request, drained := BuildSyncRequest(authority);
      ghost var now, filled := Trail(), Filled(drained, authority.fingerprint);
      assert collected[|old(collected)|..] == drained;
      DrainingStretch(was, now, filled);
      if collectionStopped {
        mark := Control(|log|);
        r := SendControl(request, authority.fingerprint);
      } else {
        r, mark := EnqueueAndFlush(request, authority);
      }
      StretchOn(was, now, Trail(), r.Done? || r.failure.Policy?, filled);
    }

    method OpenQueue(session: string, producer: string) returns (r: Outcome<()>)
      requires Valid() && !queue.lock && ValidProducerId(producer) && producer !in w.history.minted
      modifies this`w, this`nextLiveSequence, this`lastLiveSequence, queue
      ensures Valid() && (r.Ok? ==> queue.lock && !queue.poison) && (r.Err? ==> !queue.lock)
      ensures w.history.claims == old(w.history.claims)
    {
      hide Core, Closed, ItemsOk, Logged;
      var io := AnyIo();
      var second: Write := *;
      ghost var op := Open(session, producer, io, second);
      OpenFacts(safe, queue.cfg, w, op, log, served, nextLiveSequence, lastLiveSequence, collectionStopped);
      StepKeepsItems(queue.cfg, w, op, items, log, pendingResults, pendingIPReports);
      r := queue.OpenSession(session, producer, io, second);
      w := Next(queue.cfg, w, op);
      if r.Ok? {
        nextLiveSequence, lastLiveSequence := 0, 0;
      }
      CoreGives(safe, w, log, served, nextLiveSequence, lastLiveSequence, collectionStopped);
    }

    method CloseQueue()
      requires Valid()
      modifies this`w, queue`lock, queue`session
      ensures Valid() && !queue.lock && w.history.claims == old(w.history.claims)
    {
      hide Core, Closed, ItemsOk, Logged;
      CloseFacts(safe, queue.cfg, w, log, served, nextLiveSequence, lastLiveSequence, collectionStopped);
      StepKeepsItems(queue.cfg, w, Shut, items, log, pendingResults, pendingIPReports);
      var r := queue.Close();
      w := Next(queue.cfg, w, Shut);
      CoreGives(safe, w, log, served, nextLiveSequence, lastLiveSequence, collectionStopped);
    }

    /** The loop of Run: tick until cancelled or failed. */
    method TickUntil(authority: Authority, ticks: nat) returns (clean: bool, ghost marks: seq<Mark>)
      requires Valid() && queue.lock && !queue.poison && NowServed(served, authority, |log|)
      modifies this`w, this`log, this`read, this`backlogRetryNotBefore, this`nextLiveSequence, this`lastLiveSequence
      modifies queue`disk, queue`poison
      modifies this`collectionStopped, this`pendingResults, this`pendingIPReports, this`items, this`collected
      ensures Valid() && (clean ==> !queue.poison)
      ensures TicksOk(old(log), log, marks, authority) && old(collected) <= collected
      ensures Stretch(old(Trail()), Trail(), clean, Filled(collected[|old(collected)|..], authority.fingerprint))
      ensures old(backlogRetryNotBefore) == 0 && Quiet(old(log), log) ==> AllWhole(marks)
    {
      hide Core, Closed, ItemsOk, Logged, Stretch, Blamed, Verdict, TicksOk, TickOk, AllWhole, Quiet, Placed,
           Unhindered;
      ghost var was := Trail();
      StandingStretch(was, was);
      NoTicks(log, authority);
      assert collected[|collected|..] == [] && Filled([], authority.fingerprint) == [];
      clean, marks := true, [];
      var n := 0;
      while n < ticks && clean
        invariant Valid() && NowServed(served, authority, |log|)
        invariant clean ==> queue.lock && !queue.poison
        invariant TicksOk(was.log, log, marks, authority) && old(collected) <= collected
        invariant Stretch(was, Trail(), clean, Filled(collected[|old(collected)|..], authority.fingerprint))
        invariant was.until == 0 && Quiet(was.log, log) ==> backlogRetryNotBefore == 0 && AllWhole(marks)
        decreases ticks - n
      {
        ghost var now, had := Trail(), collected;
        var round, mark := Tick(authority);
        ghost var first, second := had[|old(collected)|..], collected[|had|..];
        assert collected[|old(collected)|..] == first + second;
        clean := round.Done? || round.failure == Policy(Retry);
        OneTick(was, now, Trail(), round.Done? || round.failure.Policy?, clean, first, second, mark, marks, authority);
        marks := marks + [mark];
        n := n + 1;
      }
    }

    /** Run: a latched durability error ends it at once; otherwise open, tick until cancelled or failed, close.
        An ambiguous write anywhere in it latches the error for every later Run of this process. Whatever happens, what
        went over the wire is in order, it went out tick by tick, every batch is accounted for, and so is everything
        pending, drained or executed. */
    method Run(authority: Authority, producer: string, ticks: nat) returns (clean: bool, ghost marks: seq<Mark>)
      requires Valid() && !queue.lock && (queue.poison ==> fatal)
      requires ValidProducerId(producer) && producer !in w.history.minted
      modifies this`w, this`log, this`read, this`backlogRetryNotBefore, this`nextLiveSequence, this`lastLiveSequence
      modifies this`served
      modifies this`collectionStopped, this`pendingResults, this`pendingIPReports, this`items, this`collected
      modifies this`fatal, queue
      ensures Valid() && !queue.lock && (queue.poison ==> fatal)
      ensures WiresOk(log) && TicksOk(old(log), log, marks, authority)
      ensures Accounted(queue.disk.visible, w.history, log, served)
      ensures served == old(served) || served == old(served) + [Service(authority, |old(log)|)]
      ensures old(collected) <= collected
      ensures Stretch(old(Trail()), Trail(), clean, Filled(collected[|old(collected)|..], authority.fingerprint))
      ensures old(backlogRetryNotBefore) == 0 && Quiet(old(log), log) ==> AllWhole(marks)
      ensures old(fatal) ==> fatal && !clean && w == old(w) && log == old(log) && items == old(items)
                             && pendingResults == old(pendingResults) && pendingIPReports == old(pendingIPReports)
    {
      hide Core, Closed, ItemsOk, Logged, Stretch, Blamed, Verdict, TicksOk, WiresOk, Accounted, AllWhole, Quiet,
           NowServed, Filled, ValidProducerId, SessionOf;
      marks := [];
      StandingStretch(Trail(), Trail());
      NoTicks(log, authority);
      NoneFilled(authority.fingerprint);
      assert collected[|collected|..] == [];
      Overview(safe, w, log, served, nextLiveSequence, lastLiveSequence, collectionStopped);
      if fatal {
        return false, marks;
      }
      Serve(authority);
      var admitted := OpenQueue(SessionOf(authority.syncToken), producer);
      if admitted.Err? {
        fatal := queue.poison;
        Overview(safe, w, log, served, nextLiveSequence, lastLiveSequence, collectionStopped);
        return false, marks;
      }
      clean, marks := TickUntil(authority, ticks);
      EndRun();
    }

    /** Close the queue, and latch the error if its state is in doubt. */
    method EndRun()
      requires Valid()
      modifies this`w, this`fatal, queue`lock, queue`session
      ensures Valid() && !queue.lock && fatal == queue.poison && w.history.claims == old(w.history.claims)
      ensures WiresOk(log) && Accounted(queue.disk.visible, w.history, log, served)
    {
      hide Core, Closed, ItemsOk, Logged, WiresOk, Accounted;
      CloseQueue();
      fatal := queue.poison;
      Overview(safe, w, log, served, nextLiveSequence, lastLiveSequence, collectionStopped);
    }

    /** From here on this authority's word decides which batches are stale. */
    ghost method Serve(authority: Authority)
      requires Valid()
      modifies this`served
      ensures Valid() && served == old(served) + [Service(authority, |log|)] && NowServed(served, authority, |log|)
    {
      StillJustified(w.history.claims, [], w.history.fates, log, log, served, served + [Service(authority, |log|)]);
      assert w.history.claims + [] == w.history.claims;
      served := served + [Service(authority, |log|)];
    }
  }

  method AnyFacts() returns (hostSamples: seq<Fact>, probes: seq<Fact>, body: string) {
    hostSamples, probes, body := *, *, *;
  }

  /** Reports without a fingerprint get the agent's. */
  function Filled(reports: seq<Fact>, fingerprint: string): seq<Fact> {
    seq(|reports|, i requires 0 <= i < |reports| =>
      if reports[i].fingerprint == "" then reports[i].(fingerprint := fingerprint) else reports[i])
  }

  /** One more tick of a run of ticks. */
  lemma OneTick(a: Past, b: Past, c: Past, whole: bool, clean: bool, first: seq<Fact>, second: seq<Fact>, m: Mark,
                marks: seq<Mark>, served: Authority)
    requires Stretch(a, b, true, Filled(first, served.fingerprint))
    requires Stretch(b, c, whole, Filled(second, served.fingerprint)) && (clean ==> whole)
    requires TicksOk(a.log, b.log, marks, served) && TickOk(b.log, c.log, m, served)
    requires a.until == 0 && Quiet(a.log, b.log) ==> b.until == 0 && AllWhole(marks)
    requires m.Batch? && m.done && Unhindered(b, c) ==> m.whole
    ensures Stretch(a, c, clean, Filled(first + second, served.fingerprint)) && |b.log| <= |c.log|
    ensures TicksOk(a.log, c.log, marks + [m], served)
    ensures a.until == 0 && Quiet(a.log, c.log) ==> c.until == 0 && AllWhole(marks + [m])
  {
    StretchJoin(a, b, c, whole, Filled(first, served.fingerprint), Filled(second, served.fingerprint));
    FilledJoin(first, second, served.fingerprint);
    StretchLess(a, c, whole, clean, Filled(first + second, served.fingerprint));
    OneMoreTick(a.log, b.log, c.log, marks, m, served);
    StillUnheld(a, b, c, whole, Filled(first, served.fingerprint), Filled(second, served.fingerprint), m, marks);
  }

  lemma NoneFilled(fingerprint: string)
    ensures Filled([], fingerprint) == []
  {
  }

  lemma FilledJoin(a: seq<Fact>, b: seq<Fact>, fingerprint: string)
    ensures Filled(a + b, fingerprint) == Filled(a, fingerprint) + Filled(b, fingerprint)
  {
  }

  /** The part of the sync token before its first dot. */
  function SessionOf(token: string): string {
    if token == [] || token[0] == '.' then [] else [token[0]] + SessionOf(token[1..])
  }

  /** A process that dies between two steps, by power loss, is replaced by one that starts from whatever the disk kept,
      with every earlier claim and every exchange still binding it. */
  method Replace(dead: Runtime, opts: Options, file: File) returns (next: Runtime)
    requires dead.Valid() && file in dead.queue.disk.survivors
    ensures next.Valid() && fresh(next) && fresh(next.queue)
    ensures !next.queue.lock && !next.queue.poison && !next.fatal
    ensures next.safe == dead.safe && next.w == Next(dead.queue.cfg, dead.w, PowerLoss(file))
    ensures next.w.history.claims == dead.w.history.claims && next.log == dead.log && next.served == dead.served
  {
    PowerLossFacts(dead.safe, dead.queue.cfg, dead.w, file, dead.log, dead.served, dead.nextLiveSequence,
                   dead.lastLiveSequence, dead.collectionStopped);
    next := new Runtime(opts, dead.queue.cfg.json, Disk(file, {file}), dead.safe,
                        Next(dead.queue.cfg, dead.w, PowerLoss(file)), dead.log, dead.served);
  }

  /** A process that ends between two steps and is started again over the same disk, with whatever is in doubt about it,
      forgets what was in memory only and is bound by everything else. */
  method StartAgain(dead: Runtime, opts: Options) returns (next: Runtime)
    requires dead.Valid()
    ensures next.Valid() && fresh(next) && fresh(next.queue)
    ensures !next.queue.lock && !next.queue.poison && !next.fatal && next.queue.disk == dead.queue.disk
    ensures next.safe == dead.safe && next.w == Next(dead.queue.cfg, dead.w, Restart)
    ensures next.w.history.claims == dead.w.history.claims && next.log == dead.log && next.served == dead.served
  {
    RestartFacts(dead.safe, dead.queue.cfg, dead.w, dead.log, dead.served, dead.nextLiveSequence, dead.lastLiveSequence,
                 dead.collectionStopped);
    next := new Runtime(opts, dead.queue.cfg.json, dead.queue.disk, dead.safe,
                        Next(dead.queue.cfg, dead.w, Restart), dead.log, dead.served);
  }
}
