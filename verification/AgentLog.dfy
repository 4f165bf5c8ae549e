/** The agent's exchanges with the center, and what they say about its messages and its batches. */
module AgentLog {
  import opened Envelopes
  import opened FileStores
  import opened SyncProtocol
  import opened QueueRuns
  import opened QueueTheorems
  import opened SyncRound

  // ----- the messages on the wire -----

  /** The messages among the claims, in order. */
  function Messages(claims: seq<Claim>): seq<Request> {
    if claims == [] then []
    else
      var rest, last := Messages(claims[..|claims| - 1]), claims[|claims| - 1];
      if last.Said? then rest + [last.message] else rest
  }

  function Wires(log: seq<Exchange>): seq<Request> {
    seq(|log|, i requires 0 <= i < |log| => log[i].message)
  }

  /** The messages handed to the center are the ones that were claimed. */
  predicate Logged(claims: seq<Claim>, log: seq<Exchange>) {
    Messages(claims) == Wires(log)
  }

  lemma {:induction false} MessagesJoin(a: seq<Claim>, b: seq<Claim>)
    ensures Messages(a + b) == Messages(a) + Messages(b)
    decreases |b|
  {
    if b == [] {
      assert a + b == a;
    } else {
      var init, last := b[..|b| - 1], b[|b| - 1];
      assert (a + b)[..|a + b| - 1] == a + init;
      MessagesJoin(a, init);
    }
  }

  /** Claims that are not messages leave the log as it is. */
  lemma StillLogged(claims: seq<Claim>, more: seq<Claim>, log: seq<Exchange>)
    requires Logged(claims, log) && |more| <= 1 && forall i :: 0 <= i < |more| ==> !more[i].Said?
    ensures Logged(claims + more, log)
  {
    MessagesJoin(claims, more);
    assert |more| == 1 ==> more[..0] == [];
    assert Messages(more) == [];
  }

  lemma OneMoreLogged(claims: seq<Claim>, m: Request, log: seq<Exchange>, reply: Reply)
    requires Logged(claims, log)
    ensures Logged(claims + [Said(m.producerId, m)], log + [Exchange(m, reply)])
  {
    MessagesJoin(claims, [Said(m.producerId, m)]);
    assert [Said(m.producerId, m)][..0] == [];
    assert Messages([Said(m.producerId, m)]) == [m];
    assert Wires(log + [Exchange(m, reply)]) == Wires(log) + [m];
  }

  /** Where the i-th message was claimed. */
  lemma {:induction false} ClaimOf(claims: seq<Claim>, i: nat) returns (c: nat)
    requires i < |Messages(claims)|
    ensures c < |claims| && claims[c].Said? && claims[c].message == Messages(claims)[i] && |Messages(claims[..c])| == i
    decreases |claims|
  {
    var init, last := claims[..|claims| - 1], claims[|claims| - 1];
    if i < |Messages(init)| {
      c := ClaimOf(init, i);
      assert init[..c] == claims[..c];
    } else {
      c := |claims| - 1;
    }
  }

  lemma MessagesGrow(claims: seq<Claim>, a: nat, b: nat)
    requires a <= b <= |claims|
    ensures |Messages(claims[..a])| <= |Messages(claims[..b])|
  {
    MessagesJoin(claims[..a], claims[a..b]);
    assert claims[..b] == claims[..a] + claims[a..b];
  }

  /** Everything the agent ever put on the wire, current batches, backlog and control messages alike, over all its Runs
      and processes: within its bounds, bounds never going back, live sequences strictly increasing, one batch per
      sequence. */
  ghost predicate WiresOk(log: seq<Exchange>) {
    && (forall i :: 0 <= i < |log| ==> MessageOk(log[i].message))
    && forall i, j :: 0 <= i < j < |log| && log[i].message.producerId == log[j].message.producerId ==>
         MessagesInOrder(log[i].message, log[j].message)
  }

  lemma WiresAreOk(d: Disk, h: History, log: seq<Exchange>)
    requires Inv(d, h) && Logged(h.claims, log)
    ensures WiresOk(log)
  {
    forall i | 0 <= i < |log|
      ensures MessageOk(log[i].message)
    {
      var c := ClaimOf(h.claims, i);
      assert Messages(h.claims)[i] == log[i].message;
    }
    forall i, j | 0 <= i < j < |log| && log[i].message.producerId == log[j].message.producerId
      ensures MessagesInOrder(log[i].message, log[j].message)
    {
      WiresInOrder(h.claims, h.minted, log, i, j);
    }
  }

  lemma WiresInOrder(claims: seq<Claim>, minted: set<string>, log: seq<Exchange>, i: nat, j: nat)
    requires ClaimsInOrder(claims) && ClaimsSound(claims, minted) && Logged(claims, log) && i < j < |log|
    requires log[i].message.producerId == log[j].message.producerId
    ensures MessagesInOrder(log[i].message, log[j].message)
  {
    var a := ClaimOf(claims, i);
    var b := ClaimOf(claims, j);
    if b <= a {
      MessagesGrow(claims, b, a);
    }
    assert Messages(claims)[i] == log[i].message && Messages(claims)[j] == log[j].message;
    assert InOrder(claims[a], claims[b]);
  }

  /** What went out under a batch's sequence is the batch Enqueue returned it for. */
  lemma WireCarriesItsBatch(d: Disk, h: History, log: seq<Exchange>, c: nat, i: nat)
    requires Inv(d, h) && Logged(h.claims, log) && c < |h.claims| && h.claims[c].Allocated? && i < |log|
    requires log[i].message.producerId == h.claims[c].producer
    requires log[i].message.batchSequence == h.claims[c].sequence != 0
    ensures Canonical(log[i].message) == Canonical(h.claims[c].request)
  {
    var a := ClaimOf(h.claims, i);
    assert Messages(h.claims)[i] == log[i].message;
    BatchBeforeMessage(h.claims, c, a);
  }

  // ----- when a claim was made -----

  /** How many messages had been handed to the center when the claim was made. */
  function Sent(claims: seq<Claim>, i: nat): nat
    requires i <= |claims|
  {
    |Messages(claims[..i])|
  }

  lemma SentStays(claims: seq<Claim>, more: seq<Claim>, i: nat)
    requires i <= |claims|
    ensures Sent(claims + more, i) == Sent(claims, i)
  {
    assert (claims + more)[..i] == claims[..i];
  }

  lemma SentGrows(claims: seq<Claim>, log: seq<Exchange>, i: nat)
    requires Logged(claims, log) && i <= |claims|
    ensures Sent(claims, i) <= |log|
  {
    MessagesGrow(claims, i, |claims|);
    assert claims[..|claims|] == claims;
  }

  /** The newest claim is a message. */
  predicate JustSaid(claims: seq<Claim>) {
    claims != [] && claims[|claims| - 1].Said?
  }

  /** Then every batch there is was returned before that message went out. */
  lemma SentBeforeLast(claims: seq<Claim>, log: seq<Exchange>, i: nat)
    requires Logged(claims, log) && JustSaid(claims) && i < |claims| && !claims[i].Said?
    ensures Sent(claims, i) < |log|
  {
    MessagesGrow(claims, i, |claims| - 1);
  }

  // ----- why batches leave the queue -----

  predicate About(x: Exchange, k: Key) {
    x.message.producerId == k.producer && x.message.batchSequence == k.sequence
  }

  /** An authority the agent served, and how many exchanges there had been when it began to. */
  datatype Service = Service(authority: Authority, from: nat)

  /** The j-th authority was not replaced before there had been n exchanges. */
  predicate ServedUntil(served: seq<Service>, j: nat, n: nat)
    requires j < |served|
  {
    j + 1 < |served| ==> n <= served[j + 1].from
  }

  /** After n exchanges this authority was being served. */
  predicate InService(served: seq<Service>, a: Authority, n: nat) {
    exists j :: 0 <= j < |served| && served[j].authority == a && served[j].from <= n && ServedUntil(served, j, n)
  }

  /** The authority served last began to be no later than after n exchanges. */
  predicate NowServed(served: seq<Service>, a: Authority, n: nat) {
    served != [] && served[|served| - 1].authority == a && served[|served| - 1].from <= n
  }

  lemma NowInService(served: seq<Service>, a: Authority, n: nat)
    requires NowServed(served, a, n)
    ensures InService(served, a, n)
  {
    assert ServedUntil(served, |served| - 1, n);
  }

  /** The batch was returned when there had been no more than n exchanges. */
  ghost predicate ReturnedBy(claims: seq<Claim>, k: Key, n: nat) {
    forall i {:trigger IsBatch(claims[i], k)} :: 0 <= i < |claims| && IsBatch(claims[i], k) ==> Sent(claims, i) <= n
  }

  ghost predicate Foreign(claims: seq<Claim>, k: Key, a: Authority) {
    forall i {:trigger IsBatch(claims[i], k)} :: 0 <= i < |claims| && IsBatch(claims[i], k) ==>
      !Belongs(claims[i].request, a)
  }

  /** What decided the batch's fate: an exchange about it, a stop ordered while it was queued, or the authority being
      served when it was deleted. */
  ghost predicate Explains(claims: seq<Claim>, log: seq<Exchange>, served: seq<Service>, k: Key, fate: Fate) {
    match fate
    case Acknowledged(at) => at < |log| && About(log[at], k) && Acked(log[at])
    case Rejected(at) => at < |log| && About(log[at], k) && PayloadRejected(log[at])
    case Cleared(at) => at < |log| && StopAcked(log[at]) && ReturnedBy(claims, k, at)
    case Stale(a, at) => at <= |log| && InService(served, a, at) && ReturnedBy(claims, k, at) && Foreign(claims, k, a)
    case _ => true
  }

  ghost predicate Justified(claims: seq<Claim>, fates: map<Key, Fate>, log: seq<Exchange>, served: seq<Service>) {
    forall k :: k in fates ==> Explains(claims, log, served, k, fates[k])
  }

  /** Authorities served since there had been n exchanges. */
  predicate ServedSince(served: seq<Service>, serving: seq<Service>, n: nat) {
    served <= serving && forall j :: |served| <= j < |serving| ==> serving[j].from >= n
  }

  lemma StillInService(served: seq<Service>, serving: seq<Service>, n: nat, a: Authority, at: nat)
    requires ServedSince(served, serving, n) && at <= n && InService(served, a, at)
    ensures InService(serving, a, at)
  {
    var j :| 0 <= j < |served| && served[j].authority == a && served[j].from <= at && ServedUntil(served, j, at);
    assert serving[j] == served[j] && ServedUntil(serving, j, at);
  }

  lemma StillReturned(claims: seq<Claim>, more: seq<Claim>, k: Key, n: nat)
    requires ReturnedBy(claims, k, n) && forall i :: 0 <= i < |more| ==> !IsBatch(more[i], k)
    ensures ReturnedBy(claims + more, k, n)
  {
    forall i | 0 <= i < |claims + more| && IsBatch((claims + more)[i], k)
      ensures Sent(claims + more, i) <= n
    {
      SentStays(claims, more, i);
    }
  }

  lemma StillExplains(claims: seq<Claim>, more: seq<Claim>, log: seq<Exchange>, later: seq<Exchange>,
                      served: seq<Service>, serving: seq<Service>, k: Key, fate: Fate)
    requires Explains(claims, log, served, k, fate) && log <= later && ServedSince(served, serving, |log|)
    requires forall i :: 0 <= i < |more| ==> !IsBatch(more[i], k)
    ensures Explains(claims + more, later, serving, k, fate)
  {
    if fate.Cleared? || fate.Stale? {
      StillReturned(claims, more, k, fate.at);
    }
    if fate.Stale? {
      StillInService(served, serving, |log|, fate.authority, fate.at);
    }
  }

  /** More exchanges and later authorities explain what was explained, and so do more claims, none of them about
      a batch that has left. */
  lemma StillJustified(claims: seq<Claim>, more: seq<Claim>, fates: map<Key, Fate>, log: seq<Exchange>,
                       later: seq<Exchange>, served: seq<Service>, serving: seq<Service>)
    requires Justified(claims, fates, log, served) && log <= later && ServedSince(served, serving, |log|)
    requires forall i, k :: 0 <= i < |more| && k in fates ==> !IsBatch(more[i], k)
    ensures Justified(claims + more, fates, later, serving)
  {
    forall k | k in fates
      ensures Explains(claims + more, later, serving, k, fates[k])
    {
      StillExplains(claims, more, log, later, served, serving, k, fates[k]);
    }
  }

  lemma SettleJustified(claims: seq<Claim>, fates: map<Key, Fate>, log: seq<Exchange>, served: seq<Service>,
                        before: set<Key>, after: set<Key>, why: Fate)
    requires Justified(claims, fates, log, served)
    requires forall k :: k in before && k !in after ==> Explains(claims, log, served, k, why)
    ensures Justified(claims, Settle(fates, before, after, why), log, served)
  {
  }

  /** The reason a deletion gives is right for every batch it removes. */
  ghost predicate RightAsked(claims: seq<Claim>, log: seq<Exchange>, served: seq<Service>, f: File, g: File, op: Op) {
    op.Change? && !op.mutation.Prune? ==> forall k :: k in Keys(f) && k !in Keys(g) ==>
      Explains(claims, log, served, k, op.why)
  }

  lemma StepJustified(safe: iset<World>, c: Config, w: World, op: Op, log: seq<Exchange>, served: seq<Service>)
    requires Closed(safe) && w in safe && Legal(w, op) && Justified(w.history.claims, w.history.fates, log, served)
    requires RightAsked(w.history.claims, log, served, w.store.disk.visible, StoreAfter(c, w.store, op).disk.visible,
                        op)
    ensures Justified(Next(c, w, op).history.claims, Next(c, w, op).history.fates, log, served)
  {
    assert Next(c, w, op) in safe;
    AllocatedIsQueued(c, w.store, op);
    FatesJustified(c, w, op, log, served);
    NewHasNoFate(Next(c, w, op), NewClaims(c, w.store, op));
    StillJustified(w.history.claims, NewClaims(c, w.store, op), Next(c, w, op).history.fates, log, log, served, served);
  }

  lemma WhyExplains(c: Config, w: World, op: Op, log: seq<Exchange>, served: seq<Service>, k: Key)
    requires RightAsked(w.history.claims, log, served, w.store.disk.visible, StoreAfter(c, w.store, op).disk.visible,
                        op)
    requires k in Keys(w.store.disk.visible) && k !in Keys(StoreAfter(c, w.store, op).disk.visible)
    ensures Explains(w.history.claims, log, served, k, Why(c, w.store, op))
  {
  }

  lemma FatesJustified(c: Config, w: World, op: Op, log: seq<Exchange>, served: seq<Service>)
    requires Justified(w.history.claims, w.history.fates, log, served)
    requires RightAsked(w.history.claims, log, served, w.store.disk.visible, StoreAfter(c, w.store, op).disk.visible,
                        op)
    ensures Justified(w.history.claims, Next(c, w, op).history.fates, log, served)
  {
    if !op.PowerLoss? {
      var before, after, why := Keys(w.store.disk.visible), Keys(StoreAfter(c, w.store, op).disk.visible), Why(c, w.store, op);
      forall k | k in before && k !in after
        ensures Explains(w.history.claims, log, served, k, why)
      {
        WhyExplains(c, w, op, log, served, k);
      }
      SettleJustified(w.history.claims, w.history.fates, log, served, before, after, why);
    }
  }

  /** A batch Enqueue has just returned is in the queue. */
  lemma AllocatedIsQueued(c: Config, s: Store, op: Op)
    ensures var more := NewClaims(c, s, op);
            && |more| <= 1
            && (|more| == 1 && more[0].Allocated? ==>
                  op.EnqueueBatch? && Succeeds(c, s, op) && Key(more[0].producer, more[0].sequence) in Keys(StoreAfter(c, s, op).disk.visible))
  {
    if op.EnqueueBatch? && Succeeds(c, s, op) {
      EnqueueQueues(c, s, op);
      var f := StoreAfter(c, s, op).disk.visible;
      assert f.env.entries[|f.env.entries| - 1] in f.env.entries;
    }
  }

  /** So it has no fate. */
  lemma NewHasNoFate(after: World, more: seq<Claim>)
    requires Inv(after.store.disk, after.history) && |more| <= 1
    requires |more| == 1 && more[0].Allocated? ==>
               Key(more[0].producer, more[0].sequence) in Keys(after.store.disk.visible)
    ensures forall i, k :: 0 <= i < |more| && k in after.history.fates ==> !IsBatch(more[i], k)
  {
  }

  /** Every batch Enqueue returned is queued, or it left for a reason that can be pointed at: the center took it,
      rejected its payload or ordered a stop while it was queued; it did not belong to the authority then served; it
      fitted in no queue within the limits; or the session changed. */
  ghost predicate Accounted(f: File, h: History, log: seq<Exchange>, served: seq<Service>) {
    forall i :: 0 <= i < |h.claims| && h.claims[i].Allocated? ==>
      var k := Key(h.claims[i].producer, h.claims[i].sequence);
      k !in Keys(f) ==>
        k in h.fates && Explains(h.claims, log, served, k, h.fates[k]) && FateOk(k, h.fates[k], h.claims)
  }

  lemma AllAccounted(d: Disk, h: History, log: seq<Exchange>, served: seq<Service>)
    requires Inv(d, h) && Justified(h.claims, h.fates, log, served)
    ensures Accounted(d.visible, h, log, served)
  {
  }

  /** Failed connections, 429, server errors and deferrals never cost a batch: while every answer about it is one of
      those and no stop is ordered from when it was returned, a batch of the authorities served since then stays
      queued unless the limits or another session displace it. What happened before it was returned does not matter. */
  lemma TemporaryAnswersKeepBatch(f: File, h: History, log: seq<Exchange>, served: seq<Service>, i: nat)
    requires Accounted(f, h, log, served) && i < |h.claims| && h.claims[i].Allocated?
    requires forall x :: Sent(h.claims, i) <= x < |log| ==> !StopAcked(log[x])
    requires forall x :: 0 <= x < |log| && About(log[x], Key(h.claims[i].producer, h.claims[i].sequence)) ==>
      Temporary(log[x])
    requires forall j :: 0 <= j < |served| && ServedUntil(served, j, Sent(h.claims, i)) ==>
               Belongs(h.claims[i].request, served[j].authority)
    ensures var k := Key(h.claims[i].producer, h.claims[i].sequence);
            || k in Keys(f)
            || (k in h.fates && h.fates[k].PrunedAway? && OutOfLimits(h.fates[k].cfg, h.fates[k].e, h.fates[k].now, k))
            || (k in h.fates && h.fates[k].SessionRetired? && h.claims[i].request.sessionId != h.fates[k].session)
  {
    var k := Key(h.claims[i].producer, h.claims[i].sequence);
    assert IsBatch(h.claims[i], k);
    forall x | 0 <= x < |log| && About(log[x], k)
      ensures !Acked(log[x]) && !PayloadRejected(log[x])
    {
      assert Temporary(log[x]);
    }
  }
}
