/** The replay queue's persisted envelope: its entries, what decoding accepts, and
    how it is written out (agent/syncqueue/store.go). */
module Envelopes {
  import opened Text

  const SYNC_PROTOCOL_REVISION := 2
  const ENVELOPE_VERSION := 2

  datatype LiveSignal = LiveSignal(sequence: int64, fingerprint: string)

  /** One heartbeat, host sample, probe observation or IP report; `body` stands for
      the fields the queue carries without looking at them. */
  datatype Fact = Fact(body: string, fingerprint: string, syncBatchId: string, isBackfilled: bool)

  datatype CommandResult = CommandResult(actionId: string, commandId: string, output: string)

  datatype Request = Request(
    protocolRevision: int,
    producerId: string,
    batchSequence: int64,
    allocatedThrough: int64,
    retiredThrough: int64,
    sessionId: string,
    liveSignal: Option<LiveSignal>,
    monitoringInstanceId: string,
    syncToken: string,
    heartbeats: seq<Fact>,
    hostSamples: seq<Fact>,
    probeObservations: seq<Fact>,
    ipQualityReports: seq<Fact>,
    commandResults: seq<CommandResult>)

  /** Times are nanoseconds since Go's zero time, so 0 is `IsZero()`. */
  datatype Entry = Entry(id: string, createdAt: nat, attempts: int64, request: Request) {
    function Seq(): int64 { request.batchSequence }
  }

  datatype Envelope = Envelope(
    version: int,
    sessionId: string,
    producerId: string,
    lastAllocated: int64,
    retiredFloor: int64,
    liveReserved: int64,
    entries: seq<Entry>)

  // ----- identities -----

  predicate IsHex(c: char) { '0' <= c <= '9' || 'a' <= c <= 'f' || 'A' <= c <= 'F' }

  /** The hyphenated UUID form. */
  predicate ValidProducerId(id: string) {
    && |id| == 36
    && forall i :: 0 <= i < 36 ==>
      if i == 8 || i == 13 || i == 18 || i == 23 then id[i] == '-' else IsHex(id[i])
  }

  function Identity(producer: string, n: int): string {
    producer + ":" + FormatInt(n)
  }

  lemma IdentityInjective(p: string, m: int, q: string, n: int)
    requires ValidProducerId(p) && ValidProducerId(q)
    requires Identity(p, m) == Identity(q, n)
    ensures p == q && m == n
  {
    assert p == Identity(p, m)[..36] && q == Identity(q, n)[..36];
    assert FormatInt(m) == Identity(p, m)[37..];
    assert FormatInt(n) == Identity(q, n)[37..];
    FormatIntInjective(m, n);
  }

  function WithBatchId(facts: seq<Fact>, id: string): seq<Fact> {
    seq(|facts|, i requires 0 <= i < |facts| => facts[i].(syncBatchId := id))
  }

  function WithBackfilled(facts: seq<Fact>, flag: bool): seq<Fact> {
    seq(|facts|, i requires 0 <= i < |facts| => facts[i].(isBackfilled := flag))
  }

  function SetBatchIdentity(r: Request, id: string): Request {
    r.(heartbeats := WithBatchId(r.heartbeats, id),
       hostSamples := WithBatchId(r.hostSamples, id),
       probeObservations := WithBatchId(r.probeObservations, id),
       ipQualityReports := WithBatchId(r.ipQualityReports, id))
  }

  predicate AllHaveBatchId(facts: seq<Fact>, id: string) {
    forall i :: 0 <= i < |facts| ==> facts[i].syncBatchId == id
  }

  predicate BatchIdentityMatches(r: Request, id: string) {
    && AllHaveBatchId(r.heartbeats, id)
    && AllHaveBatchId(r.hostSamples, id)
    && AllHaveBatchId(r.probeObservations, id)
    && AllHaveBatchId(r.ipQualityReports, id)
  }

  /** The copy a backlog send transmits. */
  function WithBackfilledFacts(r: Request, flag: bool): Request {
    r.(liveSignal := None,
       heartbeats := WithBackfilled(r.heartbeats, flag),
       hostSamples := WithBackfilled(r.hostSamples, flag),
       probeObservations := WithBackfilled(r.probeObservations, flag),
       ipQualityReports := WithBackfilled(r.ipQualityReports, flag))
  }

  // ----- what decodeEnvelope accepts -----

  predicate EntryOk(e: Envelope, x: Entry) {
    var r := x.request;
    && r.protocolRevision == SYNC_PROTOCOL_REVISION
    && r.sessionId == e.sessionId
    && r.producerId == e.producerId
    && e.retiredFloor < r.batchSequence <= r.allocatedThrough <= e.lastAllocated
    && 0 <= r.retiredThrough <= e.retiredFloor
    && r.liveSignal.None?
    && x.id == Identity(e.producerId, r.batchSequence)
    && x.createdAt != 0
    && x.attempts >= 0
    && BatchIdentityMatches(r, x.id)
  }

  /** Sequences and creation times both strictly increase along the queue. */
  predicate Ordered(es: seq<Entry>) {
    forall i, j :: 0 <= i < j < |es| ==> es[i].Seq() < es[j].Seq() && es[i].createdAt < es[j].createdAt
  }

  function ExpectedFloor(e: Envelope): int {
    if |e.entries| > 0 then e.entries[0].Seq() - 1 else e.lastAllocated
  }

  predicate HeaderOk(e: Envelope) {
    && e.version == ENVELOPE_VERSION
    && e.sessionId != ""
    && ValidProducerId(e.producerId)
    && 0 <= e.retiredFloor <= e.lastAllocated
    && 0 <= e.liveReserved
  }

  predicate Accepts(e: Envelope) {
    && HeaderOk(e)
    && (forall i :: 0 <= i < |e.entries| ==> EntryOk(e, e.entries[i]))
    && Ordered(e.entries)
    && e.retiredFloor == ExpectedFloor(e)
  }

  /** The test decodeEnvelope applies to one entry, given the sequence and time just before it. */
  predicate Admitted(e: Envelope, previous: int64, previousTime: nat, x: Entry) {
    var r := x.request;
    var identity := Identity(e.producerId, r.batchSequence);
    && !(r.protocolRevision != SYNC_PROTOCOL_REVISION || r.sessionId != e.sessionId || r.producerId != e.producerId ||
         r.batchSequence <= previous || r.batchSequence > e.lastAllocated ||
         r.allocatedThrough < r.batchSequence || r.allocatedThrough > e.lastAllocated ||
         r.retiredThrough < 0 || r.retiredThrough >= r.batchSequence || r.retiredThrough > e.retiredFloor ||
         r.liveSignal != None || x.id != identity || x.createdAt == 0 ||
         (previousTime != 0 && x.createdAt <= previousTime) || x.attempts < 0)
    && BatchIdentityMatches(r, identity)
  }

  lemma {:induction false} AdjacentOrdered(es: seq<Entry>)
    requires forall k :: 0 < k < |es| ==> es[k - 1].Seq() < es[k].Seq() && es[k - 1].createdAt < es[k].createdAt
    ensures Ordered(es)
  {
    if |es| > 1 {
      var init := es[..|es| - 1];
      AdjacentOrdered(init);
      assert forall i :: 0 <= i < |init| ==> init[i] == es[i];
      assert es[|es| - 2].Seq() < es[|es| - 1].Seq();
      forall i, j | 0 <= i < j < |es|
        ensures es[i].Seq() < es[j].Seq() && es[i].createdAt < es[j].createdAt
      {
        if j < |es| - 1 {
          assert init[i].Seq() < init[j].Seq();
        } else if i < |es| - 2 {
          assert init[i].Seq() < init[|es| - 2].Seq();
        }
      }
    }
  }

  function SeqBefore(e: Envelope, i: nat): int64
    requires i <= |e.entries|
  {
    if i == 0 then e.retiredFloor else e.entries[i - 1].Seq()
  }

  function TimeBefore(e: Envelope, i: nat): nat
    requires i <= |e.entries|
  {
    if i == 0 then 0 else e.entries[i - 1].createdAt
  }

  predicate AdmittedAt(e: Envelope, i: nat)
    requires i < |e.entries|
  {
    Admitted(e, SeqBefore(e, i), TimeBefore(e, i), e.entries[i])
  }

  lemma AcceptedIsAdmitted(e: Envelope, i: nat)
    requires Accepts(e) && i < |e.entries|
    ensures AdmittedAt(e, i)
  {
    assert EntryOk(e, e.entries[i]);
    if i > 0 {
      assert EntryOk(e, e.entries[i - 1]);
      assert e.entries[i - 1].Seq() < e.entries[i].Seq();
    }
  }

  lemma {:induction false} AboveFloor(e: Envelope, i: nat)
    requires i <= |e.entries| && forall k :: 0 <= k < i ==> AdmittedAt(e, k)
    ensures e.retiredFloor <= SeqBefore(e, i)
  {
    if i > 0 {
      AboveFloor(e, i - 1);
      assert AdmittedAt(e, i - 1);
    }
  }

  lemma AdmittedIsAccepted(e: Envelope)
    requires HeaderOk(e) && e.retiredFloor == ExpectedFloor(e)
    requires forall k :: 0 <= k < |e.entries| ==> AdmittedAt(e, k)
    ensures Accepts(e)
  {
    forall i | 0 <= i < |e.entries|
      ensures EntryOk(e, e.entries[i])
    {
      assert AdmittedAt(e, i);
      AboveFloor(e, i);
    }
    forall k | 0 < k < |e.entries|
      ensures e.entries[k - 1].Seq() < e.entries[k].Seq() && e.entries[k - 1].createdAt < e.entries[k].createdAt
    {
      assert AdmittedAt(e, k) && EntryOk(e, e.entries[k - 1]);
    }
    AdjacentOrdered(e.entries);
  }

  /** decodeEnvelope's bounds checks: one pass comparing each entry with the one before. */
  method DecodeEnvelope(e: Envelope) returns (ok: bool)
    ensures ok <==> Accepts(e)
  {
    if !HeaderOk(e) {
      return false;
    }
    var previous := e.retiredFloor;
    var previousTime := 0;
    for i := 0 to |e.entries|
      invariant previous == SeqBefore(e, i) && previousTime == TimeBefore(e, i)
      invariant forall k :: 0 <= k < i ==> AdmittedAt(e, k)
    {
      var x := e.entries[i];
      if !Admitted(e, previous, previousTime, x) {
        if Accepts(e) {
          AcceptedIsAdmitted(e, i);
        }
        return false;
      }
      previous := x.request.batchSequence;
      previousTime := x.createdAt;
    }
    ok := e.retiredFloor == ExpectedFloor(e);
    if ok {
      AdmittedIsAccepted(e);
    }
  }

  // ----- advancing the retired floor -----

  function AdvanceFloor(e: Envelope): Envelope
    requires Accountable(e)
  {
    e.(retiredFloor := if ExpectedFloor(e) > e.retiredFloor then ExpectedFloor(e) else e.retiredFloor)
  }

  /** Every queued sequence is positive and allocated: enough to compute with the floor. */
  predicate Accountable(e: Envelope) {
    forall i :: 0 <= i < |e.entries| ==> 0 < e.entries[i].Seq() <= e.lastAllocated
  }

  /** What a queue keeps when its first k entries go. */
  function Suffix(e: Envelope, k: nat): Envelope
    requires k <= |e.entries| && Accountable(e)
  {
    AdvanceFloor(e.(entries := e.entries[k..]))
  }

  /** DeleteMany's survivors, in order. */
  function Without(es: seq<Entry>, ids: set<string>): seq<Entry> {
    if es == [] then []
    else
      var rest := Without(es[..|es| - 1], ids);
      if es[|es| - 1].id in ids then rest else rest + [es[|es| - 1]]
  }

  lemma {:induction false} WithoutKeeps(es: seq<Entry>, ids: set<string>)
    ensures forall x :: x in Without(es, ids) <==> x in es && x.id !in ids
  {
    if es != [] {
      WithoutKeeps(es[..|es| - 1], ids);
      assert es == es[..|es| - 1] + [es[|es| - 1]];
    }
  }

  lemma {:induction false} WithoutOrdered(es: seq<Entry>, ids: set<string>)
    requires Ordered(es)
    ensures Ordered(Without(es, ids))
  {
    if es != [] {
      var init, last := es[..|es| - 1], es[|es| - 1];
      var rest := Without(init, ids);
      WithoutOrdered(init, ids);
      WithoutKeeps(init, ids);
      forall i | 0 <= i < |rest|
        ensures rest[i].Seq() < last.Seq() && rest[i].createdAt < last.createdAt
      {
        assert rest[i] in init;
        var k :| 0 <= k < |init| && init[k] == rest[i];
        assert es[k] == rest[i];
      }
    }
  }

  /** Dropping entries from an accepted envelope and advancing its floor leaves an accepted one. */
  lemma ThinningAccepted(e: Envelope, kept: seq<Entry>)
    requires Accepts(e)
    requires Ordered(kept) && forall x :: x in kept ==> x in e.entries
    ensures Accountable(e.(entries := kept))
    ensures Accepts(AdvanceFloor(e.(entries := kept)))
    ensures AdvanceFloor(e.(entries := kept)).retiredFloor >= e.retiredFloor
  {
    forall i | 0 <= i < |kept|
      ensures EntryOk(e, kept[i]) && (|e.entries| > 0 ==> e.entries[0].Seq() <= kept[i].Seq())
    {
      assert kept[i] in e.entries;
      var k :| 0 <= k < |e.entries| && e.entries[k] == kept[i];
    }
    var t := AdvanceFloor(e.(entries := kept));
    assert t.retiredFloor == ExpectedFloor(t) by {
      if |kept| > 0 {
        assert kept[0] in e.entries;
      }
    }
    forall i | 0 <= i < |kept|
      ensures EntryOk(t, kept[i])
    {
      assert kept[i] in e.entries;
      if i > 0 {
        assert kept[0].Seq() < kept[i].Seq();
      }
    }
  }

  lemma DeleteAccepted(e: Envelope, ids: set<string>)
    requires Accepts(e)
    ensures Accountable(e.(entries := Without(e.entries, ids)))
    ensures Accepts(AdvanceFloor(e.(entries := Without(e.entries, ids))))
  {
    WithoutKeeps(e.entries, ids);
    WithoutOrdered(e.entries, ids);
    ThinningAccepted(e, Without(e.entries, ids));
  }

  /** Entry ids identify entries of an accepted envelope. */
  lemma IdsDistinct(e: Envelope, i: nat, j: nat)
    requires Accepts(e) && i < |e.entries| && j < |e.entries|
    requires e.entries[i].id == e.entries[j].id
    ensures i == j
  {
    assert EntryOk(e, e.entries[i]) && EntryOk(e, e.entries[j]);
    IdentityInjective(e.producerId, e.entries[i].Seq(), e.producerId, e.entries[j].Seq());
  }

  // ----- enqueueing -----

  /** The request as it is stored: stamped with the producer's next sequence and its identity. */
  function Stamped(e: Envelope, request: Request): Request
    requires e.lastAllocated < MAX_INT64
  {
    SetBatchIdentity(
      request.(liveSignal := None,
               protocolRevision := SYNC_PROTOCOL_REVISION,
               producerId := e.producerId,
               batchSequence := e.lastAllocated + 1,
               allocatedThrough := e.lastAllocated + 1,
               retiredThrough := e.retiredFloor),
      Identity(e.producerId, e.lastAllocated + 1))
  }

  /** Now, or one nanosecond after the newest entry when the clock has not passed it. */
  function CreationTime(e: Envelope, now: nat): nat {
    if |e.entries| > 0 && now <= e.entries[|e.entries| - 1].createdAt
    then e.entries[|e.entries| - 1].createdAt + 1
    else now
  }

  function NewEntry(e: Envelope, request: Request, now: nat): Entry
    requires e.lastAllocated < MAX_INT64
  {
    Entry(Identity(e.producerId, e.lastAllocated + 1), CreationTime(e, now), 0, Stamped(e, request))
  }

  function Appended(e: Envelope, request: Request, now: nat): Envelope
    requires e.lastAllocated < MAX_INT64
  {
    e.(lastAllocated := e.lastAllocated + 1, entries := e.entries + [NewEntry(e, request, now)])
  }

  lemma AppendOrdered(e: Envelope, request: Request, now: nat)
    requires Accepts(e) && e.lastAllocated < MAX_INT64
    ensures Ordered(Appended(e, request, now).entries) && Accountable(Appended(e, request, now))
  {
    var es := Appended(e, request, now).entries;
    forall k | 0 < k < |es|
      ensures es[k - 1].Seq() < es[k].Seq() && es[k - 1].createdAt < es[k].createdAt
    {
      assert es[k - 1] == e.entries[k - 1] && EntryOk(e, e.entries[k - 1]);
      if k < |e.entries| {
        assert e.entries[k - 1].Seq() < e.entries[k].Seq();
      }
    }
    AdjacentOrdered(es);
    forall i | 0 <= i < |es|
      ensures 0 < es[i].Seq() <= e.lastAllocated + 1
    {
      assert i < |e.entries| ==> EntryOk(e, e.entries[i]);
    }
  }

  lemma StampedMatches(e: Envelope, request: Request)
    requires e.lastAllocated < MAX_INT64
    ensures BatchIdentityMatches(Stamped(e, request), Identity(e.producerId, e.lastAllocated + 1))
  {
  }

  lemma NewEntryOk(e: Envelope, request: Request, now: nat)
    requires Accepts(e) && e.lastAllocated < MAX_INT64
    requires request.sessionId == e.sessionId
    ensures var a := Appended(e, request, now);
            EntryOk(a, a.entries[|e.entries|]) <==> now > 0 || |e.entries| > 0
  {
    StampedMatches(e, request);
  }

  /** Appending keeps an accepted envelope acceptable exactly when the entry's time is not the
      zero time, which needs a clock stuck at year one and an empty queue. */
  lemma AppendAccepted(e: Envelope, request: Request, now: nat)
    requires Accepts(e) && e.lastAllocated < MAX_INT64
    requires request.sessionId == e.sessionId
    ensures Accepts(Appended(e, request, now)) <==> now > 0 || |e.entries| > 0
  {
    var a := Appended(e, request, now);
    AppendOrdered(e, request, now);
    NewEntryOk(e, request, now);
    forall i | 0 <= i < |e.entries|
      ensures EntryOk(a, a.entries[i])
    {
      assert EntryOk(e, e.entries[i]);
    }
  }

  // ----- the encoded form -----

  function Join(entry: Entry -> string, es: seq<Entry>): string {
    if es == [] then ""
    else if |es| == 1 then entry(es[0])
    else entry(es[0]) + "," + Join(entry, es[1..])
  }

  function MarshalFields(text: string -> string, e: Envelope): string {
    "\"version\":" + FormatInt(e.version) +
    ",\"session_id\":" + text(e.sessionId) +
    ",\"producer_id\":" + text(e.producerId) +
    ",\"last_allocated_batch_seq\":" + FormatInt(e.lastAllocated) +
    ",\"retired_batch_floor\":" + FormatInt(e.retiredFloor) +
    ",\"live_reserved_through\":" + FormatInt(e.liveReserved)
  }

  /** The envelope object as encoding/json writes it, given how it writes a string and an entry. */
  function Marshal(text: string -> string, entry: Entry -> string, e: Envelope): string {
    "{" + MarshalFields(text, e) + ",\"entries\":[" + Join(entry, e.entries) + "]}"
  }

  function PayloadSize(entry: Entry -> string, es: seq<Entry>): nat {
    if es == [] then 0 else |entry(es[0])| + PayloadSize(entry, es[1..])
  }

  function Commas(n: nat): nat {
    if n == 0 then 0 else n - 1
  }

  /** An encoder for entries and whole envelopes. */
  datatype Json = Json(entry: Entry -> string, envelope: Envelope -> string) {
    /** An envelope's size is its fields' size plus its entries and the commas between them. */
    ghost predicate Additive(e: Envelope) {
      |envelope(e)| == |envelope(e.(entries := []))| + PayloadSize(entry, e.entries) + Commas(|e.entries|)
    }

    ghost predicate Lawful() {
      forall e :: Additive(e)
    }
  }

  function GoJson(text: string -> string, entry: Entry -> string): Json {
    Json(entry, e => Marshal(text, entry, e))
  }

  lemma {:induction false} JoinSize(entry: Entry -> string, es: seq<Entry>)
    ensures |Join(entry, es)| == PayloadSize(entry, es) + Commas(|es|)
  {
    if |es| == 1 {
      assert PayloadSize(entry, es[1..]) == 0;
    } else if |es| > 1 {
      JoinSize(entry, es[1..]);
    }
  }

  /** The written form obeys the size law, whatever the floor's decimal width. */
  lemma GoJsonLawful(text: string -> string, entry: Entry -> string)
    ensures GoJson(text, entry).Lawful()
  {
    forall e
      ensures GoJson(text, entry).Additive(e)
    {
      JoinSize(entry, e.entries);
      assert MarshalFields(text, e.(entries := [])) == MarshalFields(text, e);
      assert Join(entry, []) == "";
    }
  }
}
