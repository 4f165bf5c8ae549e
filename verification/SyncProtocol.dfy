/** What the agent and the center say to each other (agent/runtime/runtime.go and
    internal/contracts/agentapi/sync_protocol.go). */
module SyncProtocol {
  import opened Text
  import opened Envelopes

  // ----- the batch identity the center compares -----

  /** The part of a request its canonical digest covers: everything but transport state. */
  function Canonical(r: Request): Request {
    WithBackfilledFacts(r, false).(
      syncToken := "", liveSignal := None, protocolRevision := 0, allocatedThrough := 0, retiredThrough := 0)
  }

  lemma BackfillingTwice(facts: seq<Fact>, a: bool, b: bool)
    ensures WithBackfilled(WithBackfilled(facts, a), b) == WithBackfilled(facts, b)
  {
  }

  /** Replaying a live batch as backfill, refreshing its bounds and attaching a live signal all keep its digest. */
  lemma TransportKeepsDigest(r: Request, flag: bool, signal: Option<LiveSignal>, revision: int, allocatedThrough: int64,
                             retiredThrough: int64)
    ensures Canonical(WithBackfilledFacts(r, flag)) == Canonical(r)
    ensures Canonical(r.(liveSignal := signal)) == Canonical(r)
    ensures Canonical(r.(protocolRevision := revision, allocatedThrough := allocatedThrough, retiredThrough := retiredThrough)) == Canonical(r)
  {
    BackfillingTwice(r.heartbeats, flag, false);
    BackfillingTwice(r.hostSamples, flag, false);
    BackfillingTwice(r.probeObservations, flag, false);
    BackfillingTwice(r.ipQualityReports, flag, false);
  }

  // ----- the center's answers -----

  datatype Disposition = Recorded | ExactDuplicate | Suppressed | Deferred | Unrecognized

  /** `executed` is the result of the plan's pending action when it names a known command. */
  datatype Response = Response(
    sessionId: string, producerId: string, batchSequence: int64, batchDigest: Request,
    disposition: Disposition, stopCollection: bool, executed: Option<CommandResult>)

  datatype Reply =
    | Answered(response: Option<Response>)
    | RemoteFailure(status: int, code: string, retryAfter: int)
    | TransportFailure

  datatype Action = Discard | Terminal | Retry

  function Classify(reply: Reply): Action
    requires !reply.Answered?
  {
    if reply.TransportFailure? then Retry
    else if reply.status == 429 || reply.status >= 500 then Retry
    else if reply.status == 400 && (reply.code == "invalid_json" || reply.code == "invalid_request") then Discard
    else if 400 <= reply.status < 500 then Terminal
    else Retry
  }

  /** validateSyncAcknowledgement: the answer is about this very batch. */
  predicate Acknowledges(request: Request, response: Option<Response>) {
    && response.Some?
    && response.value.sessionId == request.sessionId
    && response.value.producerId == request.producerId
    && response.value.batchSequence == request.batchSequence
    && response.value.batchDigest == Canonical(request)
    && response.value.disposition != Unrecognized
  }

  // ----- one exchange with the center -----

  /** A message as it left the agent, and what came back. */
  datatype Exchange = Exchange(message: Request, reply: Reply)

  /** The center took responsibility for the message. */
  predicate Acked(x: Exchange) {
    x.reply.Answered? && Acknowledges(x.message, x.reply.response) && x.reply.response.value.disposition != Deferred
  }

  /** It did so and told the agent to stop collecting. */
  predicate StopAcked(x: Exchange) {
    Acked(x) && x.reply.response.value.stopCollection
  }

  /** The center refused the payload itself. */
  predicate PayloadRejected(x: Exchange) {
    x.reply.RemoteFailure? && x.reply.status == 400 && x.reply.code in ["invalid_json", "invalid_request"]
  }

  /** The answer says nothing about the batch: the connection failed, the center is busy or broken, or it put
      the batch off. */
  predicate Temporary(x: Exchange) {
    || x.reply.TransportFailure?
    || (x.reply.RemoteFailure? && (x.reply.status == 429 || x.reply.status >= 500))
    || (x.reply.Answered? && x.reply.response.Some? && x.reply.response.value.disposition == Deferred)
  }

  // ----- whose entries they are -----

  datatype Authority = Authority(monitoringInstanceId: string, syncToken: string, fingerprint: string)

  predicate AllFingerprints(facts: seq<Fact>, fingerprint: string) {
    forall i :: 0 <= i < |facts| ==> facts[i].fingerprint == fingerprint
  }

  /** syncQueueAuthorityMismatch, negated. */
  predicate Belongs(r: Request, a: Authority) {
    && r.monitoringInstanceId == a.monitoringInstanceId
    && r.syncToken == a.syncToken
    && |r.heartbeats| > 0
    && (forall i :: 0 <= i < |r.heartbeats| ==> r.heartbeats[i].syncBatchId != "")
    && AllFingerprints(r.heartbeats, a.fingerprint)
    && AllFingerprints(r.hostSamples, a.fingerprint)
    && AllFingerprints(r.probeObservations, a.fingerprint)
    && AllFingerprints(r.ipQualityReports, a.fingerprint)
  }
}
