/** The file-backed replay queue: its disk, and its operations as functions of the stored state
    (agent/syncqueue/store.go). */
module FileStores {
  import opened Text
  import opened Envelopes
  import opened Pruning

  const LIVE_SEQUENCE_RESERVATION := 1024

  /** What the queue file can hold. `Legacy(n)` is the old array format with n entries. */
  datatype File = Missing | Unreadable | Legacy(count: nat) | Snapshot(env: Envelope)

  /** The file as read back now, and every file a power loss may leave instead. */
  datatype Disk = Disk(visible: File, survivors: set<File>) {
    predicate Settled() { survivors == {visible} }
  }

  /** How one atomic replacement ends: nothing renamed, renamed and synced, or renamed with the
      directory sync failing. */
  datatype Write = FailedBeforeRename | Committed | Ambiguous

  /** `reachable` is false when the context is cancelled, the lock is taken or the file cannot be read. */
  datatype Io = Io(reachable: bool, write: Write)

  datatype Error = AmbiguousDurability | ExceedsCapacity | LegacyNotDrained | Refused

  datatype Outcome<+T> = Ok(value: T) | Err(error: Error)

  datatype Store = Store(disk: Disk, locked: bool, session: string, poisoned: bool) {
    function Released(): Store { this.(locked := false, session := "") }
  }

  datatype Step<+T> = Step(store: Store, result: Outcome<T>)

  datatype Config = Config(opts: Options, json: Json) {
    ghost predicate Valid() { opts.Usable() && json.Lawful() }
  }

  datatype ReplayState = ReplayState(sessionId: string, producerId: string, allocatedThrough: int64,
                                     retiredThrough: int64)

  datatype Block = Block(first: int64, last: int64)

  // ----- reading and writing -----

  function ReadEnvelope(s: Store): Outcome<Envelope> {
    match s.disk.visible
    case Snapshot(e) =>
      if Accepts(e) && (s.session != "" ==> e.sessionId == s.session) then Ok(e) else Err(Refused)
    case _ => Err(Refused)
  }

  function Ready(s: Store, io: Io): Outcome<Envelope> {
    if s.poisoned then Err(AmbiguousDurability)
    else if !io.reachable || !s.locked then Err(Refused)
    else ReadEnvelope(s)
  }

  function WriteEnvelope(c: Config, s: Store, e: Envelope, w: Write): Step<()> {
    if |c.json.envelope(e)| > c.opts.maxBytes then Step(s, Err(ExceedsCapacity))
    else
      match w
      case FailedBeforeRename => Step(s, Err(Refused))
      case Committed => Step(s.(disk := Disk(Snapshot(e), {Snapshot(e)})), Ok(()))
      case Ambiguous =>
        Step(s.(disk := Disk(Snapshot(e), s.disk.survivors + {Snapshot(e)}), poisoned := true),
             Err(AmbiguousDurability))
  }

  // ----- operations as functions -----

  function Retired(e: Envelope): Envelope {
    e.(entries := [], retiredFloor := e.lastAllocated)
  }

  function Fresh(session: string, producer: string): Envelope {
    Envelope(ENVELOPE_VERSION, session, producer, 0, 0, 0, [])
  }

  function Bootstrap(c: Config, held: Store, session: string, producer: string, w: Write): Step<()> {
    var step := WriteEnvelope(c, held, Fresh(session, producer), w);
    if step.result.Ok? then Step(step.store.(session := session), Ok(())) else Step(step.store.Released(), step.result)
  }

  /** OpenSession. `producer` is the UUID drawn if a new authority is needed; a session change makes
      two writes, retiring the old authority before creating the new one. */
  function OpenSession(c: Config, s: Store, session: string, producer: string, io: Io, second: Write): Step<()> {
    if s.poisoned then Step(s, Err(AmbiguousDurability))
    else if !io.reachable || session == "" then Step(s, Err(Refused))
    else if s.locked then
      Step(s, if session == s.session && ReadEnvelope(s).Ok? then Ok(()) else Err(Refused))
    else
      var held := s.(locked := true, session := "");
      match s.disk.visible
      case Missing => Bootstrap(c, held, session, producer, io.write)
      case Legacy(n) =>
        if n == 0 then Bootstrap(c, held, session, producer, io.write) else Step(s.Released(), Err(LegacyNotDrained))
      case Unreadable => Step(s.Released(), Err(Refused))
      case Snapshot(e) =>
        if !Accepts(e) then Step(s.Released(), Err(Refused))
        else if e.sessionId == session then Step(held.(session := session), Ok(()))
        else
          var retire := WriteEnvelope(c, held, Retired(e), io.write);
          if retire.result.Err? then Step(retire.store.Released(), retire.result)
          else Bootstrap(c, retire.store, session, producer, second)
  }

  function Close(s: Store): Step<()> {
    Step(s.Released(), if s.poisoned then Err(AmbiguousDurability) else Ok(()))
  }

  /** What Enqueue would write: the request appended and the queue pruned, provided the new entry survives. */
  function EnqueuePlan(c: Config, e: Envelope, request: Request, now: nat, pruneNow: nat): Outcome<Envelope>
    requires Accepts(e)
  {
    if request.sessionId != e.sessionId || e.lastAllocated == MAX_INT64 then Err(Refused)
    else
      AppendOrdered(e, request, now);
      match Pruned(c.json, c.opts, Appended(e, request, now), pruneNow)
      case None => Err(ExceedsCapacity)
      case Some(p) =>
        if |p.entries| == 0 || p.entries[|p.entries| - 1].id != Identity(e.producerId, e.lastAllocated + 1)
        then Err(ExceedsCapacity) else Ok(p)
  }

  function Enqueue(c: Config, s: Store, request: Request, now: nat, pruneNow: nat, io: Io): Step<string> {
    match Ready(s, io)
    case Err(error) => Step(s, Err(error))
    case Ok(e) =>
      match EnqueuePlan(c, e, request, now, pruneNow)
      case Err(error) => Step(s, Err(error))
      case Ok(p) =>
        var step := WriteEnvelope(c, s, p, io.write);
        Step(step.store,
             if step.result.Ok? then Ok(Identity(p.producerId, p.lastAllocated)) else Err(step.result.error))
  }

  function ReserveLive(c: Config, s: Store, count: int, io: Io): Step<Block> {
    match Ready(s, io)
    case Err(error) => Step(s, Err(error))
    case Ok(e) =>
      if count != LIVE_SEQUENCE_RESERVATION || e.liveReserved > MAX_INT64 - count then Step(s, Err(Refused))
      else
        var step := WriteEnvelope(c, s, e.(liveReserved := e.liveReserved + count), io.write);
        Step(step.store,
             if step.result.Ok? then Ok(Block(e.liveReserved + 1, e.liveReserved + count)) else Err(step.result.error))
  }

  function Deleted(e: Envelope, ids: set<string>): Envelope
    requires Accepts(e)
  {
    DeleteAccepted(e, ids);
    AdvanceFloor(e.(entries := Without(e.entries, ids)))
  }

  /** The first entry named id, or the length when there is none. */
  function IndexOf(es: seq<Entry>, id: string): (i: nat)
    ensures i <= |es| && (i < |es| ==> es[i].id == id)
    ensures forall k :: 0 <= k < i ==> es[k].id != id
  {
    if es == [] || es[0].id == id then 0 else 1 + IndexOf(es[1..], id)
  }

  /** One more attempt on the entry named id, if there is one and its count has room. */
  function MarkFrom(es: seq<Entry>, id: string): Option<seq<Entry>> {
    var i := IndexOf(es, id);
    if i == |es| then Some(es)
    else if es[i].attempts == MAX_INT64 then None
    else Some(es[i := es[i].(attempts := es[i].attempts + 1)])
  }

  datatype Mutation = DeleteMany(ids: set<string>) | MarkAttempt(id: string) | Prune(now: nat)

  function Mutated(c: Config, e: Envelope, m: Mutation): Outcome<Envelope>
    requires Accepts(e)
  {
    match m
    case DeleteMany(ids) => Ok(Deleted(e, ids))
    case MarkAttempt(id) =>
      (match MarkFrom(e.entries, id)
       case None => Err(Refused)
       case Some(es) => Ok(e.(entries := es)))
    case Prune(now) =>
      match Pruned(c.json, c.opts, e, now)
      case None => Err(ExceedsCapacity)
      case Some(p) => Ok(p)
  }

  function Mutate(c: Config, s: Store, m: Mutation, io: Io): Step<()> {
    match Ready(s, io)
    case Err(error) => Step(s, Err(error))
    case Ok(e) =>
      match Mutated(c, e, m)
      case Err(error) => Step(s, Err(error))
      case Ok(next) => WriteEnvelope(c, s, next, io.write)
  }

  // ----- how one snapshot may replace another -----

  /** `next` is a later state of the same authority: counters only grow, and an entry carrying an
      already allocated sequence is one that was there before, unchanged. */
  ghost predicate Evolves(e: Envelope, next: Envelope) {
    && next.producerId == e.producerId && next.sessionId == e.sessionId
    && e.lastAllocated <= next.lastAllocated
    && e.retiredFloor <= next.retiredFloor
    && e.liveReserved <= next.liveReserved
    && forall x :: x in next.entries && x.Seq() <= e.lastAllocated ==> Holds(e, x.request)
  }

  ghost predicate Holds(e: Envelope, r: Request) {
    exists x :: x in e.entries && x.request == r
  }

  lemma ThinningEvolves(e: Envelope, next: Envelope)
    requires next.producerId == e.producerId && next.sessionId == e.sessionId
    requires next.lastAllocated == e.lastAllocated && next.retiredFloor >= e.retiredFloor
    requires next.liveReserved >= e.liveReserved
    requires forall x :: x in next.entries ==> x in e.entries
    ensures Evolves(e, next)
  {
  }

  lemma MarkFromKeeps(es: seq<Entry>, id: string)
    requires MarkFrom(es, id).Some?
    ensures var ms := MarkFrom(es, id).value;
            |ms| == |es| && forall i :: 0 <= i < |es| ==>
              ms[i] == es[i].(attempts := ms[i].attempts) && ms[i].attempts >= es[i].attempts
  {
  }

  lemma MarkEvolves(e: Envelope, id: string)
    requires MarkFrom(e.entries, id).Some?
    ensures Evolves(e, e.(entries := MarkFrom(e.entries, id).value))
  {
    MarkFromKeeps(e.entries, id);
    var ms := MarkFrom(e.entries, id).value;
    forall x | x in ms
      ensures Holds(e, x.request)
    {
      var i :| 0 <= i < |ms| && ms[i] == x;
      assert e.entries[i] in e.entries;
    }
  }

  /** An accepted envelope stays acceptable when only attempt counts grow. */
  lemma MarkAccepted(e: Envelope, id: string)
    requires Accepts(e) && MarkFrom(e.entries, id).Some?
    ensures Accepts(e.(entries := MarkFrom(e.entries, id).value))
    ensures Evolves(e, e.(entries := MarkFrom(e.entries, id).value))
  {
    MarkFromKeeps(e.entries, id);
    var m := e.(entries := MarkFrom(e.entries, id).value);
    forall i | 0 <= i < |m.entries|
      ensures EntryOk(m, m.entries[i])
    {
      assert EntryOk(e, e.entries[i]);
    }
    assert Ordered(m.entries) by {
      forall i, j | 0 <= i < j < |m.entries|
        ensures m.entries[i].Seq() < m.entries[j].Seq() && m.entries[i].createdAt < m.entries[j].createdAt
      {
        assert e.entries[i].Seq() < e.entries[j].Seq();
      }
    }
    MarkEvolves(e, id);
  }

  lemma PrunedEvolves(c: Config, e: Envelope, now: nat, p: Envelope)
    requires Accepts(e) && Accountable(e) && Pruned(c.json, c.opts, e, now) == Some(p)
    ensures Accepts(p) && Evolves(e, p) && |c.json.envelope(p)| <= c.opts.maxBytes
  {
    PrunedAccepted(c.json, c.opts, e, now, p);
    PrunedShape(c.json, c.opts, e, now, p);
    assert forall x :: x in p.entries ==> x in e.entries;
  }

  /** Every mutation of an accepted envelope yields an accepted, later state of the same authority. */
  lemma MutatedEvolves(c: Config, e: Envelope, m: Mutation)
    requires Accepts(e) && Mutated(c, e, m).Ok?
    ensures Accepts(Mutated(c, e, m).value) && Evolves(e, Mutated(c, e, m).value)
  {
    match m
    case DeleteMany(ids) =>
      WithoutKeeps(e.entries, ids);
      WithoutOrdered(e.entries, ids);
      ThinningAccepted(e, Without(e.entries, ids));
      ThinningEvolves(e, Deleted(e, ids));
    case MarkAttempt(id) =>
      MarkAccepted(e, id);
    case Prune(now) =>
      PrunedEvolves(c, e, now, Mutated(c, e, m).value);
  }

  lemma EvolvesTransitive(e: Envelope, f: Envelope, g: Envelope)
    requires Evolves(e, f) && Evolves(f, g)
    ensures Evolves(e, g)
  {
    forall x | x in g.entries && x.Seq() <= e.lastAllocated
      ensures Holds(e, x.request)
    {
      var y :| y in f.entries && y.request == x.request;
      assert y.Seq() <= e.lastAllocated;
    }
  }

  lemma AppendEvolves(e: Envelope, request: Request, now: nat)
    requires Accepts(e) && e.lastAllocated < MAX_INT64
    ensures Evolves(e, Appended(e, request, now))
  {
    var a := Appended(e, request, now);
    forall x | x in a.entries && x.Seq() <= e.lastAllocated
      ensures x in e.entries
    {
    }
  }

  /** So does Enqueue, which also consumes exactly the next sequence. Only a clock reading Go's
      zero time on an empty queue could make it write something decoding would refuse. */
  lemma EnqueueEvolves(c: Config, e: Envelope, request: Request, now: nat, pruneNow: nat)
    requires Accepts(e) && now > 0 && EnqueuePlan(c, e, request, now, pruneNow).Ok?
    ensures var p := EnqueuePlan(c, e, request, now, pruneNow).value;
            && Accepts(p) && Evolves(e, p)
            && p.lastAllocated == e.lastAllocated + 1
            && |c.json.envelope(p)| <= c.opts.maxBytes
  {
    AppendAccepted(e, request, now);
    AppendOrdered(e, request, now);
    var a := Appended(e, request, now);
    var p := EnqueuePlan(c, e, request, now, pruneNow).value;
    PrunedEvolves(c, a, pruneNow, p);
    PrunedShape(c.json, c.opts, a, pruneNow, p);
    AppendEvolves(e, request, now);
    EvolvesTransitive(e, a, p);
  }

  lemma SuffixOfAppended<T>(es: seq<T>, x: T, p: seq<T>)
    requires 0 < |p| <= |es| + 1 && p == (es + [x])[|es| + 1 - |p|..]
    ensures p[|p| - 1] == x && p[..|p| - 1] == es[|es| + 1 - |p|..]
  {
  }

  /** Some queue that ends in the new batch meets every limit; the batch alone is one of them. */
  predicate HasRoom(c: Config, e: Envelope, request: Request, now: nat, pruneNow: nat)
    requires Accepts(e) && e.lastAllocated < MAX_INT64
  {
    AppendOrdered(e, request, now);
    exists k: nat :: k <= |e.entries| && Fits(c.json, c.opts, Appended(e, request, now), pruneNow, k)
  }

  /** Enqueue accepts a batch of its session exactly when dropping older batches can make room for it: no older
      batch ever keeps a new one out. */
  lemma EnqueueSucceedsExactly(c: Config, e: Envelope, request: Request, now: nat, pruneNow: nat)
    requires Accepts(e) && e.lastAllocated < MAX_INT64
    ensures EnqueuePlan(c, e, request, now, pruneNow).Ok? <==>
            request.sessionId == e.sessionId && HasRoom(c, e, request, now, pruneNow)
  {
    AppendOrdered(e, request, now);
    var a := Appended(e, request, now);
    var r := Pruned(c.json, c.opts, a, pruneNow);
    PrunedIsLongest(c.json, c.opts, a, pruneNow, r);
    if r.Some? {
      var k: nat :| LeastCut(c.json, c.opts, a, pruneNow, k) && r.value == Suffix(a, k);
      assert HasRoom(c, e, request, now, pruneNow) <==> k <= |e.entries|;
      if k <= |e.entries| {
        assert r.value.entries[|r.value.entries| - 1] == a.entries[|e.entries|];
      }
    }
  }

  /** Enqueue leaves a suffix of the old queue with the stamped request behind it. */
  lemma EnqueueStores(c: Config, e: Envelope, request: Request, now: nat, pruneNow: nat)
    requires Accepts(e) && EnqueuePlan(c, e, request, now, pruneNow).Ok?
    ensures var p := EnqueuePlan(c, e, request, now, pruneNow).value;
            && 0 < |p.entries| <= |e.entries| + 1
            && p.entries == e.entries[|e.entries| + 1 - |p.entries|..] + [NewEntry(e, request, now)]
  {
    AppendOrdered(e, request, now);
    var p := EnqueuePlan(c, e, request, now, pruneNow).value;
    PrunedShape(c.json, c.opts, Appended(e, request, now), pruneNow, p);
    SuffixOfAppended(e.entries, NewEntry(e, request, now), p.entries);
  }
}
