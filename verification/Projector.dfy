/** One source's projection pass: keyset-paged drains of a forward and a trailing window, and the
    checkpoint they move (internal/center/activity/projector.go and source.go). */
module Projector {
  import opened Text
  import opened ActivityTypes

  const MAX_SCAN_PAGES := 64

  /** The inclusive time range one scan reads, after an exclusive (from, afterEventId) cursor. */
  datatype Window = Window(from: int, through: Time, afterEventId: string)

  datatype Head = Head(kind: string, recordedThrough: int)

  datatype Checkpoint = Checkpoint(kind: string, recordedThrough: Time, caughtUp: bool, attempt: nat,
                                   lastError: Option<Refusal>)

  /** What the projector checks candidates against besides the window. */
  datatype Rules = Rules(
    kind: string,
    validSubject: Subject -> bool,
    activityId: (SourceIdentity, string) -> Option<string>,
    canonicalHash: Candidate -> string)

  datatype Refusal =
    | ForeignSource | InvalidIdentity | InvalidEventKind | InvalidPresentation | InvalidTime | OutsideWindow
    | UnreachableSubject | IncompleteRevision | UndeterminedId | HashMismatch | InvalidHead | Unavailable

  // ----- windows -----

  function FrontierWindow(c: Checkpoint, head: Head): Window
    requires head.recordedThrough >= 0
  {
    Window(c.recordedThrough, head.recordedThrough, "")
  }

  /** None on a first run, when the forward window already covers all history. */
  function TrailingWindow(c: Checkpoint, overlap: nat): Option<Window> {
    if c.recordedThrough == 0 then None else Some(Window(c.recordedThrough - overlap, c.recordedThrough, ""))
  }

  predicate ValidHead(c: Checkpoint, head: Head) {
    && head.kind in SOURCE_KINDS && head.recordedThrough > 0 && head.kind == c.kind
    && (c.recordedThrough != 0 ==> c.recordedThrough <= head.recordedThrough)
  }

  predicate AfterCursor(c: Candidate, from: int, after: string) {
    from != 0 ==> from < c.recordedAt || (from == c.recordedAt && (after == "" || Less(after, c.source.eventId)))
  }

  predicate InWindow(c: Candidate, w: Window) {
    (w.through != 0 ==> c.recordedAt <= w.through) && AfterCursor(c, w.from, w.afterEventId)
  }

  // ----- candidates -----

  predicate ContentOk(rules: Rules, c: Candidate) {
    && c.source.kind == rules.kind && ValidSourceIdentity(c.source) && c.eventKind in EVENT_KINDS
    && ValidPresentation(c.presentation) && c.eventAt != 0 && c.recordedAt != 0
    && c.subjects != [] && (forall i :: 0 <= i < |c.subjects| ==> rules.validSubject(c.subjects[i]))
    && (c.opensRevision ==> c.recordId != "" && c.revisionId != "" && c.revisionNo != 0)
    && rules.activityId(c.source, c.eventKind) == Some(c.activityId)
    && c.canonicalHash == rules.canonicalHash(c)
  }

  /** validateCandidate: the first rule the candidate breaks, if any. */
  function Validate(rules: Rules, w: Window, c: Candidate): Option<Refusal> {
    if c.source.kind != rules.kind then Some(ForeignSource)
    else if !ValidSourceIdentity(c.source) then Some(InvalidIdentity)
    else if c.eventKind !in EVENT_KINDS then Some(InvalidEventKind)
    else if !ValidPresentation(c.presentation) then Some(InvalidPresentation)
    else if c.eventAt == 0 || c.recordedAt == 0 then Some(InvalidTime)
    else if w.through != 0 && c.recordedAt > w.through then Some(OutsideWindow)
    else if w.from != 0 && c.recordedAt < w.from then Some(OutsideWindow)
    else if w.from != 0 && c.recordedAt <= w.from && w.afterEventId != "" && !Less(w.afterEventId, c.source.eventId) then Some(OutsideWindow)
    else if c.subjects == [] || (exists i ::
                                   0 <= i < |c.subjects| && !rules.validSubject(c.subjects[i])) then Some(UnreachableSubject)
    else if c.opensRevision && (c.recordId == "" || c.revisionId == "" || c.revisionNo == 0) then Some(IncompleteRevision)
    else if rules.activityId(c.source, c.eventKind) != Some(c.activityId) then Some(UndeterminedId)
    else if c.canonicalHash != rules.canonicalHash(c) then Some(HashMismatch)
    else None
  }

  lemma ValidateMeans(rules: Rules, w: Window, c: Candidate)
    ensures Validate(rules, w, c) == None <==> ContentOk(rules, c) && InWindow(c, w)
  {
  }

  function FirstRefusal(rules: Rules, w: Window, page: seq<Candidate>): Option<Refusal> {
    if page == [] then None
    else if Validate(rules, w, page[0]).Some? then Validate(rules, w, page[0])
    else FirstRefusal(rules, w, page[1..])
  }

  lemma {:induction false} NoRefusal(rules: Rules, w: Window, page: seq<Candidate>)
    ensures FirstRefusal(rules, w, page) == None <==> forall c :: c in page ==> ContentOk(rules, c) && InWindow(c, w)
  {
    if page != [] {
      ValidateMeans(rules, w, page[0]);
      NoRefusal(rules, w, page[1..]);
      assert page == [page[0]] + page[1..];
    }
  }

  // ----- publication -----

  /** The projection by activity id, as far as one source is concerned. */
  type Projection = map<string, Candidate>

  datatype Published = Published(rows: Projection, inserted: nat, alreadyPresent: nat)

  function Ids(page: seq<Candidate>): set<string> {
    set c | c in page :: c.activityId
  }

  /** A batch either inserts what is missing and recognizes the rest by hash, or fails as a whole. A
      second occurrence of an id within one batch is skipped. */
  function PublishBatch(rows: Projection, page: seq<Candidate>): Option<Published> {
    if page == [] then Some(Published(rows, 0, 0))
    else
      var init, c := page[..|page| - 1], page[|page| - 1];
      match PublishBatch(rows, init)
      case None => None
      case Some(p) =>
        if c.activityId in Ids(init) then Some(p)
        else if c.activityId !in rows then Some(Published(p.rows[c.activityId := c], p.inserted + 1, p.alreadyPresent))
        else if rows[c.activityId].canonicalHash != c.canonicalHash then None
        else Some(p.(alreadyPresent := p.alreadyPresent + 1))
  }

  // ----- the environment of a pass -----

  datatype Scan = Page(rows: seq<Candidate>) | ScanFailed

  /** Every answer the outside gives, by the number of the call: the adapter's pages and heads, and
      whether publishing and the checkpoint store work. */
  datatype Env = Env(
    scan: (nat, Window, nat) -> Scan,
    head: nat -> Option<Head>,
    publishes: nat -> bool,
    loads: nat -> bool,
    saves: nat -> bool)

  datatype Settings = Settings(rules: Rules, batchSize: nat, maxPages: nat, overlap: nat)

  // ----- draining one window -----

  datatype Status = Running | Complete | Stalled | Failed(why: Refusal)

  /** A drain in progress: the loop's variables. */
  datatype Drain = Drain(
    rows: Projection, from: int, after: string, through: Time,
    scanned: nat, inserted: nat, alreadyPresent: nat, maxRecordedAt: Time, status: Status, call: nat) {
    function At(): Window { Window(from, through, after) }
  }

  function StartDrain(rows: Projection, w: Window, call: nat): Drain {
    Drain(rows, w.from, w.afterEventId, w.through, 0, 0, 0, 0, Running, call)
  }

  function Later(a: Time, b: Time): Time {
    if b > a then b else a
  }

  /** One iteration of drain's loop. */
  function PageStep(s: Settings, env: Env, d: Drain): Drain {
    match env.scan(d.call, d.At(), s.batchSize)
    case ScanFailed => d.(status := Failed(Unavailable), call := d.call + 1)
    case Page(page) =>
      if page == [] then d.(status := Complete, call := d.call + 1)
      else
        match FirstRefusal(s.rules, d.At(), page)
        case Some(why) => d.(status := Failed(why), call := d.call + 1)
        case None =>
          if !env.publishes(d.call) then d.(status := Failed(Unavailable), call := d.call + 1)
          else
            match PublishBatch(d.rows, page)
            case None => d.(status := Failed(Unavailable), call := d.call + 1)
            case Some(p) => AfterPage(s, d, page, p)
  }

  /** The bookkeeping after a page was published. */
  function AfterPage(s: Settings, d: Drain, page: seq<Candidate>, p: Published): Drain
    requires page != []
  {
    var last := page[|page| - 1];
    var next := d.(rows := p.rows, scanned := d.scanned + |page|, inserted := d.inserted + p.inserted,
                   alreadyPresent := d.alreadyPresent + p.alreadyPresent,
                   maxRecordedAt := Later(d.maxRecordedAt, last.recordedAt), call := d.call + 1);
    if |page| < s.batchSize then next.(status := Complete)
    else if !(last.recordedAt > d.from) && !Less(d.after, last.source.eventId) then next.(status := Stalled)
    else next.(from := last.recordedAt, after := last.source.eventId)
  }

  /** drain: pages until the window ends, something fails, or the page budget is spent. */
  function DrainPages(s: Settings, env: Env, d: Drain, pages: nat): Drain
    decreases pages
  {
    if pages == 0 || d.status != Running then d
    else DrainPages(s, env, PageStep(s, env, d), pages - 1)
  }

  function DrainWindow(s: Settings, env: Env, rows: Projection, w: Window, call: nat): Drain {
    DrainPages(s, env, StartDrain(rows, w, call), s.maxPages)
  }

  // ----- one pass -----

  /** A source's durable position and what has been projected from it. */
  datatype Position = Position(checkpoint: Checkpoint, rows: Projection)

  /** How a pass went: its calls are [start, end); `trailing` is whether the trailing window was read to its end. */
  datatype Pass = Pass(position: Position, end: nat, ok: bool, head: Option<Head>, frontier: bool, trailing: bool)

  /** recordFailure: the attempt is counted, the position stays. */
  function RecordFailure(env: Env, checkpoint: Checkpoint, rows: Projection, call: nat, why: Refusal,
                         head: Option<Head>): Pass
  {
    var failed := checkpoint.(caughtUp := false, attempt := checkpoint.attempt + 1, lastError := Some(why));
    Pass(Position(if env.saves(call) then failed else checkpoint, rows), call + 1, false, head, false, false)
  }

  /** projectSource. */
  function ProjectSource(s: Settings, env: Env, p: Position, call: nat): Pass {
    if !env.loads(call) || p.checkpoint.kind != s.rules.kind then Pass(p, call + 1, false, None, false, false)
    else
      match env.head(call + 1)
      case None => RecordFailure(env, p.checkpoint, p.rows, call + 2, Unavailable, None)
      case Some(head) =>
        if !ValidHead(p.checkpoint, head) then RecordFailure(env, p.checkpoint, p.rows, call + 2, InvalidHead, None)
        else
          var frontier := DrainWindow(s, env, p.rows, FrontierWindow(p.checkpoint, head), call + 2);
          if frontier.status.Failed? then RecordFailure(env, p.checkpoint, frontier.rows, frontier.call, frontier.status.why, Some(head))
          else Trail(s, env, p.checkpoint, head, frontier)
  }

  /** The trailing window and the checkpoint that follows. */
  function Trail(s: Settings, env: Env, checkpoint: Checkpoint, head: Head, frontier: Drain): Pass
    requires head.recordedThrough >= 0
  {
    match TrailingWindow(checkpoint, s.overlap)
    case None => Advance(env, checkpoint, head, frontier, frontier.rows, frontier.call, true)
    case Some(w) =>
      var trailing := DrainWindow(s, env, frontier.rows, w, frontier.call);
      if trailing.status.Failed? then RecordFailure(env, checkpoint, trailing.rows, trailing.call, trailing.status.why, Some(head))
      else Advance(env, checkpoint, head, frontier, trailing.rows, trailing.call, trailing.status == Complete)
  }

  function Advance(env: Env, checkpoint: Checkpoint, head: Head, frontier: Drain, rows: Projection, call: nat,
                   trailing: bool): Pass
    requires head.recordedThrough >= 0
  {
    var through: Time := if frontier.status == Complete then head.recordedThrough else Later(checkpoint.recordedThrough, frontier.maxRecordedAt);
    var next := Checkpoint(checkpoint.kind, through, frontier.status == Complete && trailing, 0, None);
    Pass(Position(if env.saves(call) then next else checkpoint, rows), call + 1, env.saves(call), Some(head),
         frontier.status == Complete, trailing)
  }
}
