/** Passes over a source whose rows become visible late and out of order. */
module ProjectorRuns {
  import opened Text
  import opened ActivityTypes
  import opened Projector
  import opened ProjectorDrain

  // ----- any adapter at all -----

  /** Whatever the adapter does, the checkpoint never moves back and never passes the head it was given. */
  lemma CheckpointStaysInBounds(s: Settings, env: Env, p: Position, call: nat)
    ensures var after := ProjectSource(s, env, p, call);
            && p.checkpoint.recordedThrough <= after.position.checkpoint.recordedThrough
            && (after.position.checkpoint.recordedThrough != p.checkpoint.recordedThrough ==>
                  after.ok && after.head.Some? && after.position.checkpoint.recordedThrough <= after.head.value.recordedThrough)
  {
    if env.loads(call) && env.head(call + 1).Some? && ValidHead(p.checkpoint, env.head(call + 1).value) {
      var head := env.head(call + 1).value;
      ReadWithinWindow(s, env, StartDrain(p.rows, FrontierWindow(p.checkpoint, head), call + 2), s.maxPages);
    }
  }

  lemma {:induction false} DrainTakesCalls(s: Settings, env: Env, d: Drain, pages: nat)
    ensures DrainPages(s, env, d, pages).call >= d.call
    decreases pages
  {
    if pages > 0 && d.status == Running {
      assert PageStep(s, env, d).call == d.call + 1;
      DrainTakesCalls(s, env, PageStep(s, env, d), pages - 1);
    }
  }

  lemma PassTakesCalls(s: Settings, env: Env, p: Position, call: nat)
    ensures ProjectSource(s, env, p, call).end > call
  {
    if env.loads(call) && env.head(call + 1).Some? && ValidHead(p.checkpoint, env.head(call + 1).value) {
      var w := FrontierWindow(p.checkpoint, env.head(call + 1).value);
      DrainTakesCalls(s, env, StartDrain(p.rows, w, call + 2), s.maxPages);
      var frontier := DrainWindow(s, env, p.rows, w, call + 2);
      if p.checkpoint.recordedThrough != 0 {
        DrainTakesCalls(s, env, StartDrain(frontier.rows, TrailingWindow(p.checkpoint, s.overlap).value, frontier.call),
                        s.maxPages);
      }
    }
  }

  // ----- late rows -----

  /** When calls happen, and how late a row may become visible. */
  datatype Timing = Timing(clock: nat -> int, lag: nat, overlap: nat)

  ghost predicate Monotone(clock: nat -> int) {
    forall t: nat, u: nat :: t <= u ==> clock(t) <= clock(u)
  }

  /** The row becomes visible between calls t and t + 1. */
  predicate Arrives(source: Source, t: nat, c: Candidate) {
    c in source(t + 1) && c !in source(t)
  }

  /** Every row is visible no later than its recorded time plus the safety lag and the overlap. */
  ghost predicate Timely(source: Source, tm: Timing) {
    && Monotone(tm.clock)
    && forall t: nat, c :: Arrives(source, t, c) ==> c.recordedAt >= tm.clock(t) - tm.lag - tm.overlap
  }

  /** Heads are the clock minus the safety lag. */
  ghost predicate LaggingHeads(s: Settings, env: Env, tm: Timing) {
    forall t :: env.head(t).Some? ==> env.head(t).value == Head(s.rules.kind, tm.clock(t) - tm.lag)
  }

  lemma {:induction false} LateRowIsRecent(source: Source, tm: Timing, t: nat, u: nat, c: Candidate)
    requires Timely(source, tm) && t <= u && c in source(u) && c !in source(t)
    ensures c.recordedAt >= tm.clock(t) - tm.lag - tm.overlap
    decreases u - t
  {
    if t < u && c in source(t + 1) {
      assert Arrives(source, t, c);
    } else if t < u {
      LateRowIsRecent(source, tm, t + 1, u, c);
      assert tm.clock(t) <= tm.clock(t + 1);
    }
  }

  /** No unprojected row lies below the trailing window of the checkpoint. */
  ghost predicate NoneLost(visible: set<Candidate>, rows: Projection, through: Time, overlap: nat) {
    forall c :: c in visible && !Has(rows, c) ==> c.recordedAt >= through - overlap
  }

  /** What holds between passes, at call t. */
  ghost predicate Kept(s: Settings, source: Source, tm: Timing, p: Position, t: nat) {
    && p.checkpoint.kind == s.rules.kind
    && Faithful(p.rows, source(t))
    && NoneLost(source(t), p.rows, p.checkpoint.recordedThrough, tm.overlap)
    && (p.checkpoint.recordedThrough == 0 || p.checkpoint.recordedThrough <= tm.clock(t) - tm.lag)
    && NoneAfter(p.rows, tm.clock(t) - tm.lag)
  }

  /** The world Kept is about. */
  ghost predicate Setting(s: Settings, env: Env, source: Source, tm: Timing) {
    && Serves(s, env, source) && Orderly(s.rules, source) && Timely(source, tm) && LaggingHeads(s, env, tm)
    && s.overlap == tm.overlap
  }

  lemma KeptLater(s: Settings, env: Env, source: Source, tm: Timing, p: Position, t: nat, u: nat)
    requires Setting(s, env, source, tm) && Kept(s, source, tm, p, t) && t <= u
    ensures Kept(s, source, tm, p, u)
  {
    assert source(t) <= source(u);
    assert tm.clock(t) <= tm.clock(u);
    forall c | c in source(u) && !Has(p.rows, c)
      ensures c.recordedAt >= p.checkpoint.recordedThrough - tm.overlap
    {
      if c !in source(t) {
        LateRowIsRecent(source, tm, t, u, c);
      }
    }
  }

  /** Projecting more rows of the source, none past the head, loses nothing. */
  lemma MoreRowsKept(s: Settings, env: Env, source: Source, tm: Timing, p: Position, t: nat, rows: Projection,
                     w: Window, u: nat)
    requires Setting(s, env, source, tm) && Kept(s, source, tm, p, t) && t <= u
    requires Faithful(rows, source(u)) && AddsWithin(p.rows, rows, w) && w.through != 0
    requires w.through <= tm.clock(t) - tm.lag
    ensures Kept(s, source, tm, Position(p.checkpoint, rows), u)
  {
    KeptLater(s, env, source, tm, p, t, u);
    assert tm.clock(t) <= tm.clock(u);
    forall c | c in source(u) && !Has(rows, c)
      ensures !Has(p.rows, c)
    {
    }
  }

  // ----- one pass -----

  /** A row the frontier left unread is recorded at or after the new checkpoint. */
  lemma FrontierLeaves(s: Settings, env: Env, source: Source, p: Position, head: Head, call: nat, c: Candidate)
    requires Serves(s, env, source) && Orderly(s.rules, source) && Faithful(p.rows, source(call))
    requires ValidHead(p.checkpoint, head) && c in source(call) && c.recordedAt > p.checkpoint.recordedThrough
    ensures var d := DrainWindow(s, env, p.rows, FrontierWindow(p.checkpoint, head), call);
            && (d.status == Complete ==> Has(d.rows, c) || c.recordedAt > head.recordedThrough)
            && (d.status == Running ==>
                  Has(d.rows, c) || c.recordedAt >= Later(p.checkpoint.recordedThrough, d.maxRecordedAt))
  {
    var w := FrontierWindow(p.checkpoint, head);
    DrainRefinesFilter(s, env, source, p.rows, w, call);
    ReadWithinWindow(s, env, StartDrain(p.rows, w, call), s.maxPages);
  }

  /** A row behind the checkpoint but within the overlap is projected by a complete trailing drain. */
  lemma TrailingCatches(s: Settings, env: Env, source: Source, checkpoint: Checkpoint, rows: Projection, call: nat,
                        c: Candidate)
    requires Serves(s, env, source) && Orderly(s.rules, source) && Faithful(rows, source(call))
    requires checkpoint.recordedThrough != 0 && c in source(call)
    requires checkpoint.recordedThrough - s.overlap <= c.recordedAt <= checkpoint.recordedThrough
    ensures var d := DrainWindow(s, env, rows, TrailingWindow(checkpoint, s.overlap).value, call);
            d.status == Complete ==> Has(d.rows, c)
  {
    DrainRefinesFilter(s, env, source, rows, TrailingWindow(checkpoint, s.overlap).value, call);
  }

  /** After a failure the position is where it was, whatever the drains had already projected. */
  lemma FailureKept(s: Settings, env: Env, source: Source, tm: Timing, p: Position, t: nat, call: nat, why: Refusal,
                    head: Option<Head>)
    requires Setting(s, env, source, tm) && Kept(s, source, tm, p, t) && t <= call
    ensures Kept(s, source, tm, RecordFailure(env, p.checkpoint, p.rows, call, why, head).position, call + 1)
  {
    KeptLater(s, env, source, tm, p, t, call + 1);
  }

  /** Advancing the checkpoint after both windows were read loses nothing, provided the trailing one was
      read to its end. */
  lemma AdvanceKept(s: Settings, env: Env, source: Source, tm: Timing, p: Position, head: Head, call: nat,
                    rows: Projection, end: nat, through: Time)
    requires Setting(s, env, source, tm) && Kept(s, source, tm, p, call)
    requires head.recordedThrough == tm.clock(call) - tm.lag && ValidHead(p.checkpoint, head) && call <= end
    requires Kept(s, source, tm, Position(p.checkpoint, rows), end)
    requires p.checkpoint.recordedThrough <= through <= head.recordedThrough
    requires forall c :: c in source(call) && !Has(rows, c) && c.recordedAt > p.checkpoint.recordedThrough ==>
      c.recordedAt >= through
    requires p.checkpoint.recordedThrough != 0 ==>
               forall c :: c in source(call) && p.checkpoint.recordedThrough - tm.overlap <= c.recordedAt <= p.checkpoint.recordedThrough ==> Has(rows, c)
    ensures NoneLost(source(end), rows, through, tm.overlap)
    ensures through <= tm.clock(end) - tm.lag
  {
    assert tm.clock(call) <= tm.clock(end);
    forall c | c in source(end) && !Has(rows, c)
      ensures c.recordedAt >= through - tm.overlap
    {
      if c !in source(call) {
        LateRowIsRecent(source, tm, call, end, c);
      } else if p.checkpoint.recordedThrough == 0 {
        assert ContentOk(s.rules, c);
      }
    }
  }

  /** The rows recorded through the head and visible at call t are all projected. */
  ghost predicate AllThrough(visible: set<Candidate>, rows: Projection, through: int) {
    forall c :: c in visible && c.recordedAt <= through ==> Has(rows, c)
  }

  /** What a frontier drain that did not fail leaves for the rest of the pass, with the position it allows. */
  ghost predicate FrontierDone(source: Source, p: Position, head: Head, t: nat, frontier: Drain, through: Time) {
    && t < frontier.call && !frontier.status.Failed?
    && through == (if frontier.status == Complete then head.recordedThrough else Later(p.checkpoint.recordedThrough, frontier.maxRecordedAt))
    && p.checkpoint.recordedThrough <= through <= head.recordedThrough
    && forall c :: c in source(t) && c.recordedAt > p.checkpoint.recordedThrough ==>
         (Has(frontier.rows, c) || c.recordedAt >= through)
         && (frontier.status == Complete && c.recordedAt <= head.recordedThrough ==> Has(frontier.rows, c))
  }

  /** What the rest of the pass owes. */
  ghost predicate PassOwes(s: Settings, source: Source, tm: Timing, head: Head, t: nat, after: Pass) {
    && t < after.end
    && ((after.ok ==> after.trailing) ==> Kept(s, source, tm, after.position, after.end))
    && (after.ok && after.frontier && after.trailing ==>
          AllThrough(source(t), after.position.rows, head.recordedThrough))
    && after.head == Some(head) && NoneAfter(after.position.rows, head.recordedThrough)
  }

  ghost predicate NoneAfter(rows: Projection, through: int) {
    forall id :: id in rows ==> rows[id].recordedAt <= through
  }

  lemma FirstRunKept(s: Settings, env: Env, source: Source, tm: Timing, p: Position, head: Head, t: nat,
                     frontier: Drain, through: Time)
    requires Setting(s, env, source, tm) && Kept(s, source, tm, p, t) && ValidHead(p.checkpoint, head)
    requires head.recordedThrough == tm.clock(t) - tm.lag && p.checkpoint.recordedThrough == 0
    requires Kept(s, source, tm, Position(p.checkpoint, frontier.rows), frontier.call)
    requires FrontierDone(source, p, head, t, frontier, through) && NoneAfter(frontier.rows, head.recordedThrough)
    ensures PassOwes(s, source, tm, head, t, Trail(s, env, p.checkpoint, head, frontier))
  {
    KeptLater(s, env, source, tm, Position(p.checkpoint, frontier.rows), frontier.call, frontier.call + 1);
    AdvanceKept(s, env, source, tm, p, head, t, frontier.rows, frontier.call + 1, through);
    forall c | c in source(t)
      ensures c.recordedAt > 0
    {
      assert ContentOk(s.rules, c);
    }
  }

  lemma LaterRunKept(s: Settings, env: Env, source: Source, tm: Timing, p: Position, head: Head, t: nat,
                     frontier: Drain, through: Time)
    requires Setting(s, env, source, tm) && Kept(s, source, tm, p, t) && ValidHead(p.checkpoint, head)
    requires head.recordedThrough == tm.clock(t) - tm.lag && p.checkpoint.recordedThrough != 0
    requires Kept(s, source, tm, Position(p.checkpoint, frontier.rows), frontier.call)
    requires FrontierDone(source, p, head, t, frontier, through) && NoneAfter(frontier.rows, head.recordedThrough)
    ensures PassOwes(s, source, tm, head, t, Trail(s, env, p.checkpoint, head, frontier))
  {
    var trailing := DrainWindow(s, env, frontier.rows, TrailingWindow(p.checkpoint, s.overlap).value, frontier.call);
    TrailingRead(s, env, source, tm, p, head, t, frontier, trailing);
    if trailing.status == Complete {
      TrailedKept(s, env, source, tm, p, head, t, frontier, through, trailing);
    }
  }

  /** The trailing drain loses nothing, and read to its end has every row within the overlap. */
  lemma TrailingRead(s: Settings, env: Env, source: Source, tm: Timing, p: Position, head: Head, t: nat,
                     frontier: Drain, trailing: Drain)
    requires Setting(s, env, source, tm) && ValidHead(p.checkpoint, head) && t < frontier.call
    requires head.recordedThrough == tm.clock(t) - tm.lag && p.checkpoint.recordedThrough != 0
    requires Kept(s, source, tm, Position(p.checkpoint, frontier.rows), frontier.call)
    requires NoneAfter(frontier.rows, head.recordedThrough)
    requires trailing == DrainWindow(s, env, frontier.rows, TrailingWindow(p.checkpoint, s.overlap).value,
                                     frontier.call)
    ensures t < trailing.call && Extends(frontier.rows, trailing.rows) && NoneAfter(trailing.rows, head.recordedThrough)
    ensures Kept(s, source, tm, Position(p.checkpoint, trailing.rows), trailing.call + 1) && trailing.status != Stalled
    ensures trailing.status == Complete ==>
              forall c :: c in source(t) && p.checkpoint.recordedThrough - tm.overlap <= c.recordedAt <= p.checkpoint.recordedThrough ==> Has(trailing.rows, c)
  {
    var w := TrailingWindow(p.checkpoint, s.overlap).value;
    DrainRefinesFilter(s, env, source, frontier.rows, w, frontier.call);
    MoreRowsKept(s, env, source, tm, Position(p.checkpoint, frontier.rows), frontier.call, trailing.rows, w,
                 trailing.call);
    KeptLater(s, env, source, tm, Position(p.checkpoint, trailing.rows), trailing.call, trailing.call + 1);
    if trailing.status == Complete {
      assert source(t) <= source(frontier.call);
      forall c | c in source(t) && p.checkpoint.recordedThrough - tm.overlap <= c.recordedAt <= p.checkpoint.recordedThrough
        ensures Has(trailing.rows, c)
      {
        TrailingCatches(s, env, source, p.checkpoint, frontier.rows, frontier.call, c);
      }
    }
  }

  lemma TrailedKept(s: Settings, env: Env, source: Source, tm: Timing, p: Position, head: Head, t: nat, frontier: Drain,
                    through: Time, trailing: Drain)
    requires Setting(s, env, source, tm) && Kept(s, source, tm, p, t) && ValidHead(p.checkpoint, head)
    requires head.recordedThrough == tm.clock(t) - tm.lag && p.checkpoint.recordedThrough != 0 && t < trailing.call
    requires FrontierDone(source, p, head, t, frontier, through) && Extends(frontier.rows, trailing.rows)
    requires NoneAfter(trailing.rows, head.recordedThrough)
    requires Kept(s, source, tm, Position(p.checkpoint, trailing.rows), trailing.call + 1)
    requires forall c ::
      c in source(t) && p.checkpoint.recordedThrough - tm.overlap <= c.recordedAt <= p.checkpoint.recordedThrough ==>
        Has(trailing.rows, c)
    ensures PassOwes(s, source, tm, head, t,
                     Advance(env, p.checkpoint, head, frontier, trailing.rows, trailing.call, true))
  {
    AdvanceKept(s, env, source, tm, p, head, t, trailing.rows, trailing.call + 1, through);
    forall c | c in source(t) && c.recordedAt <= head.recordedThrough
      ensures frontier.status == Complete ==> Has(trailing.rows, c)
    {
      if !Has(trailing.rows, c) {
        assert Kept(s, source, tm, p, t) && source(t) <= source(trailing.call + 1);
      }
    }
  }

  /** Everything after a frontier drain that did not fail. */
  lemma TrailKept(s: Settings, env: Env, source: Source, tm: Timing, p: Position, head: Head, t: nat, frontier: Drain)
    requires Setting(s, env, source, tm) && Kept(s, source, tm, p, t) && ValidHead(p.checkpoint, head)
    requires head.recordedThrough == tm.clock(t) - tm.lag
    requires frontier == DrainWindow(s, env, p.rows, FrontierWindow(p.checkpoint, head), t + 1)
    ensures t < frontier.call && Kept(s, source, tm, Position(p.checkpoint, frontier.rows), frontier.call)
    ensures NoneAfter(frontier.rows, head.recordedThrough)
    ensures !frontier.status.Failed? ==> PassOwes(s, source, tm, head, t, Trail(s, env, p.checkpoint, head, frontier))
  {
    var w := FrontierWindow(p.checkpoint, head);
    KeptLater(s, env, source, tm, p, t, t + 1);
    DrainRefinesFilter(s, env, source, p.rows, w, t + 1);
    ReadWithinWindow(s, env, StartDrain(p.rows, w, t + 1), s.maxPages);
    MoreRowsKept(s, env, source, tm, p, t, frontier.rows, w, frontier.call);
    if !frontier.status.Failed? {
      var through: Time := if frontier.status == Complete then head.recordedThrough else Later(p.checkpoint.recordedThrough, frontier.maxRecordedAt);
      assert source(t) <= source(t + 1);
      forall c | c in source(t) && c.recordedAt > p.checkpoint.recordedThrough
        ensures Has(frontier.rows, c) || c.recordedAt >= through
        ensures frontier.status == Complete && c.recordedAt <= head.recordedThrough ==> Has(frontier.rows, c)
      {
        FrontierLeaves(s, env, source, p, head, t + 1, c);
      }
      if p.checkpoint.recordedThrough == 0 {
        FirstRunKept(s, env, source, tm, p, head, t, frontier, through);
      } else {
        LaterRunKept(s, env, source, tm, p, head, t, frontier, through);
      }
    }
  }

  /** A pass that ends before or during its frontier drain. */
  lemma EarlyEndKept(s: Settings, env: Env, source: Source, tm: Timing, p: Position, call: nat)
    requires Setting(s, env, source, tm) && Kept(s, source, tm, p, call)
    requires !(env.loads(call) && env.head(call + 1).Some? && ValidHead(p.checkpoint, env.head(call + 1).value))
    ensures var after := ProjectSource(s, env, p, call);
            call < after.end && !after.ok && Kept(s, source, tm, after.position, after.end)
  {
    KeptLater(s, env, source, tm, p, call, call + 1);
    FailureKept(s, env, source, tm, p, call, call + 2, Unavailable, None);
    FailureKept(s, env, source, tm, p, call, call + 2, InvalidHead, None);
  }

  /** One pass, including a failed or capped one with rows becoming visible while it runs: nothing is lost
      as long as its trailing drain was not cut short, and a pass that reports catching up has projected
      every row visible when it read its head and recorded through it, and nothing beyond. */
  lemma PassKeepsRows(s: Settings, env: Env, source: Source, tm: Timing, p: Position, call: nat)
    requires Setting(s, env, source, tm) && Kept(s, source, tm, p, call)
    ensures var after := ProjectSource(s, env, p, call);
            && call < after.end
            && ((after.ok ==> after.trailing) ==> Kept(s, source, tm, after.position, after.end))
            && (after.ok && after.frontier && after.trailing ==>
                  && AllThrough(source(call + 1), after.position.rows, after.head.value.recordedThrough)
                  && NoneAfter(after.position.rows, after.head.value.recordedThrough))
  {
    if env.loads(call) && env.head(call + 1).Some? && ValidHead(p.checkpoint, env.head(call + 1).value) {
      KeptLater(s, env, source, tm, p, call, call + 1);
      var head := env.head(call + 1).value;
      var frontier := DrainWindow(s, env, p.rows, FrontierWindow(p.checkpoint, head), call + 2);
      TrailKept(s, env, source, tm, p, head, call + 1, frontier);
      if frontier.status.Failed? {
        FailureKept(s, env, source, tm, Position(p.checkpoint, frontier.rows), frontier.call, frontier.call,
                    frontier.status.why, Some(head));
      }
    } else {
      EarlyEndKept(s, env, source, tm, p, call);
    }
  }

  /** Rows that become visible while a pass runs are never what it loses, even when its trailing drain is cut short:
      whether a row falls out of reach is decided by the rows visible when the head was taken. */
  lemma ArrivalsStayInReach(s: Settings, env: Env, source: Source, tm: Timing, p: Position, call: nat)
    requires Setting(s, env, source, tm) && ProjectSource(s, env, p, call).ok
    ensures var after := ProjectSource(s, env, p, call);
            var through := after.position.checkpoint.recordedThrough;
            && call + 1 < after.end
            && (NoneLost(source(after.end), after.position.rows, through, tm.overlap) <==>
                NoneLost(source(call + 1), after.position.rows, through, tm.overlap))
  {
    var after := ProjectSource(s, env, p, call);
    CheckpointStaysInBounds(s, env, p, call);
    PassTakesCalls(s, env, p, call);
    var head := env.head(call + 1).value;
    assert ValidHead(p.checkpoint, head) && head.recordedThrough == tm.clock(call + 1) - tm.lag;
    TakesHead(s, env, p, call);
    forall c | c in source(after.end) && c !in source(call + 1)
      ensures c.recordedAt >= after.position.checkpoint.recordedThrough - tm.overlap
    {
      LateRowIsRecent(source, tm, call + 1, after.end, c);
    }
  }

  lemma TakesHead(s: Settings, env: Env, p: Position, call: nat)
    requires ProjectSource(s, env, p, call).ok
    ensures env.head(call + 1).Some? && ProjectSource(s, env, p, call).head == env.head(call + 1)
    ensures call + 1 < ProjectSource(s, env, p, call).end
  {
    var w := FrontierWindow(p.checkpoint, env.head(call + 1).value);
    DrainTakesCalls(s, env, StartDrain(p.rows, w, call + 2), s.maxPages);
    var frontier := DrainWindow(s, env, p.rows, w, call + 2);
    if p.checkpoint.recordedThrough != 0 {
      DrainTakesCalls(s, env, StartDrain(frontier.rows, TrailingWindow(p.checkpoint, s.overlap).value, frontier.call),
                      s.maxPages);
    }
  }

  // ----- whole runs -----

  /** A pass begun at a given call, with the settings in force then. */
  datatype Turn = Turn(settings: Settings, start: nat)

  /** The last pass of a run of passes. */
  function RunPasses(env: Env, p: Position, turns: seq<Turn>): Pass
    requires turns != []
  {
    var last := turns[|turns| - 1];
    ProjectSource(last.settings, env, if |turns| == 1 then p else RunPasses(env, p, turns[..|turns| - 1]).position,
                  last.start)
  }

  /** Passes of one source follow each other; batch size and page budget may differ from pass to pass. */
  ghost predicate Sequential(env: Env, source: Source, tm: Timing, rules: Rules, p: Position, turns: seq<Turn>) {
    turns != [] ==>
      var init, last := turns[..|turns| - 1], turns[|turns| - 1];
      && last.settings.rules == rules && Setting(last.settings, env, source, tm)
      && Sequential(env, source, tm, rules, p, init)
      && (init != [] ==> RunPasses(env, p, init).end <= last.start)
  }

  /** Every pass that moved the checkpoint read its trailing window to the end. */
  ghost predicate TrailingAlwaysRead(env: Env, p: Position, turns: seq<Turn>) {
    turns != [] ==>
      && TrailingAlwaysRead(env, p, turns[..|turns| - 1])
      && (RunPasses(env, p, turns).ok ==> RunPasses(env, p, turns).trailing)
  }

  function Untouched(rules: Rules): Position {
    Position(Checkpoint(rules.kind, 0, false, 0, None), map[])
  }

  /** No late row is lost: over every run from an empty projection, with rows appearing at any moment and
      passes failing or running out of pages, each unprojected row stays within the trailing window. */
  lemma {:induction false} NoLateRowIsLost(env: Env, source: Source, tm: Timing, rules: Rules, turns: seq<Turn>)
    requires turns != [] && Sequential(env, source, tm, rules, Untouched(rules), turns)
    requires TrailingAlwaysRead(env, Untouched(rules), turns)
    ensures var end := RunPasses(env, Untouched(rules), turns);
            && Kept(turns[|turns| - 1].settings, source, tm, end.position, end.end)
            && NoneLost(source(end.end), end.position.rows, end.position.checkpoint.recordedThrough, tm.overlap)
    decreases |turns|, 1
  {
    var p := BeforeLastPass(env, source, tm, rules, turns);
    PassKeepsRows(turns[|turns| - 1].settings, env, source, tm, p, turns[|turns| - 1].start);
  }

  /** The position the last pass of a run begins from. */
  lemma {:induction false} BeforeLastPass(env: Env, source: Source, tm: Timing, rules: Rules,
                                          turns: seq<Turn>) returns (p: Position)
    requires turns != [] && Sequential(env, source, tm, rules, Untouched(rules), turns)
    requires TrailingAlwaysRead(env, Untouched(rules), turns)
    ensures var last := turns[|turns| - 1];
            && RunPasses(env, Untouched(rules), turns) == ProjectSource(last.settings, env, p, last.start)
            && Setting(last.settings, env, source, tm) && Kept(last.settings, source, tm, p, last.start)
    decreases |turns|, 0
  {
    var init, last := turns[..|turns| - 1], turns[|turns| - 1];
    if init == [] {
      p := Untouched(rules);
    } else {
      NoLateRowIsLost(env, source, tm, rules, init);
      var before := RunPasses(env, Untouched(rules), init);
      p := before.position;
      assert Kept(last.settings, source, tm, p, before.end);
      KeptLater(last.settings, env, source, tm, p, before.end, last.start);
    }
  }

  /** The rows of a source recorded through a time, by activity id. */
  ghost predicate IsRebuild(rows: Projection, visible: set<Candidate>, through: int) {
    && (forall id :: id in rows ==> rows[id] in visible && rows[id].activityId == id && rows[id].recordedAt <= through)
    && AllThrough(visible, rows, through)
  }

  /** Once rows that arrived late, while passes were running, have stopped arriving, a caught-up projection is exactly
      the rows through the head. */
  lemma CaughtUpAfterLateRows(env: Env, source: Source, tm: Timing, rules: Rules, turns: seq<Turn>,
                              visible: set<Candidate>)
    requires turns != [] && Sequential(env, source, tm, rules, Untouched(rules), turns)
    requires TrailingAlwaysRead(env, Untouched(rules), turns)
    requires var end := RunPasses(env, Untouched(rules), turns); end.ok && end.frontier && end.trailing
    requires forall t :: t > turns[|turns| - 1].start ==> source(t) == visible
    ensures var end := RunPasses(env, Untouched(rules), turns);
            end.head.Some? && IsRebuild(end.position.rows, visible, end.head.value.recordedThrough)
  {
    var last := turns[|turns| - 1];
    var p := BeforeLastPass(env, source, tm, rules, turns);
    PassKeepsRows(last.settings, env, source, tm, p, last.start);
  }

  /** There is one projection of the rows through a head. */
  lemma RebuildIsUnique(p: Projection, q: Projection, visible: set<Candidate>, through: int)
    requires IsRebuild(p, visible, through) && IsRebuild(q, visible, through)
    ensures p == q
  {
    forall id
      ensures id in p <==> id in q
      ensures id in p ==> p[id] == q[id]
    {
      if id in p {
        assert Has(q, p[id]);
      }
      if id in q {
        assert Has(p, q[id]);
      }
    }
  }
}
