/** What a pass loses while rows become visible under it. */
module ProjectorArrivals {
  import opened Text
  import opened ActivityTypes
  import opened Projector
  import opened ProjectorDrain
  import opened ProjectorRuns

  // ----- a drain that ran out of pages has read nothing past its cursor -----

  ghost predicate ReadBefore(rows0: Projection, d: Drain) {
    forall id :: id in d.rows && id !in rows0 ==> !AfterCursor(d.rows[id], d.from, d.after)
  }

  /** No row of a page is after its last one. */
  lemma PageBeforeLast(page: seq<Candidate>, c: Candidate)
    requires Sorted(page) && c in page && forall x :: x in page ==> x.recordedAt != 0 && x.source.eventId != ""
    ensures !AfterCursor(c, page[|page| - 1].recordedAt, page[|page| - 1].source.eventId)
  {
    var last := page[|page| - 1];
    var i :| 0 <= i < |page| && page[i] == c;
    assert last in page;
    BeforeTotal(c, last);
    BeforeTotal(last, last);
    assert i < |page| - 1 ==> Before(page[i], last);
  }

  lemma PublishedBefore(s: Settings, rows0: Projection, d: Drain, page: seq<Candidate>, p: Published)
    requires page != [] && Sorted(page) && ReadBefore(rows0, d) && |page| == s.batchSize
    requires forall x :: x in page ==> x.recordedAt != 0 && x.source.eventId != "" && AfterCursor(x, d.from, d.after)
    requires forall id :: id in p.rows && id !in d.rows ==> p.rows[id] in page
    requires Extends(d.rows, p.rows)
    ensures AfterPage(s, d, page, p).status == Running ==> ReadBefore(rows0, AfterPage(s, d, page, p))
  {
    var last, next := page[|page| - 1], AfterPage(s, d, page, p);
    assert last in page;
    forall id | id in next.rows && id !in rows0
      ensures !AfterCursor(next.rows[id], last.recordedAt, last.source.eventId)
    {
      if id in d.rows {
        if AfterCursor(d.rows[id], last.recordedAt, last.source.eventId) {
          CursorForward(d.from, d.after, last, d.rows[id]);
        }
      } else {
        PageBeforeLast(page, p.rows[id]);
      }
    }
  }

  lemma PageReadBefore(s: Settings, env: Env, source: Source, t0: nat, rows0: Projection, w: Window, d: Drain)
    requires Serves(s, env, source) && Orderly(s.rules, source)
    requires DrainInv(source, t0, rows0, w, d) && d.status == Running && ReadBefore(rows0, d)
    ensures PageStep(s, env, d).status == Running ==> ReadBefore(rows0, PageStep(s, env, d))
  {
    var scan := env.scan(d.call, d.At(), s.batchSize);
    if scan.Page? && PageStep(s, env, d).status == Running {
      PageAccepted(s, env, source, d, scan.rows);
      PublishKeeps(d.rows, scan.rows);
      PublishedBefore(s, rows0, d, scan.rows, PublishBatch(d.rows, scan.rows).value);
    }
  }

  lemma {:induction false} DrainReadBefore(s: Settings, env: Env, source: Source, t0: nat, rows0: Projection, w: Window,
                                           d: Drain, pages: nat)
    requires Serves(s, env, source) && Orderly(s.rules, source) && DrainInv(source, t0, rows0, w, d)
    requires d.status == Running ==> ReadBefore(rows0, d)
    ensures DrainPages(s, env, d, pages).status == Running ==> ReadBefore(rows0, DrainPages(s, env, d, pages))
    decreases pages
  {
    if pages > 0 && d.status == Running {
      PageStepInv(s, env, source, t0, rows0, w, d);
      PageReadBefore(s, env, source, t0, rows0, w, d);
      DrainReadBefore(s, env, source, t0, rows0, w, PageStep(s, env, d), pages - 1);
    }
  }

  /** Where a drain stopped says exactly which rows of its window it has not projected. */
  ghost predicate StoppedAt(visible: set<Candidate>, before: Projection, w: Window, d: Drain) {
    && (d.status == Complete ==> CoveredAll(visible, w, d.rows))
    && (d.status == Running ==>
          forall c :: c in visible && InWindow(c, w) && !Has(before, c) ==>
            (Has(d.rows, c) <==> !AfterCursor(c, d.from, d.after)))
  }

  lemma DrainStops(s: Settings, env: Env, source: Source, rows: Projection, w: Window, call: nat)
    requires Serves(s, env, source) && Orderly(s.rules, source) && Faithful(rows, source(call))
    ensures StoppedAt(source(call), rows, w, DrainWindow(s, env, rows, w, call))
    ensures var d := DrainWindow(s, env, rows, w, call); call <= d.call && d.status != Stalled && Extends(rows, d.rows)
    ensures var d := DrainWindow(s, env, rows, w, call); Faithful(d.rows, source(d.call)) && AddsWithin(rows, d.rows, w)
  {
    var d := DrainWindow(s, env, rows, w, call);
    DrainRefinesFilter(s, env, source, rows, w, call);
    StartInv(source, rows, w, call);
    DrainPagesInv(s, env, source, call, rows, w, StartDrain(rows, w, call), s.maxPages);
    DrainReadBefore(s, env, source, call, rows, w, StartDrain(rows, w, call), s.maxPages);
    assert forall c :: Has(d.rows, c) && !Has(rows, c) ==>
      c.activityId !in rows || rows[c.activityId] == d.rows[c.activityId];
  }

  // ----- one pass -----

  /** The drains of a pass that got as far as its trailing one. */
  function FrontierDrain(s: Settings, env: Env, p: Position, call: nat, head: Head): Drain
    requires head.recordedThrough >= 0
  {
    DrainWindow(s, env, p.rows, FrontierWindow(p.checkpoint, head), call + 2)
  }

  function TrailingDrain(s: Settings, env: Env, p: Position, call: nat, head: Head): Drain
    requires head.recordedThrough >= 0 && p.checkpoint.recordedThrough != 0
  {
    var frontier := FrontierDrain(s, env, p, call, head);
    DrainWindow(s, env, frontier.rows, TrailingWindow(p.checkpoint, s.overlap).value, frontier.call)
  }

  /** The row was behind the checkpoint, unprojected, and past where the trailing drain ran out of pages. */
  predicate PassedOver(p: Position, trailing: Drain, c: Candidate) {
    && !Has(p.rows, c) && c.recordedAt < p.checkpoint.recordedThrough
    && trailing.status == Running && AfterCursor(c, trailing.from, trailing.after)
  }

  /** Every row visible when the head was taken that the trailing drain passed over stays within the overlap. */
  ghost predicate PassedOverStay(visible: set<Candidate>, p: Position, trailing: Drain, through: Time, overlap: nat) {
    forall c :: c in visible && PassedOver(p, trailing, c) ==> c.recordedAt >= through - overlap
  }

  lemma PassParts(s: Settings, env: Env, p: Position, call: nat) returns (head: Head)
    requires ProjectSource(s, env, p, call).ok && p.checkpoint.recordedThrough != 0
    ensures env.head(call + 1) == Some(head) && ValidHead(p.checkpoint, head)
    ensures var frontier, trailing := FrontierDrain(s, env, p, call, head), TrailingDrain(s, env, p, call, head);
            var after := ProjectSource(s, env, p, call).position;
            && !frontier.status.Failed? && !trailing.status.Failed? && after.rows == trailing.rows
            && after.checkpoint.recordedThrough ==
               (if frontier.status == Complete then head.recordedThrough else Later(p.checkpoint.recordedThrough, frontier.maxRecordedAt))
  {
    head := env.head(call + 1).value;
  }

  /** A row from the checkpoint on that the frontier left is at or after the next checkpoint. */
  lemma AheadStays(s: Settings, env: Env, source: Source, p: Position, call: nat, head: Head, c: Candidate)
    requires Serves(s, env, source) && Orderly(s.rules, source) && Faithful(p.rows, source(call + 2))
    requires ValidHead(p.checkpoint, head)
    requires c in source(call + 2) && c.recordedAt >= p.checkpoint.recordedThrough != 0
    requires !Has(FrontierDrain(s, env, p, call, head).rows, c) && !FrontierDrain(s, env, p, call, head).status.Failed?
    ensures var frontier := FrontierDrain(s, env, p, call, head);
            c.recordedAt >= if frontier.status == Complete then head.recordedThrough else Later(p.checkpoint.recordedThrough, frontier.maxRecordedAt)
  {
    var w := FrontierWindow(p.checkpoint, head);
    DrainRefinesFilter(s, env, source, p.rows, w, call + 2);
    ReadWithinWindow(s, env, StartDrain(p.rows, w, call + 2), s.maxPages);
  }

  /** A row behind the checkpoint is projected by the pass unless the trailing drain passed it over. */
  lemma BehindRead(s: Settings, env: Env, source: Source, p: Position, call: nat, head: Head, c: Candidate)
    requires Serves(s, env, source) && Orderly(s.rules, source) && Faithful(p.rows, source(call + 2))
    requires ValidHead(p.checkpoint, head)
    requires c in source(call + 2) && !Has(p.rows, c) && p.checkpoint.recordedThrough != 0
    requires p.checkpoint.recordedThrough - s.overlap <= c.recordedAt < p.checkpoint.recordedThrough
    requires !TrailingDrain(s, env, p, call, head).status.Failed?
    ensures Has(TrailingDrain(s, env, p, call, head).rows, c) <==>
      !PassedOver(p, TrailingDrain(s, env, p, call, head), c)
  {
    var frontier := FrontierDrain(s, env, p, call, head);
    var w := TrailingWindow(p.checkpoint, s.overlap).value;
    DrainStops(s, env, source, p.rows, FrontierWindow(p.checkpoint, head), call + 2);
    assert source(call + 2) <= source(frontier.call);
    DrainStops(s, env, source, frontier.rows, w, frontier.call);
    assert !Has(frontier.rows, c) by {
      assert !InWindow(c, FrontierWindow(p.checkpoint, head));
    }
  }

  /** Exactly when a successful pass loses nothing, whatever becomes visible while it runs: when every row that was
      visible as it took its head and that its trailing drain passed over is still within the overlap of the checkpoint
      it wrote. */
  lemma LosesNothingWithArrivals(s: Settings, env: Env, source: Source, tm: Timing, p: Position,
                                 call: nat) returns (head: Head)
    requires Setting(s, env, source, tm) && Kept(s, source, tm, p, call) && ProjectSource(s, env, p, call).ok
    requires p.checkpoint.recordedThrough != 0
    ensures env.head(call + 1) == Some(head) && ValidHead(p.checkpoint, head)
    ensures var after := ProjectSource(s, env, p, call);
            var through := after.position.checkpoint.recordedThrough;
            NoneLost(source(after.end), after.position.rows, through, tm.overlap) <==>
            PassedOverStay(source(call + 1), p, TrailingDrain(s, env, p, call, head), through, tm.overlap)
  {
    head := PassParts(s, env, p, call);
    ArrivalsStayInReach(s, env, source, tm, p, call);
    KeptLater(s, env, source, tm, p, call, call + 1);
    KeptLater(s, env, source, tm, p, call, call + 2);
    assert source(call + 1) <= source(call + 2);
    var trailing, after := TrailingDrain(s, env, p, call, head), ProjectSource(s, env, p, call);
    var through := after.position.checkpoint.recordedThrough;
    forall c | c in source(call + 1) && !Has(p.rows, c)
      ensures c.recordedAt >= p.checkpoint.recordedThrough ==> Has(trailing.rows, c) || c.recordedAt >= through
      ensures c.recordedAt < p.checkpoint.recordedThrough ==> (Has(trailing.rows, c) <==> !PassedOver(p, trailing, c))
    {
      if c.recordedAt >= p.checkpoint.recordedThrough {
        AheadOrRead(s, env, source, p, call, head, c);
      } else {
        BehindRead(s, env, source, p, call, head, c);
      }
    }
    RowsStay(s, env, source, p, call, head);
    assert forall c :: c in source(call + 1) && Has(p.rows, c) ==> Has(trailing.rows, c);
    assert NoneLost(source(call + 1), trailing.rows, through, tm.overlap) <==>
      PassedOverStay(source(call + 1), p, trailing, through, tm.overlap);
  }

  lemma AheadOrRead(s: Settings, env: Env, source: Source, p: Position, call: nat, head: Head, c: Candidate)
    requires Serves(s, env, source) && Orderly(s.rules, source) && Faithful(p.rows, source(call + 2))
    requires ValidHead(p.checkpoint, head)
    requires c in source(call + 2) && c.recordedAt >= p.checkpoint.recordedThrough != 0
    requires !FrontierDrain(s, env, p, call, head).status.Failed?
    ensures var frontier := FrontierDrain(s, env, p, call, head);
            || Has(TrailingDrain(s, env, p, call, head).rows, c)
            || c.recordedAt >= if frontier.status == Complete then head.recordedThrough else Later(p.checkpoint.recordedThrough, frontier.maxRecordedAt)
  {
    RowsStay(s, env, source, p, call, head);
    if !Has(FrontierDrain(s, env, p, call, head).rows, c) {
      AheadStays(s, env, source, p, call, head, c);
    }
  }

  /** What was projected stays projected through both drains. */
  lemma RowsStay(s: Settings, env: Env, source: Source, p: Position, call: nat, head: Head)
    requires Serves(s, env, source) && Orderly(s.rules, source) && Faithful(p.rows, source(call + 2))
    requires ValidHead(p.checkpoint, head)
    requires p.checkpoint.recordedThrough != 0
    ensures Extends(p.rows, FrontierDrain(s, env, p, call, head).rows)
    ensures Extends(FrontierDrain(s, env, p, call, head).rows, TrailingDrain(s, env, p, call, head).rows)
  {
    var frontier := FrontierDrain(s, env, p, call, head);
    DrainRefinesFilter(s, env, source, p.rows, FrontierWindow(p.checkpoint, head), call + 2);
    DrainRefinesFilter(s, env, source, frontier.rows, TrailingWindow(p.checkpoint, s.overlap).value, frontier.call);
  }
}
