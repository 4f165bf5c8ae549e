/** Drains and passes over a source that does not change: when a drain completes, and what one pass leaves. */
module ProjectorStatic {
  import opened Text
  import opened ActivityTypes
  import opened Projector
  import opened ProjectorDrain

  function Fixed(visible: set<Candidate>): Source {
    t => visible
  }

  /** Nothing outside fails. */
  ghost predicate Reliable(env: Env) {
    && (forall call, w, limit :: env.scan(call, w, limit).Page?)
    && forall call :: env.publishes(call) && env.loads(call) && env.saves(call)
  }

  ghost predicate Still(s: Settings, env: Env, visible: set<Candidate>) {
    Reliable(env) && Serves(s, env, Fixed(visible)) && Orderly(s.rules, Fixed(visible))
  }

  /** The rows of a window. */
  function Rows(visible: set<Candidate>, w: Window): set<Candidate> {
    set c | c in visible && InWindow(c, w)
  }

  function Elements(page: seq<Candidate>): set<Candidate> {
    set c | c in page
  }

  lemma {:induction false} SortedDistinct(page: seq<Candidate>)
    requires Sorted(page)
    ensures |Elements(page)| == |page|
  {
    if page != [] {
      var init, last := page[..|page| - 1], page[|page| - 1];
      SortedDistinct(init);
      assert page == init + [last];
      BeforeTotal(last, last);
      assert forall i :: 0 <= i < |init| ==> Before(page[i], last);
      assert Elements(page) == Elements(init) + {last};
    }
  }

  /** A page holds as many rows as the limit and the window allow. */
  lemma PageSize(visible: set<Candidate>, w: Window, limit: nat, page: seq<Candidate>)
    requires IsPage(visible, w, limit, page)
    ensures Elements(page) <= Rows(visible, w)
    ensures if |Rows(visible, w)| < limit then |page| == |Rows(visible, w)| else |page| == limit
  {
    SortedDistinct(page);
    assert Elements(page) <= Rows(visible, w);
    SubsetSize(Elements(page), Rows(visible, w));
    if |page| < limit {
      assert Rows(visible, w) <= Elements(page);
      assert Rows(visible, w) == Elements(page);
    }
  }

  lemma {:induction false} SubsetSize(a: set<Candidate>, b: set<Candidate>)
    requires a <= b
    ensures |a| <= |b| && |b - a| == |b| - |a|
  {
    assert b == a + (b - a);
  }

  /** After a full page the window's remaining rows are those not on it, all later than it. */
  lemma AfterFullPage(visible: set<Candidate>, w: Window, limit: nat, page: seq<Candidate>)
    requires IsPage(visible, w, limit, page) && page != [] && |page| == limit
    requires forall c :: c in page ==> c.recordedAt != 0 && c.source.eventId != ""
    ensures var last := page[|page| - 1];
            Rows(visible, Window(last.recordedAt, w.through, last.source.eventId)) == Rows(visible, w) - Elements(page)
  {
    var last := page[|page| - 1];
    var rest := Window(last.recordedAt, w.through, last.source.eventId);
    assert last in page;
    forall c | c in visible && InWindow(c, w) && c !in page
      ensures InWindow(c, rest)
    {
      PageCovers(visible, w, limit, page, c);
    }
    forall c | c in visible && InWindow(c, rest)
      ensures InWindow(c, w) && c !in page
    {
      CursorForward(w.from, w.afterEventId, last, c);
      assert Before(last, c);
      forall i | 0 <= i < |page|
        ensures page[i] != c
      {
        BeforeTotal(page[i], last);
        assert i < |page| - 1 ==> Before(page[i], last);
      }
    }
  }

  /** `after` holds what `before` held and exactly the rows of `w` outside `left` besides. */
  ghost predicate Projected(visible: set<Candidate>, before: Projection, after: Projection, w: set<Candidate>,
                            left: set<Candidate>)
  {
    forall c :: c in visible ==> (Has(after, c) <==> Has(before, c) || c in w - left)
  }

  function Left(visible: set<Candidate>, d: Drain): set<Candidate> {
    if d.status == Complete then {} else Rows(visible, d.At())
  }

  /** Publishing a page of a still source adds exactly that page. */
  lemma PublishAdds(rows: Projection, page: seq<Candidate>, visible: set<Candidate>)
    requires forall a, b :: a in visible && b in visible && a.activityId == b.activityId ==> a == b
    requires Faithful(rows, visible) && forall c :: c in page ==> c in visible
    ensures PublishBatch(rows, page).Some?
    ensures var p := PublishBatch(rows, page).value.rows;
            Faithful(p, visible) && Projected(visible, rows, p, Elements(page), {})
  {
    PublishFacts(rows, page, visible);
    PublishKeeps(rows, page);
  }

  /** One iteration over a still source publishes one page and moves the cursor to its end. */
  lemma StillPage(s: Settings, env: Env, visible: set<Candidate>, d: Drain) returns (page: seq<Candidate>)
    requires Still(s, env, visible) && d.status == Running && Faithful(d.rows, visible)
    requires d.maxRecordedAt == 0 || d.maxRecordedAt == d.from
    ensures IsPage(visible, d.At(), s.batchSize, page)
    ensures forall c :: c in page ==> c.recordedAt != 0 && c.source.eventId != ""
    ensures var next := PageStep(s, env, d);
            && Faithful(next.rows, visible) && next.through == d.through
            && Projected(visible, d.rows, next.rows, Elements(page), {})
            && if |page| < s.batchSize then next.status == Complete
               else next.status == Running && next.from == next.maxRecordedAt == page[|page| - 1].recordedAt
                    && next.after == page[|page| - 1].source.eventId
  {
    page := env.scan(d.call, d.At(), s.batchSize).rows;
    PageAccepted(s, env, Fixed(visible), d, page);
    if page != [] {
      PublishAdds(d.rows, page, visible);
      PageStepAdvances(s, env, d);
      assert page[|page| - 1] in page;
    }
  }

  /** From d to e a drain has read `count` rows, or reached the end of what was left. */
  ghost predicate Drained(visible: set<Candidate>, d: Drain, e: Drain, count: nat) {
    && Faithful(e.rows, visible) && e.through == d.through
    && Left(visible, e) <= Left(visible, d)
    && Projected(visible, d.rows, e.rows, Left(visible, d), Left(visible, e))
    && if |Left(visible, d)| < count then e.status == Complete
       else e.status == Running && |Left(visible, e)| == |Left(visible, d)| - count
  }

  /** The cursor of a drain that has read something stands on a row it read. */
  ghost predicate OnRow(visible: set<Candidate>, d: Drain, e: Drain) {
    e.maxRecordedAt == e.from && exists c :: c in Left(visible, d) - Left(visible, e) && c.recordedAt == e.from
  }

  lemma DrainedOn(visible: set<Candidate>, d: Drain, m: Drain, e: Drain, first: nat, rest: nat)
    requires Drained(visible, d, m, first) && m.status == Running && Drained(visible, m, e, rest)
    ensures Drained(visible, d, e, first + rest)
  {
  }

  lemma DrainedAll(visible: set<Candidate>, d: Drain, e: Drain, count: nat, more: nat)
    requires Drained(visible, d, e, count) && e.status == Complete && count <= more
    ensures Drained(visible, d, e, more)
  {
  }

  lemma NoneDrained(visible: set<Candidate>, d: Drain)
    requires d.status == Running && Faithful(d.rows, visible)
    ensures Drained(visible, d, d, 0)
  {
  }

  lemma OnRowOn(visible: set<Candidate>, d: Drain, m: Drain, e: Drain)
    requires OnRow(visible, m, e) && Left(visible, m) <= Left(visible, d)
    ensures OnRow(visible, d, e)
  {
  }

  /** One iteration over a still source. */
  lemma StillStep(s: Settings, env: Env, visible: set<Candidate>, d: Drain)
    requires Still(s, env, visible) && d.status == Running && Faithful(d.rows, visible)
    requires d.maxRecordedAt == 0 || d.maxRecordedAt == d.from
    ensures var next := PageStep(s, env, d);
            && Drained(visible, d, next, s.batchSize)
            && (next.status == Running ==> OnRow(visible, d, next))
  {
    var page := StillPage(s, env, visible, d);
    PageSize(visible, d.At(), s.batchSize, page);
    SubsetSize(Elements(page), Rows(visible, d.At()));
    SortedDistinct(page);
    if |page| == s.batchSize {
      AfterFullPage(visible, d.At(), s.batchSize, page);
      assert page[|page| - 1] in Elements(page);
    } else {
      assert Elements(page) == Rows(visible, d.At());
    }
  }

  function Total(pages: nat, size: nat): nat {
    if pages == 0 then 0 else size + Total(pages - 1, size)
  }

  ghost predicate Ready(visible: set<Candidate>, d: Drain) {
    d.status == Running && Faithful(d.rows, visible) && (d.maxRecordedAt == 0 || d.maxRecordedAt == d.from)
  }

  /** Every iteration reads a page's worth. */
  ghost predicate Steady(visible: set<Candidate>, size: nat, step: Drain -> Drain) {
    forall d :: Ready(visible, d) ==>
      Drained(visible, d, step(d), size) && (step(d).status == Running ==> OnRow(visible, d, step(d)))
  }

  lemma StillIsSteady(s: Settings, env: Env, visible: set<Candidate>)
    requires Still(s, env, visible)
    ensures Steady(visible, s.batchSize, Step(s, env))
  {
    forall d | Ready(visible, d)
      ensures Drained(visible, d, PageStep(s, env, d), s.batchSize)
      ensures PageStep(s, env, d).status == Running ==> OnRow(visible, d, PageStep(s, env, d))
    {
      StillStep(s, env, visible, d);
    }
  }

  lemma {:induction false} SteadyDrain(visible: set<Candidate>, size: nat, step: Drain -> Drain, d: Drain, pages: nat)
    requires Steady(visible, size, step) && Ready(visible, d)
    ensures Drained(visible, d, Iterate(step, d, pages), Total(pages, size))
    ensures Iterate(step, d, pages).status == Running && pages > 0 ==> OnRow(visible, d, Iterate(step, d, pages))
    decreases pages
  {
    if pages == 0 {
      NoneDrained(visible, d);
    } else {
      var next := step(d);
      var e := Iterate(step, next, pages - 1);
      if next.status == Running {
        SteadyDrain(visible, size, step, next, pages - 1);
        DrainedOn(visible, d, next, e, size, Total(pages - 1, size));
        if pages > 1 && e.status == Running {
          OnRowOn(visible, d, next, e);
        }
      } else {
        DrainedAll(visible, d, next, size, Total(pages, size));
      }
    }
  }

  // ----- rank -----

  /** How many rows a pass can read from one window. */
  function Budget(s: Settings): nat {
    Total(s.maxPages, s.batchSize)
  }

  lemma {:induction false} TotalIsProduct(pages: nat, size: nat)
    ensures Total(pages, size) == pages * size
  {
    if pages > 0 {
      TotalIsProduct(pages - 1, size);
    }
  }

  function Rank(visible: set<Candidate>, w: Window, c: Candidate): nat {
    |set x | x in Rows(visible, w) && Before(x, c)|
  }

  /** The rows of the window that fit the page budget, counted in keyset order. */
  function WithinBudget(s: Settings, visible: set<Candidate>, w: Window): set<Candidate> {
    set c | c in Rows(visible, w) && Rank(visible, w, c) < Budget(s)
  }

  /** A cursor splits a window in keyset order. */
  lemma CursorSplits(from: int, after: string, a: Candidate, b: Candidate)
    requires !AfterCursor(a, from, after) && AfterCursor(b, from, after)
    ensures Before(a, b)
  {
    if a.recordedAt == b.recordedAt == from {
      LessTotal(a.source.eventId, after);
      if Less(a.source.eventId, after) {
        LessTransitive(a.source.eventId, after, b.source.eventId);
      }
    }
  }

  /** Whatever is left after a run-out drain is what had at least the budget before it. */
  lemma LeftByRank(s: Settings, visible: set<Candidate>, w: Window, left: set<Candidate>)
    requires left <= Rows(visible, w) && |left| == |Rows(visible, w)| - Budget(s)
    requires forall a, b :: a in Rows(visible, w) - left && b in left ==> Before(a, b)
    ensures Rows(visible, w) - left == WithinBudget(s, visible, w)
  {
    var all := Rows(visible, w);
    SubsetSize(left, all);
    forall c | c in all
      ensures c in left <==> Rank(visible, w, c) >= Budget(s)
    {
      var earlier := set x | x in all && Before(x, c);
      if c in left {
        assert all - left <= earlier;
        SubsetSize(all - left, earlier);
      } else {
        BeforeTotal(c, c);
        forall x | x in earlier
          ensures x in all - left - {c}
        {
          BeforeTotal(x, c);
        }
        SubsetSize(earlier, all - left - {c});
      }
    }
  }

  lemma AllWithin(s: Settings, visible: set<Candidate>, w: Window)
    requires |Rows(visible, w)| < Budget(s)
    ensures WithinBudget(s, visible, w) == Rows(visible, w)
  {
    forall c | c in Rows(visible, w)
      ensures Rank(visible, w, c) < Budget(s)
    {
      SubsetSize((set x | x in Rows(visible, w) && Before(x, c)), Rows(visible, w));
    }
  }

  /** How far the rows of a set reach. */
  ghost predicate Furthest(rows: set<Candidate>, through: Time) {
    (exists c :: c in rows && c.recordedAt == through) && forall c :: c in rows ==> c.recordedAt <= through
  }

  /** A drain of a still source reaches the window's end exactly when the window holds fewer rows than the
      page budget, and publishes exactly the rows within it. */
  lemma DrainReadsBudget(s: Settings, env: Env, visible: set<Candidate>, rows: Projection, w: Window, call: nat)
    requires Still(s, env, visible) && Faithful(rows, visible)
    ensures var e := DrainWindow(s, env, rows, w, call);
            && (e.status == Complete <==> |Rows(visible, w)| < Budget(s))
            && (e.status == Complete || e.status == Running)
            && Faithful(e.rows, visible)
            && Projected(visible, rows, e.rows, WithinBudget(s, visible, w), {})
            && (e.status == Running ==>
                  && |WithinBudget(s, visible, w)| == Budget(s)
                  && if Budget(s) == 0 then e.maxRecordedAt == 0 else Furthest(WithinBudget(s, visible, w), e.maxRecordedAt))
  {
    var d := StartDrain(rows, w, call);
    var e := DrainWindow(s, env, rows, w, call);
    StillIsSteady(s, env, visible);
    DrainIterates(s, env, d, s.maxPages);
    SteadyDrain(visible, s.batchSize, Step(s, env), d, s.maxPages);
    assert d.At() == w;
    if e.status == Complete {
      AllWithin(s, visible, w);
    } else {
      RunOut(s, visible, w, d, e);
    }
  }

  lemma RunOut(s: Settings, visible: set<Candidate>, w: Window, d: Drain, e: Drain)
    requires d.status == Running && d.At() == w && Drained(visible, d, e, Budget(s)) && e.status == Running
    requires if s.maxPages > 0 then OnRow(visible, d, e) else e == d && d.maxRecordedAt == 0
    requires s.batchSize > 0
    ensures Rows(visible, w) - Left(visible, e) == WithinBudget(s, visible, w)
    ensures |WithinBudget(s, visible, w)| == Budget(s)
    ensures if Budget(s) == 0 then e.maxRecordedAt == 0 else Furthest(WithinBudget(s, visible, w), e.maxRecordedAt)
  {
    forall a, b | a in Rows(visible, w) - Left(visible, e) && b in Left(visible, e)
      ensures Before(a, b)
    {
      CursorSplits(e.from, e.after, a, b);
    }
    LeftByRank(s, visible, w, Left(visible, e));
    SubsetSize(Left(visible, e), Rows(visible, w));
  }

  // ----- whole passes -----

  /** A still source under a head that no longer moves. */
  ghost predicate Quiet(s: Settings, env: Env, visible: set<Candidate>, head: Head) {
    Still(s, env, visible) && forall t :: env.head(t) == Some(head)
  }

  /** A position a pass may begin from. */
  ghost predicate Resting(s: Settings, visible: set<Candidate>, p: Position, head: Head) {
    Faithful(p.rows, visible) && p.checkpoint.kind == s.rules.kind && ValidHead(p.checkpoint, head)
  }

  /** The rows from the checkpoint on, and those of them one pass reads. */
  function Ahead(visible: set<Candidate>, c: Checkpoint, head: Head): set<Candidate>
    requires head.recordedThrough >= 0
  {
    Rows(visible, FrontierWindow(c, head))
  }

  function ReadAhead(s: Settings, visible: set<Candidate>, c: Checkpoint, head: Head): set<Candidate>
    requires head.recordedThrough >= 0
  {
    WithinBudget(s, visible, FrontierWindow(c, head))
  }

  /** The rows of the trailing window, and those of them one pass reads; none on a first run. */
  function Behind(s: Settings, visible: set<Candidate>, c: Checkpoint): set<Candidate> {
    if c.recordedThrough == 0 then {} else Rows(visible, TrailingWindow(c, s.overlap).value)
  }

  function ReadBehind(s: Settings, visible: set<Candidate>, c: Checkpoint): set<Candidate> {
    if c.recordedThrough == 0 then {} else WithinBudget(s, visible, TrailingWindow(c, s.overlap).value)
  }

  /** The checkpoint a pass over a quiet source will leave, told from the rows alone. */
  ghost predicate NextCheckpoint(s: Settings, visible: set<Candidate>, c: Checkpoint, head: Head, through: Time)
    requires head.recordedThrough >= 0
  {
    if |Ahead(visible, c, head)| < Budget(s) then through == head.recordedThrough
    else if Budget(s) == 0 then through == c.recordedThrough
    else Furthest(ReadAhead(s, visible, c, head), through)
  }

  /** What a pass over a quiet source publishes. */
  ghost predicate ReadsBoth(s: Settings, visible: set<Candidate>, p: Position, head: Head, rows: Projection)
    requires head.recordedThrough >= 0
  {
    && Faithful(rows, visible)
    && Projected(visible, p.rows, rows,
                 ReadAhead(s, visible, p.checkpoint, head) + ReadBehind(s, visible, p.checkpoint), {})
  }

  lemma ProjectedBoth(visible: set<Candidate>, p: Projection, q: Projection, r: Projection, a: set<Candidate>,
                      b: set<Candidate>)
    requires Projected(visible, p, q, a, {}) && Projected(visible, q, r, b, {})
    ensures Projected(visible, p, r, a + b, {})
  {
  }

  /** All of it: which drains reached their ends, what was published, where the checkpoint went. */
  ghost predicate PassFacts(s: Settings, visible: set<Candidate>, p: Position, head: Head, after: Pass)
    requires head.recordedThrough >= 0
  {
    && after.ok
    && (after.frontier <==> |Ahead(visible, p.checkpoint, head)| < Budget(s))
    && (!after.frontier ==> |ReadAhead(s, visible, p.checkpoint, head)| == Budget(s))
    && (after.trailing <==> p.checkpoint.recordedThrough == 0 || |Behind(s, visible, p.checkpoint)| < Budget(s))
    && after.position.checkpoint.caughtUp == (after.frontier && after.trailing)
    && ReadsBoth(s, visible, p, head, after.position.rows)
    && NextCheckpoint(s, visible, p.checkpoint, head, after.position.checkpoint.recordedThrough)
    && p.checkpoint.recordedThrough <= after.position.checkpoint.recordedThrough <= head.recordedThrough
    && after.position.checkpoint.kind == p.checkpoint.kind
  }

  /** The frontier drain of a pass over a quiet source. */
  ghost predicate FrontierFacts(s: Settings, visible: set<Candidate>, p: Position, head: Head, frontier: Drain)
    requires head.recordedThrough >= 0
  {
    && (frontier.status == Complete || frontier.status == Running)
    && (frontier.status == Complete <==> |Ahead(visible, p.checkpoint, head)| < Budget(s))
    && Faithful(frontier.rows, visible)
    && Projected(visible, p.rows, frontier.rows, ReadAhead(s, visible, p.checkpoint, head), {})
    && frontier.maxRecordedAt <= head.recordedThrough
    && (frontier.status == Running ==>
          && |ReadAhead(s, visible, p.checkpoint, head)| == Budget(s)
          && if Budget(s) == 0 then frontier.maxRecordedAt == 0
             else Furthest(ReadAhead(s, visible, p.checkpoint, head), frontier.maxRecordedAt))
  }

  lemma QuietFrontier(s: Settings, env: Env, visible: set<Candidate>, p: Position, call: nat, head: Head)
    requires Quiet(s, env, visible, head) && Resting(s, visible, p, head)
    ensures FrontierFacts(s, visible, p, head, DrainWindow(s, env, p.rows, FrontierWindow(p.checkpoint, head), call))
  {
    DrainReadsBudget(s, env, visible, p.rows, FrontierWindow(p.checkpoint, head), call);
    ReadWithinWindow(s, env, StartDrain(p.rows, FrontierWindow(p.checkpoint, head), call), s.maxPages);
  }

  ghost predicate TrailingFacts(s: Settings, visible: set<Candidate>, c: Checkpoint, rows: Projection,
                                trailing: Drain)
  {
    && (trailing.status == Complete || trailing.status == Running)
    && (trailing.status == Complete <==> |Behind(s, visible, c)| < Budget(s))
    && Faithful(trailing.rows, visible)
    && Projected(visible, rows, trailing.rows, ReadBehind(s, visible, c), {})
  }

  lemma QuietTrailing(s: Settings, env: Env, visible: set<Candidate>, c: Checkpoint, rows: Projection, call: nat)
    requires Still(s, env, visible) && Faithful(rows, visible) && c.recordedThrough != 0
    ensures TrailingFacts(s, visible, c, rows, DrainWindow(s, env, rows, TrailingWindow(c, s.overlap).value, call))
  {
    DrainReadsBudget(s, env, visible, rows, TrailingWindow(c, s.overlap).value, call);
  }

  /** The end of a pass whose drains did not fail. */
  lemma AdvanceFacts(s: Settings, env: Env, visible: set<Candidate>, p: Position, head: Head, frontier: Drain,
                     rows: Projection, call: nat, trailing: bool)
    requires ValidHead(p.checkpoint, head) && FrontierFacts(s, visible, p, head, frontier)
    requires ReadsBoth(s, visible, p, head, rows)
    requires trailing <==> p.checkpoint.recordedThrough == 0 || |Behind(s, visible, p.checkpoint)| < Budget(s)
    requires env.saves(call)
    ensures PassFacts(s, visible, p, head, Advance(env, p.checkpoint, head, frontier, rows, call, trailing))
  {
  }

  /** A pass over a quiet source succeeds, publishes exactly what fits its two page budgets, and leaves the
      checkpoint at the head or at the last row the forward budget reached. */
  lemma QuietPass(s: Settings, env: Env, visible: set<Candidate>, p: Position, call: nat, head: Head)
    requires Quiet(s, env, visible, head) && Resting(s, visible, p, head)
    ensures PassFacts(s, visible, p, head, ProjectSource(s, env, p, call))
  {
    var ck := p.checkpoint;
    QuietFrontier(s, env, visible, p, call + 2, head);
    var frontier := DrainWindow(s, env, p.rows, FrontierWindow(ck, head), call + 2);
    if ck.recordedThrough == 0 {
      ProjectedBoth(visible, p.rows, frontier.rows, frontier.rows, ReadAhead(s, visible, ck, head), {});
      AdvanceFacts(s, env, visible, p, head, frontier, frontier.rows, frontier.call, true);
    } else {
      QuietTrailing(s, env, visible, ck, frontier.rows, frontier.call);
      var trailing := DrainWindow(s, env, frontier.rows, TrailingWindow(ck, s.overlap).value, frontier.call);
      ProjectedBoth(visible, p.rows, frontier.rows, trailing.rows, ReadAhead(s, visible, ck, head),
                    ReadBehind(s, visible, ck));
      AdvanceFacts(s, env, visible, p, head, frontier, trailing.rows, trailing.call, trailing.status == Complete);
    }
  }
}
