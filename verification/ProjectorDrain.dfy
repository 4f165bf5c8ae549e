/** What a drain reads, for an adapter that pages a growing source in keyset order and for one that does not. */
module ProjectorDrain {
  import opened Text
  import opened ActivityTypes
  import opened Projector

  // ----- any adapter at all -----

  /** A full page always moves the keyset cursor forward, so a drain is never stalled. */
  lemma PageStepAdvances(s: Settings, env: Env, d: Drain)
    requires d.status == Running
    ensures PageStep(s, env, d).status != Stalled
    ensures PageStep(s, env, d).status == Running ==>
            KeyLess(d.from, d.after, PageStep(s, env, d).from, PageStep(s, env, d).after)
  {
    var scan := env.scan(d.call, d.At(), s.batchSize);
    if scan.Page? && scan.rows != [] {
      NoRefusal(s.rules, d.At(), scan.rows);
      var last := scan.rows[|scan.rows| - 1];
      assert last in scan.rows;
    }
  }

  // ----- the loop as iterated steps -----

  function Step(s: Settings, env: Env): Drain -> Drain {
    d => PageStep(s, env, d)
  }

  function Iterate(step: Drain -> Drain, d: Drain, pages: nat): Drain
    decreases pages
  {
    if pages == 0 || d.status != Running then d else Iterate(step, step(d), pages - 1)
  }

  lemma {:induction false} DrainIterates(s: Settings, env: Env, d: Drain, pages: nat)
    ensures DrainPages(s, env, d, pages) == Iterate(Step(s, env), d, pages)
    decreases pages
  {
    if pages > 0 && d.status == Running {
      DrainIterates(s, env, PageStep(s, env, d), pages - 1);
    }
  }

  lemma PageWithinWindow(s: Settings, env: Env, d: Drain)
    requires d.through != 0 && d.maxRecordedAt <= d.through
    ensures PageStep(s, env, d).through == d.through && PageStep(s, env, d).maxRecordedAt <= d.through
  {
    var scan := env.scan(d.call, d.At(), s.batchSize);
    if scan.Page? && scan.rows != [] {
      NoRefusal(s.rules, d.At(), scan.rows);
      assert scan.rows[|scan.rows| - 1] in scan.rows;
    }
  }

  lemma {:induction false} IterateNeverStalls(step: Drain -> Drain, d: Drain, pages: nat)
    requires (forall e: Drain :: e.status == Running ==> step(e).status != Stalled) && d.status != Stalled
    ensures Iterate(step, d, pages).status != Stalled
    decreases pages
  {
    if pages > 0 && d.status == Running {
      IterateNeverStalls(step, step(d), pages - 1);
    }
  }

  /** Whatever the adapter returns, a drain is never stalled. */
  lemma NeverStalled(s: Settings, env: Env, d: Drain, pages: nat)
    requires d.status != Stalled
    ensures DrainPages(s, env, d, pages).status != Stalled
  {
    forall e: Drain | e.status == Running
      ensures Step(s, env)(e).status != Stalled
    {
      PageStepAdvances(s, env, e);
    }
    DrainIterates(s, env, d, pages);
    IterateNeverStalls(Step(s, env), d, pages);
  }

  ghost predicate StaysWithin(step: Drain -> Drain) {
    forall d: Drain :: d.through != 0 && d.maxRecordedAt <= d.through ==>
      step(d).through == d.through && step(d).maxRecordedAt <= d.through
  }

  lemma {:induction false} IterateWithin(step: Drain -> Drain, d: Drain, pages: nat)
    requires StaysWithin(step) && d.through != 0 && d.maxRecordedAt <= d.through
    ensures Iterate(step, d, pages).maxRecordedAt <= d.through
    decreases pages
  {
    if pages > 0 && d.status == Running {
      IterateWithin(step, step(d), pages - 1);
    }
  }

  lemma StepsStayWithin(s: Settings, env: Env)
    ensures StaysWithin(Step(s, env))
  {
    forall d: Drain | d.through != 0 && d.maxRecordedAt <= d.through
      ensures Step(s, env)(d).through == d.through && Step(s, env)(d).maxRecordedAt <= d.through
    {
      PageWithinWindow(s, env, d);
    }
  }

  /** Nothing past the window's end is ever counted as read. */
  lemma ReadWithinWindow(s: Settings, env: Env, d: Drain, pages: nat)
    requires d.through != 0 && d.maxRecordedAt <= d.through
    ensures DrainPages(s, env, d, pages).maxRecordedAt <= d.through
  {
    StepsStayWithin(s, env);
    DrainIterates(s, env, d, pages);
    IterateWithin(Step(s, env), d, pages);
  }

  // ----- an ordered adapter over a growing source -----

  /** The rows visible at each call. */
  type Source = nat -> set<Candidate>

  predicate Sorted(page: seq<Candidate>) {
    forall i, j :: 0 <= i < j < |page| ==> Before(page[i], page[j])
  }

  /** The adapter's contract: the first `limit` rows of the window, in keyset order. */
  ghost predicate IsPage(rows: set<Candidate>, w: Window, limit: nat, page: seq<Candidate>) {
    && |page| <= limit && Sorted(page)
    && (forall c :: c in page ==> c in rows && InWindow(c, w))
    && forall c :: c in rows && InWindow(c, w) && c !in page ==>
         |page| == limit && forall i :: 0 <= i < |page| ==> Before(page[i], c)
  }

  ghost predicate Serves(s: Settings, env: Env, source: Source) {
    && s.batchSize > 0
    && forall call, w, limit :: env.scan(call, w, limit).Page? ==>
      IsPage(source(call), w, limit, env.scan(call, w, limit).rows)
  }

  /** Rows only appear, are well formed, and are told apart by their keyset position and by their activity id. */
  ghost predicate Orderly(rules: Rules, source: Source) {
    && (forall t, u :: t <= u ==> source(t) <= source(u))
    && (forall t, c :: c in source(t) ==> ContentOk(rules, c))
    && forall t, a, b :: a in source(t) && b in source(t) && (SameKey(a, b) || a.activityId == b.activityId) ==> a == b
  }

  predicate Has(rows: Projection, c: Candidate) {
    c.activityId in rows && rows[c.activityId] == c
  }

  /** The projection holds rows of the source, each under its own id. */
  ghost predicate Faithful(rows: Projection, visible: set<Candidate>) {
    forall id :: id in rows ==> rows[id] in visible && rows[id].activityId == id
  }

  predicate Extends(rows: Projection, more: Projection) {
    forall id :: id in rows ==> id in more && more[id] == rows[id]
  }

  /** Whatever a batch leaves was there before or is in the batch, and nothing is lost. */
  lemma {:induction false} PublishKeeps(rows: Projection, page: seq<Candidate>)
    requires PublishBatch(rows, page).Some?
    ensures var p := PublishBatch(rows, page).value.rows;
            && Extends(rows, p)
            && (forall c :: c in page ==> c.activityId in p)
            && forall id :: id in p && id !in rows ==> p[id] in page && p[id].activityId == id
  {
    if page != [] {
      var init, c := page[..|page| - 1], page[|page| - 1];
      assert page == init + [c];
      PublishKeeps(rows, init);
    }
  }

  /** A batch of an orderly source's rows is never refused for its content. */
  lemma {:induction false} PublishSucceeds(rows: Projection, page: seq<Candidate>, visible: set<Candidate>)
    requires forall a, b :: a in visible && b in visible && a.activityId == b.activityId ==> a == b
    requires Faithful(rows, visible) && forall c :: c in page ==> c in visible
    ensures PublishBatch(rows, page).Some?
  {
    if page != [] {
      var init, c := page[..|page| - 1], page[|page| - 1];
      assert page == init + [c];
      PublishSucceeds(rows, init, visible);
      assert c in visible;
    }
  }

  lemma PublishFacts(rows: Projection, page: seq<Candidate>, visible: set<Candidate>)
    requires forall a, b :: a in visible && b in visible && a.activityId == b.activityId ==> a == b
    requires Faithful(rows, visible) && forall c :: c in page ==> c in visible
    ensures PublishBatch(rows, page).Some?
    ensures var p := PublishBatch(rows, page).value.rows;
            Faithful(p, visible) && Extends(rows, p) && forall c :: c in page ==> Has(p, c)
  {
    PublishSucceeds(rows, page, visible);
    PublishKeeps(rows, page);
    var p := PublishBatch(rows, page).value.rows;
    forall c | c in page
      ensures Has(p, c)
    {
      assert p[c.activityId] in visible && c in visible;
    }
  }

  /** Rows of the window at or before the cursor are projected. */
  ghost predicate Covered(visible: set<Candidate>, w: Window, d: Drain) {
    forall c :: c in visible && InWindow(c, w) && !AfterCursor(c, d.from, d.after) ==> Has(d.rows, c)
  }

  ghost predicate CoveredAll(visible: set<Candidate>, w: Window, rows: Projection) {
    forall c :: c in visible && InWindow(c, w) ==> Has(rows, c)
  }

  /** The cursor has only moved forward from the window's start. */
  ghost predicate Narrower(w: Window, d: Drain) {
    forall c :: AfterCursor(c, d.from, d.after) ==> AfterCursor(c, w.from, w.afterEventId)
  }

  ghost predicate AddsWithin(rows0: Projection, rows: Projection, w: Window) {
    Extends(rows0, rows) && forall id :: id in rows && id !in rows0 ==> InWindow(rows[id], w)
  }

  /** What a drain that began at call t0 has achieved. */
  ghost predicate DrainInv(source: Source, t0: nat, rows0: Projection, w: Window, d: Drain) {
    && t0 <= d.call && d.through == w.through
    && Faithful(d.rows, source(d.call)) && AddsWithin(rows0, d.rows, w)
    && Narrower(w, d)
    && Covered(source(t0), w, d)
    && (d.status == Complete ==> CoveredAll(source(t0), w, d.rows))
    && (d.status == Running ==> d.maxRecordedAt == 0 || d.maxRecordedAt == d.from)
  }

  lemma StartInv(source: Source, rows: Projection, w: Window, call: nat)
    requires Faithful(rows, source(call))
    ensures DrainInv(source, call, rows, w, StartDrain(rows, w, call))
  {
  }

  /** Following the cursor past the last row of a page keeps to the window. */
  lemma CursorForward(from: int, after: string, last: Candidate, c: Candidate)
    requires last.recordedAt != 0 && AfterCursor(last, from, after)
    requires AfterCursor(c, last.recordedAt, last.source.eventId)
    requires last.source.eventId != ""
    ensures AfterCursor(c, from, after)
  {
    if from == last.recordedAt == c.recordedAt && after != "" {
      LessTransitive(after, last.source.eventId, c.source.eventId);
    }
  }

  /** A row after the cursor is on the page or after all of it. */
  lemma PageCovers(visible: set<Candidate>, w: Window, limit: nat, page: seq<Candidate>, c: Candidate)
    requires IsPage(visible, w, limit, page) && page != [] && c in visible && InWindow(c, w) && c !in page
    ensures |page| == limit && AfterCursor(c, page[|page| - 1].recordedAt, page[|page| - 1].source.eventId)
  {
  }

  lemma {:induction false} ExtendsTransitive(a: Projection, b: Projection, c: Projection, w: Window)
    requires AddsWithin(a, b, w) && Extends(b, c)
    requires forall id :: id in c && id !in b ==> InWindow(c[id], w)
    ensures AddsWithin(a, c, w)
  {
  }

  /** The projector has no objection to a page of an orderly source. */
  lemma PageAccepted(s: Settings, env: Env, source: Source, d: Drain, page: seq<Candidate>)
    requires Serves(s, env, source) && Orderly(s.rules, source) && env.scan(d.call, d.At(), s.batchSize) == Page(page)
    ensures IsPage(source(d.call), d.At(), s.batchSize, page) && FirstRefusal(s.rules, d.At(), page) == None
    ensures forall c :: c in page ==> c in source(d.call) && c.recordedAt != 0 && c.source.eventId != ""
  {
    assert IsPage(source(d.call), d.At(), s.batchSize, page);
    forall c | c in page
      ensures ContentOk(s.rules, c) && InWindow(c, d.At()) && c in source(d.call)
    {
      assert c in source(d.call);
    }
    NoRefusal(s.rules, d.At(), page);
  }

  lemma PublishedPageInv(s: Settings, source: Source, t0: nat, rows0: Projection, w: Window, d: Drain,
                         page: seq<Candidate>)
    requires s.batchSize > 0 && page != [] && DrainInv(source, t0, rows0, w, d) && d.status == Running
    requires source(t0) <= source(d.call) <= source(d.call + 1)
    requires forall a, b :: a in source(d.call) && b in source(d.call) && a.activityId == b.activityId ==> a == b
    requires IsPage(source(d.call), d.At(), s.batchSize, page)
    requires forall c :: c in page ==> c in source(d.call) && c.recordedAt != 0 && c.source.eventId != ""
    ensures PublishBatch(d.rows, page).Some?
    ensures DrainInv(source, t0, rows0, w, AfterPage(s, d, page, PublishBatch(d.rows, page).value))
  {
    PublishFacts(d.rows, page, source(d.call));
    PublishKeeps(d.rows, page);
    AfterPageInv(s, source, t0, rows0, w, d, page, PublishBatch(d.rows, page).value);
  }

  lemma PageStepInv(s: Settings, env: Env, source: Source, t0: nat, rows0: Projection, w: Window, d: Drain)
    requires Serves(s, env, source) && Orderly(s.rules, source)
    requires DrainInv(source, t0, rows0, w, d) && d.status == Running
    ensures DrainInv(source, t0, rows0, w, PageStep(s, env, d))
    ensures PageStep(s, env, d).call == d.call + 1
  {
    var scan := env.scan(d.call, d.At(), s.batchSize);
    assert source(t0) <= source(d.call) <= source(d.call + 1);
    if scan.Page? {
      PageAccepted(s, env, source, d, scan.rows);
      if scan.rows == [] {
        EmptyPageCompletes(source, t0, w, d, s.batchSize);
      } else if env.publishes(d.call) {
        PublishedPageInv(s, source, t0, rows0, w, d, scan.rows);
      }
    }
  }

  lemma EmptyPageCompletes(source: Source, t0: nat, w: Window, d: Drain, limit: nat)
    requires source(t0) <= source(d.call) && d.through == w.through && limit > 0
    requires IsPage(source(d.call), d.At(), limit, []) && Covered(source(t0), w, d)
    ensures CoveredAll(source(t0), w, d.rows)
  {
    forall c | c in source(t0) && InWindow(c, w)
      ensures Has(d.rows, c)
    {
      assert InWindow(c, d.At()) ==> c in [];
    }
  }

  /** Publishing a page leaves only rows after its last one unprojected. */
  lemma PageProjects(visible: set<Candidate>, now: set<Candidate>, w: Window, d: Drain, limit: nat,
                     page: seq<Candidate>, rows: Projection)
    requires page != [] && visible <= now && d.through == w.through
    requires IsPage(now, d.At(), limit, page) && Covered(visible, w, d)
    requires Extends(d.rows, rows) && forall c :: c in page ==> Has(rows, c)
    ensures forall c :: c in visible && InWindow(c, w) && !Has(rows, c) ==>
              |page| == limit && AfterCursor(c, page[|page| - 1].recordedAt, page[|page| - 1].source.eventId)
  {
    forall c | c in visible && InWindow(c, w) && !Has(rows, c)
      ensures |page| == limit && AfterCursor(c, page[|page| - 1].recordedAt, page[|page| - 1].source.eventId)
    {
      assert !Has(d.rows, c);
      PageCovers(now, d.At(), limit, page, c);
    }
  }

  lemma PageAdds(rows0: Projection, d: Drain, rows: Projection, page: seq<Candidate>, w: Window)
    requires AddsWithin(rows0, d.rows, w) && Extends(d.rows, rows) && Narrower(w, d) && d.through == w.through
    requires forall c :: c in page ==> InWindow(c, d.At())
    requires forall id :: id in rows && id !in d.rows ==> rows[id] in page
    ensures AddsWithin(rows0, rows, w)
  {
    forall id | id in rows && id !in d.rows
      ensures InWindow(rows[id], w)
    {
      assert InWindow(rows[id], d.At());
    }
    ExtendsTransitive(rows0, d.rows, rows, w);
  }

  lemma PageNarrows(w: Window, d: Drain, last: Candidate)
    requires Narrower(w, d) && AfterCursor(last, d.from, d.after) && last.recordedAt != 0 && last.source.eventId != ""
    ensures forall c :: AfterCursor(c, last.recordedAt, last.source.eventId) ==> AfterCursor(c, w.from, w.afterEventId)
  {
    forall c | AfterCursor(c, last.recordedAt, last.source.eventId)
      ensures AfterCursor(c, w.from, w.afterEventId)
    {
      CursorForward(d.from, d.after, last, c);
    }
  }

  lemma AfterPageInv(s: Settings, source: Source, t0: nat, rows0: Projection, w: Window, d: Drain, page: seq<Candidate>,
                     p: Published)
    requires s.batchSize > 0 && page != [] && DrainInv(source, t0, rows0, w, d) && d.status == Running
    requires source(t0) <= source(d.call) <= source(d.call + 1)
    requires IsPage(source(d.call), d.At(), s.batchSize, page) && forall c :: c in page ==>
      c.recordedAt != 0 && c.source.eventId != ""
    requires Faithful(p.rows, source(d.call)) && Extends(d.rows, p.rows) && (forall c :: c in page ==> Has(p.rows, c))
    requires forall id :: id in p.rows && id !in d.rows ==> p.rows[id] in page
    ensures DrainInv(source, t0, rows0, w, AfterPage(s, d, page, p))
  {
    var last := page[|page| - 1];
    assert last in page && InWindow(last, d.At());
    PageProjects(source(t0), source(d.call), w, d, s.batchSize, page, p.rows);
    PageAdds(rows0, d, p.rows, page, w);
    PageNarrows(w, d, last);
  }

  lemma {:induction false} DrainPagesInv(s: Settings, env: Env, source: Source, t0: nat, rows0: Projection, w: Window,
                                         d: Drain, pages: nat)
    requires Serves(s, env, source) && Orderly(s.rules, source) && DrainInv(source, t0, rows0, w, d)
    ensures DrainInv(source, t0, rows0, w, DrainPages(s, env, d, pages))
    decreases pages
  {
    if pages > 0 && d.status == Running {
      PageStepInv(s, env, source, t0, rows0, w, d);
      DrainPagesInv(s, env, source, t0, rows0, w, PageStep(s, env, d), pages - 1);
    }
  }

  /** A drain of a window, over a source that keeps growing while it runs: it adds only rows of the window,
      a complete drain has them all, and an incomplete one lacks only rows recorded at or after the last it read. */
  lemma DrainRefinesFilter(s: Settings, env: Env, source: Source, rows: Projection, w: Window, call: nat)
    requires Serves(s, env, source) && Orderly(s.rules, source) && Faithful(rows, source(call))
    ensures var d := DrainWindow(s, env, rows, w, call);
            && call <= d.call && d.status != Stalled
            && Faithful(d.rows, source(d.call)) && AddsWithin(rows, d.rows, w)
            && (d.status == Complete ==> CoveredAll(source(call), w, d.rows))
            && (d.status == Running ==>
                  forall c :: c in source(call) && InWindow(c, w) && !Has(d.rows, c) ==>
                    c.recordedAt >= d.maxRecordedAt)
  {
    StartInv(source, rows, w, call);
    DrainPagesInv(s, env, source, call, rows, w, StartDrain(rows, w, call), s.maxPages);
    NeverStalled(s, env, StartDrain(rows, w, call), s.maxPages);
  }

  // ----- no row twice -----

  /** The rows one iteration publishes. */
  function PageRead(s: Settings, env: Env, d: Drain): seq<Candidate> {
    var scan := env.scan(d.call, d.At(), s.batchSize);
    if scan.Page? && !PageStep(s, env, d).status.Failed? then scan.rows else []
  }

  /** The rows a drain publishes, page after page. */
  function Reads(s: Settings, env: Env, d: Drain, pages: nat): seq<Candidate>
    decreases pages
  {
    if pages == 0 || d.status != Running then []
    else PageRead(s, env, d) + Reads(s, env, PageStep(s, env, d), pages - 1)
  }

  /** A page in order and past the cursor, and a cursor left at its end. */
  ghost predicate Advances(d: Drain, page: seq<Candidate>, next: Drain) {
    && Sorted(page)
    && (forall c :: c in page ==> AfterCursor(c, d.from, d.after) && c.recordedAt != 0 && c.source.eventId != "")
    && (next.status == Running ==>
          page != [] && next.from == page[|page| - 1].recordedAt && next.after == page[|page| - 1].source.eventId)
  }

  lemma PageReadFacts(s: Settings, env: Env, source: Source, d: Drain)
    requires Serves(s, env, source) && Orderly(s.rules, source) && d.status == Running
    ensures Advances(d, PageRead(s, env, d), PageStep(s, env, d))
  {
    var scan := env.scan(d.call, d.At(), s.batchSize);
    if scan.Page? {
      PageAccepted(s, env, source, d, scan.rows);
    }
  }

  function Reading(s: Settings, env: Env): Drain -> seq<Candidate> {
    d => PageRead(s, env, d)
  }

  function IterateReads(step: Drain -> Drain, read: Drain -> seq<Candidate>, d: Drain, pages: nat): seq<Candidate>
    decreases pages
  {
    if pages == 0 || d.status != Running then [] else read(d) + IterateReads(step, read, step(d), pages - 1)
  }

  lemma {:induction false} ReadsIterate(s: Settings, env: Env, d: Drain, pages: nat)
    ensures Reads(s, env, d, pages) == IterateReads(Step(s, env), Reading(s, env), d, pages)
    decreases pages
  {
    if pages > 0 && d.status == Running {
      ReadsIterate(s, env, PageStep(s, env, d), pages - 1);
    }
  }

  lemma {:induction false} IterateInOrder(step: Drain -> Drain, read: Drain -> seq<Candidate>, d: Drain, pages: nat)
    requires forall e: Drain :: e.status == Running ==> Advances(e, read(e), step(e))
    ensures Sorted(IterateReads(step, read, d, pages))
    ensures forall c :: c in IterateReads(step, read, d, pages) ==> AfterCursor(c, d.from, d.after)
    decreases pages
  {
    if pages > 0 && d.status == Running {
      assert Advances(d, read(d), step(d));
      IterateInOrder(step, read, step(d), pages - 1);
      ReadsJoin(read(d), IterateReads(step, read, step(d), pages - 1), d, step(d));
    }
  }

  /** Within one drain rows are read in strict keyset order, so none is read twice, even when many full
      pages share one recorded time. */
  lemma ReadsInOrder(s: Settings, env: Env, source: Source, d: Drain, pages: nat)
    requires Serves(s, env, source) && Orderly(s.rules, source)
    ensures Sorted(Reads(s, env, d, pages))
    ensures forall c :: c in Reads(s, env, d, pages) ==> AfterCursor(c, d.from, d.after)
  {
    forall e: Drain | e.status == Running
      ensures Advances(e, Reading(s, env)(e), Step(s, env)(e))
    {
      PageReadFacts(s, env, source, e);
    }
    ReadsIterate(s, env, d, pages);
    IterateInOrder(Step(s, env), Reading(s, env), d, pages);
  }

  lemma ReadsJoin(page: seq<Candidate>, rest: seq<Candidate>, d: Drain, next: Drain)
    requires Advances(d, page, next) && Sorted(rest)
    requires if next.status == Running then forall c :: c in rest ==>
      AfterCursor(c, next.from, next.after) else rest == []
    ensures Sorted(page + rest) && forall c :: c in page + rest ==> AfterCursor(c, d.from, d.after)
  {
    if next.status == Running {
      ReadsChain(page, rest, d, next);
    } else {
      assert page + rest == page;
    }
  }

  lemma ReadsChain(page: seq<Candidate>, rest: seq<Candidate>, d: Drain, next: Drain)
    requires page != [] && Sorted(page) && Sorted(rest)
    requires forall c :: c in page ==> AfterCursor(c, d.from, d.after) && c.recordedAt != 0 && c.source.eventId != ""
    requires next.from == page[|page| - 1].recordedAt && next.after == page[|page| - 1].source.eventId
    requires forall c :: c in rest ==> AfterCursor(c, next.from, next.after)
    ensures Sorted(page + rest) && forall c :: c in page + rest ==> AfterCursor(c, d.from, d.after)
  {
    var last := page[|page| - 1];
    assert last in page;
    forall c | c in rest
      ensures AfterCursor(c, d.from, d.after) && Before(last, c)
    {
      CursorForward(d.from, d.after, last, c);
    }
    var all := page + rest;
    forall i, j | 0 <= i < j < |all|
      ensures Before(all[i], all[j])
    {
      if i < |page| <= j {
        assert all[j] in rest;
        if i < |page| - 1 {
          BeforeTransitive(page[i], last, all[j]);
        }
      }
    }
  }
}
