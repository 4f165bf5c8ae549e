/** What a trailing drain that runs out of pages costs: exactly when a pass leaves a row behind for good, and a
    run in which it does. */
module ProjectorLoss {
  import opened Text
  import opened ActivityTypes
  import opened Projector
  import opened ProjectorDrain
  import opened ProjectorRuns
  import opened ProjectorStatic
  import opened ProjectorCatchUp

  /** Every unprojected row behind the checkpoint that the trailing budget does not reach will still be
      within the overlap of the next checkpoint. */
  ghost predicate StillReachable(s: Settings, visible: set<Candidate>, p: Position, through: Time) {
    forall c :: c in Behind(s, visible, p.checkpoint) - ReadBehind(s, visible, p.checkpoint) && !Has(p.rows, c)
                && c.recordedAt < p.checkpoint.recordedThrough ==>
      c.recordedAt >= through - s.overlap
  }

  /** A row the forward drain did not reach is at or after the new checkpoint. */
  lemma UnreadAhead(s: Settings, visible: set<Candidate>, p: Position, head: Head, after: Pass, c: Candidate)
    requires Resting(s, visible, p, head) && PassFacts(s, visible, p, head, after)
    requires c in visible && c.recordedAt >= p.checkpoint.recordedThrough
    requires c !in ReadAhead(s, visible, p.checkpoint, head)
    ensures c.recordedAt >= after.position.checkpoint.recordedThrough
  {
    var w := FrontierWindow(p.checkpoint, head);
    var now := after.position.checkpoint.recordedThrough;
    if after.frontier {
      AllWithin(s, visible, w);
    } else if c.recordedAt < now && Budget(s) > 0 {
      var last :| last in ReadAhead(s, visible, p.checkpoint, head) && last.recordedAt == now;
      Earlier(s, visible, w, c, last);
    }
  }

  /** A pass that advances the checkpoint loses no row exactly when every row it could not reach stays within
      the overlap. The condition speaks of the position before the pass and the checkpoint it will write. */
  lemma LosesNothingExactly(s: Settings, env: Env, visible: set<Candidate>, p: Position, call: nat, head: Head,
                            through: Time)
    requires Quiet(s, env, visible, head) && Resting(s, visible, p, head) && p.checkpoint.recordedThrough != 0
    requires NoneLost(visible, p.rows, p.checkpoint.recordedThrough, s.overlap)
    requires NextCheckpoint(s, visible, p.checkpoint, head, through)
    ensures var after := ProjectSource(s, env, p, call).position;
            && after.checkpoint.recordedThrough == through
            && (NoneLost(visible, after.rows, through, s.overlap) <==> StillReachable(s, visible, p, through))
  {
    QuietPass(s, env, visible, p, call, head);
    LosesNothing(s, visible, p, head, ProjectSource(s, env, p, call), through);
  }

  lemma LosesNothing(s: Settings, visible: set<Candidate>, p: Position, head: Head, after: Pass, through: Time)
    requires Resting(s, visible, p, head) && p.checkpoint.recordedThrough != 0 && PassFacts(s, visible, p, head, after)
    requires NoneLost(visible, p.rows, p.checkpoint.recordedThrough, s.overlap)
    requires NextCheckpoint(s, visible, p.checkpoint, head, through)
    ensures after.position.checkpoint.recordedThrough == through
    ensures NoneLost(visible, after.position.rows, through, s.overlap) <==> StillReachable(s, visible, p, through)
  {
    var ck := p.checkpoint;
    if StillReachable(s, visible, p, through) {
      forall c | c in visible && !Has(after.position.rows, c)
        ensures c.recordedAt >= through - s.overlap
      {
        if c.recordedAt >= ck.recordedThrough {
          UnreadAhead(s, visible, p, head, after, c);
        }
      }
    }
    if NoneLost(visible, after.position.rows, through, s.overlap) {
      forall c | c in Behind(s, visible, ck) - ReadBehind(s, visible, ck) && !Has(p.rows, c) && c.recordedAt < ck.recordedThrough
        ensures c.recordedAt >= through - s.overlap
      {
        assert c !in ReadAhead(s, visible, ck, head);
      }
    }
  }

  // ----- an ordered adapter exists for every finite source -----

  ghost predicate Keyed(visible: set<Candidate>) {
    forall a, b :: a in visible && b in visible && SameKey(a, b) ==> a == b
  }

  lemma {:induction false} FirstExists(rows: set<Candidate>) returns (first: Candidate)
    requires rows != {} && Keyed(rows)
    ensures first in rows && forall c :: c in rows && c != first ==> Before(first, c)
    decreases |rows|
  {
    var any :| any in rows;
    first := any;
    var rest := rows - {any};
    if rest != {} {
      var least := FirstExists(rest);
      BeforeTotal(any, least);
      if Before(any, least) {
        forall c | c in rest && c != least
          ensures Before(any, c)
        {
          BeforeTransitive(any, least, c);
        }
      } else {
        first := least;
      }
    }
  }

  lemma {:induction false} PageExists(visible: set<Candidate>, w: Window, limit: nat) returns (page: seq<Candidate>)
    requires Keyed(visible)
    ensures IsPage(visible, w, limit, page)
    decreases limit
  {
    page := [];
    assert forall c :: c in visible && InWindow(c, w) ==> c in Rows(visible, w);
    if limit > 0 && Rows(visible, w) != {} {
      var first := FirstExists(Rows(visible, w));
      var rest := PageExists(visible - {first}, w, limit - 1);
      page := [first] + rest;
      forall i | 0 <= i < |rest|
        ensures Before(first, rest[i])
      {
        assert rest[i] in rest && rest[i] in Rows(visible, w);
      }
      forall c | c in visible && InWindow(c, w) && c !in page
        ensures |page| == limit && forall i :: 0 <= i < |page| ==> Before(page[i], c)
      {
        assert c in visible - {first};
      }
    }
  }

  /** The page an ordered adapter returns. */
  ghost function PageOf(visible: set<Candidate>, w: Window, limit: nat): seq<Candidate> {
    if exists page :: IsPage(visible, w, limit, page) then var page :| IsPage(visible, w, limit, page); page else []
  }

  // ----- a run that loses a row -----

  const RULES := Rules("record_domain", (s: Subject) => true,
                       (s: SourceIdentity, k: string) => Some(Decimal(s.version as nat)), (c: Candidate) => "")

  const CROWD := 65

  /** One of the rows that become visible late, recorded at 101, 102, ... */
  function Row(i: nat): Candidate
    requires i < CROWD
  {
    var version := (i + 1) as uint64;
    Candidate(Decimal(i + 1), SourceIdentity("record_domain", "e", version), "record_created", 1, 101 + i, false, None,
              [Subject("host", "h", "primary", true, map[], "", false)], Presentation(1, "t", ""), "", "", "", "", "", 0, false, "")
  }

  function RowsBelow(n: nat): set<Candidate>
    requires n <= CROWD
  {
    set i | 0 <= i < n :: Row(i)
  }

  lemma {:induction false} RowsBelowSize(n: nat)
    requires n <= CROWD
    ensures |RowsBelow(n)| == n
  {
    if n > 0 {
      RowsBelowSize(n - 1);
      assert RowsBelow(n) == RowsBelow(n - 1) + {Row(n - 1)};
    }
  }

  lemma RowsAreApart(i: nat, j: nat)
    requires i < CROWD && j < CROWD && (SameKey(Row(i), Row(j)) || Row(i).activityId == Row(j).activityId)
    ensures i == j
  {
    DecimalInjective(i + 1, j + 1);
  }

  const KIND := "record_domain"
  const SETTINGS := Settings(RULES, 1, MAX_SCAN_PAGES, 100)
  const TIMING := Timing((t: nat) => if t < 4 then 200 else 1000, 0, 100)
  const HEAD := Head(KIND, 1000)

  function Everything(): set<Candidate> {
    RowsBelow(CROWD)
  }

  /** Nothing is visible during the first pass, everything from the second on. */
  function LateSource(): Source {
    (t: nat) => if t < 4 then {} else Everything()
  }

  ghost function LateEnv(): Env {
    Env((call: nat, w: Window, limit: nat) => Page(PageOf(LateSource()(call), w, limit)),
        (t: nat) => Some(Head(KIND, TIMING.clock(t))), (t: nat) => true, (t: nat) => true, (t: nat) => true)
  }

  /** As the second pass sees it. */
  ghost function SettledEnv(): Env {
    Env((call: nat, w: Window, limit: nat) => Page(PageOf(Everything(), w, limit)),
        (t: nat) => Some(HEAD), (t: nat) => true, (t: nat) => true, (t: nat) => true)
  }

  ghost predicate AgreeFrom(a: Env, b: Env, t: nat) {
    && (forall call: nat :: call >= t ==>
          a.head(call) == b.head(call) && a.publishes(call) == b.publishes(call) && a.loads(call) == b.loads(call) && a.saves(call) == b.saves(call))
    && forall call: nat, w: Window, limit: nat :: call >= t ==> a.scan(call, w, limit) == b.scan(call, w, limit)
  }

  ghost predicate SameStepsFrom(f: Drain -> Drain, g: Drain -> Drain, t: nat) {
    forall d: Drain :: d.call >= t ==> f(d) == g(d) && f(d).call >= t
  }

  lemma {:induction false} SameIterate(f: Drain -> Drain, g: Drain -> Drain, t: nat, d: Drain, pages: nat)
    requires SameStepsFrom(f, g, t) && d.call >= t
    ensures Iterate(f, d, pages) == Iterate(g, d, pages) && Iterate(f, d, pages).call >= t
    decreases pages
  {
    if pages > 0 && d.status == Running {
      SameIterate(f, g, t, f(d), pages - 1);
    }
  }

  lemma SameStep(s: Settings, a: Env, b: Env, t: nat, d: Drain)
    requires AgreeFrom(a, b, t) && d.call >= t
    ensures PageStep(s, a, d) == PageStep(s, b, d) && PageStep(s, a, d).call >= t
  {
  }

  lemma SameSteps(s: Settings, a: Env, b: Env, t: nat)
    requires AgreeFrom(a, b, t)
    ensures SameStepsFrom(Step(s, a), Step(s, b), t)
  {
    forall d: Drain | d.call >= t
      ensures Step(s, a)(d) == Step(s, b)(d) && Step(s, a)(d).call >= t
    {
      SameStep(s, a, b, t, d);
    }
  }

  lemma SameDrain(s: Settings, a: Env, b: Env, t: nat, d: Drain, pages: nat)
    requires AgreeFrom(a, b, t) && d.call >= t
    ensures DrainPages(s, a, d, pages) == DrainPages(s, b, d, pages) && DrainPages(s, a, d, pages).call >= t
  {
    SameSteps(s, a, b, t);
    SameIterate(Step(s, a), Step(s, b), t, d, pages);
    DrainIterates(s, a, d, pages);
    DrainIterates(s, b, d, pages);
  }

  /** A pass depends only on what the outside answers from its start. */
  lemma SamePass(s: Settings, a: Env, b: Env, t: nat, p: Position, call: nat)
    requires AgreeFrom(a, b, t) && call >= t
    ensures ProjectSource(s, a, p, call) == ProjectSource(s, b, p, call)
  {
    if a.head(call + 1).Some? && ValidHead(p.checkpoint, a.head(call + 1).value) {
      var head := a.head(call + 1).value;
      var w := FrontierWindow(p.checkpoint, head);
      SameDrain(s, a, b, t, StartDrain(p.rows, w, call + 2), s.maxPages);
      SameTrail(s, a, b, t, p.checkpoint, head, DrainWindow(s, a, p.rows, w, call + 2));
    }
  }

  lemma SameTrail(s: Settings, a: Env, b: Env, t: nat, checkpoint: Checkpoint, head: Head, frontier: Drain)
    requires AgreeFrom(a, b, t) && frontier.call >= t && head.recordedThrough >= 0
    ensures Trail(s, a, checkpoint, head, frontier) == Trail(s, b, checkpoint, head, frontier)
  {
    if checkpoint.recordedThrough != 0 {
      SameDrain(s, a, b, t, StartDrain(frontier.rows, TrailingWindow(checkpoint, s.overlap).value, frontier.call),
                s.maxPages);
    }
  }

  lemma PagesServed(visible: set<Candidate>, w: Window, limit: nat)
    requires Keyed(visible)
    ensures IsPage(visible, w, limit, PageOf(visible, w, limit))
  {
    var page := PageExists(visible, w, limit);
  }

  lemma RowsAreOrderly()
    ensures forall a, b :: a in Everything() && b in Everything() && (SameKey(a, b) || a.activityId == b.activityId) ==>
      a == b
    ensures forall c :: c in Everything() ==> ContentOk(RULES, c) && 101 <= c.recordedAt <= 165
  {
    forall a, b | a in Everything() && b in Everything() && (SameKey(a, b) || a.activityId == b.activityId)
      ensures a == b
    {
      var i :| 0 <= i < CROWD && a == Row(i);
      var j :| 0 <= j < CROWD && b == Row(j);
      RowsAreApart(i, j);
    }
    assert TrimSpace("t") == "t";
  }

  lemma LateRowsAreServed()
    ensures Serves(SETTINGS, LateEnv(), LateSource())
  {
    RowsAreOrderly();
    var env, source := LateEnv(), LateSource();
    forall call: nat, w: Window, limit: nat
      ensures IsPage(source(call), w, limit, env.scan(call, w, limit).rows)
    {
      PagesServed(source(call), w, limit);
    }
  }

  lemma LateRowsAreOrderly()
    ensures Orderly(RULES, LateSource())
  {
    RowsAreOrderly();
  }

  lemma LateRowsAreTimely()
    ensures Timely(LateSource(), TIMING) && LaggingHeads(SETTINGS, LateEnv(), TIMING)
  {
    RowsAreOrderly();
  }

  lemma SettledIsServed()
    ensures Serves(SETTINGS, SettledEnv(), Fixed(Everything()))
  {
    RowsAreOrderly();
    forall call: nat, w: Window, limit: nat
      ensures IsPage(Everything(), w, limit, SettledEnv().scan(call, w, limit).rows)
    {
      PagesServed(Everything(), w, limit);
    }
  }

  lemma SettledIsQuiet()
    ensures Quiet(SETTINGS, SettledEnv(), Everything(), HEAD)
  {
    SettledIsServed();
    RowsAreOrderly();
    assert Orderly(RULES, Fixed(Everything()));
  }

  /** The position the first pass leaves: at its head, with nothing projected. */
  const FIRST := Position(Checkpoint(KIND, 200, true, 0, None), map[])

  lemma FirstPass()
    ensures ProjectSource(SETTINGS, LateEnv(), Untouched(RULES), 0) == Pass(FIRST, 4, true, Some(Head(KIND, 200)), true, true)
  {
    var env, start := LateEnv(), Untouched(RULES);
    var w := FrontierWindow(start.checkpoint, Head(KIND, 200));
    PagesServed({}, w, 1);
    var page := PageOf({}, w, 1);
    assert Rows({}, w) == {};
    PageSize({}, w, 1, page);
    var d := StartDrain(map[], w, 2);
    assert LateSource()(2) == {} && d.At() == w;
    assert env.scan(2, w, 1) == Page(page);
    assert PageStep(SETTINGS, env, d) == d.(status := Complete, call := 3);
  }

  /** The last row has 64 rows before it in the trailing window. */
  lemma LastRowRank(w: Window)
    requires w == Window(100, 200, "")
    ensures Row(64) in Rows(Everything(), w) && Rank(Everything(), w, Row(64)) >= 64
  {
    var before := set x | x in Rows(Everything(), w) && Before(x, Row(64));
    forall i | 0 <= i < 64
      ensures Row(i) in before
    {
      assert Row(i) in Everything();
    }
    RowsBelowSize(64);
    SubsetSize(RowsBelow(64), before);
  }

  lemma LastRowIsOut()
    ensures Row(64) in Behind(SETTINGS, Everything(), FIRST.checkpoint) - ReadBehind(SETTINGS, Everything(), FIRST.checkpoint)
  {
    TotalIsProduct(MAX_SCAN_PAGES, 1);
    LastRowRank(TrailingWindow(FIRST.checkpoint, SETTINGS.overlap).value);
  }

  lemma NothingAhead()
    ensures Ahead(Everything(), FIRST.checkpoint, HEAD) == {} && Budget(SETTINGS) > 0
  {
    RowsAreOrderly();
  }

  /** A pass whose trailing drain runs out of its 64 pages while its frontier is complete advances the
      checkpoint past a row nobody will read again: every assumption of NoLateRowIsLost but the last holds. */
  lemma CappedTrailingLosesARow()
    ensures var turns, env := [Turn(SETTINGS, 0), Turn(SETTINGS, 4)], LateEnv();
            && Sequential(env, LateSource(), TIMING, RULES, Untouched(RULES), turns)
            && var end := RunPasses(env, Untouched(RULES), turns);
            && end.ok && end.frontier && !end.trailing
            && !NoneLost(LateSource()(end.end), end.position.rows, end.position.checkpoint.recordedThrough,
                         TIMING.overlap)
  {
    var turns, env := [Turn(SETTINGS, 0), Turn(SETTINGS, 4)], LateEnv();
    assert turns[..1] == [Turn(SETTINGS, 0)] && turns[..1][..0] == [];
    LateRowsAreServed();
    LateRowsAreOrderly();
    LateRowsAreTimely();
    FirstPass();
    SecondPass();
    PassTakesCalls(SETTINGS, env, FIRST, 4);
  }

  lemma SecondPass()
    ensures var end := ProjectSource(SETTINGS, LateEnv(), FIRST, 4);
            && end.ok && end.frontier && !end.trailing
            && end.position.checkpoint.recordedThrough == 1000
            && !NoneLost(Everything(), end.position.rows, 1000, 100)
  {
    SettledIsQuiet();
    forall call: nat, w: Window, limit: nat | call >= 4
      ensures LateEnv().scan(call, w, limit) == SettledEnv().scan(call, w, limit)
    {
      assert LateSource()(call) == Everything();
    }
    assert AgreeFrom(LateEnv(), SettledEnv(), 4);
    SamePass(SETTINGS, LateEnv(), SettledEnv(), 4, FIRST, 4);
    QuietPass(SETTINGS, SettledEnv(), Everything(), FIRST, 4, HEAD);
    SecondPassLoses(ProjectSource(SETTINGS, LateEnv(), FIRST, 4));
  }

  lemma SecondPassLoses(end: Pass)
    requires PassFacts(SETTINGS, Everything(), FIRST, HEAD, end)
    ensures end.ok && end.frontier && !end.trailing && end.position.checkpoint.recordedThrough == 1000
    ensures !NoneLost(Everything(), end.position.rows, 1000, 100)
  {
    RowsAreOrderly();
    NothingAhead();
    LastRowIsOut();
    LosesNothing(SETTINGS, Everything(), FIRST, HEAD, end, 1000);
    assert !StillReachable(SETTINGS, Everything(), FIRST, 1000);
    if |Behind(SETTINGS, Everything(), FIRST.checkpoint)| < Budget(SETTINGS) {
      AllWithin(SETTINGS, Everything(), TrailingWindow(FIRST.checkpoint, SETTINGS.overlap).value);
    }
  }
}
