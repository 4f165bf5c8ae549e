/** Passes over a source at rest lead to one projection, whatever their batch sizes, page budgets, failures and
    checkpoints (internal/center/activity/projector.go). */
module ProjectorConfluence {
  import opened Text
  import opened ActivityTypes
  import opened Projector
  import opened ProjectorDrain
  import opened ProjectorRuns

  function AtRest(visible: set<Candidate>): Source {
    t => visible
  }

  ghost predicate Reads(s: Settings, env: Env, visible: set<Candidate>) {
    Serves(s, env, AtRest(visible)) && Orderly(s.rules, AtRest(visible))
  }

  /** Every row before the checkpoint is projected, and no row after `through` is. */
  ghost predicate Behind(visible: set<Candidate>, p: Position, through: int) {
    && Faithful(p.rows, visible) && NoneAfter(p.rows, through)
    && forall c :: c in visible && c.recordedAt < p.checkpoint.recordedThrough ==> Has(p.rows, c)
  }

  /** A drain keeps that, and reaches as far as it says. */
  lemma DrainKeepsBehind(s: Settings, env: Env, visible: set<Candidate>, rows: Projection, w: Window, call: nat,
                         through: int)
    requires Reads(s, env, visible) && Faithful(rows, visible) && NoneAfter(rows, through) && w.through != 0
    requires w.through <= through
    ensures var d := DrainWindow(s, env, rows, w, call);
            && call <= d.call && d.status != Stalled && Faithful(d.rows, visible) && NoneAfter(d.rows, through)
            && Extends(rows, d.rows)
            && d.maxRecordedAt <= w.through
            && (d.status == Complete ==> CoveredAll(visible, w, d.rows))
            && (d.status == Running ==> forall c :: c in visible && InWindow(c, w) && c.recordedAt < d.maxRecordedAt ==>
                  Has(d.rows, c))
  {
    DrainRefinesFilter(s, env, AtRest(visible), rows, w, call);
    ReadWithinWindow(s, env, StartDrain(rows, w, call), s.maxPages);
  }

  /** How far a pass that moves the checkpoint has projected. */
  lemma AdvanceKeepsBehind(env: Env, visible: set<Candidate>, p: Position, head: Head, frontier: Drain,
                           rows: Projection, call: nat, trailing: bool, through: int)
    requires ValidHead(p.checkpoint, head) && Behind(visible, p, through) && Extends(p.rows, frontier.rows)
    requires Extends(frontier.rows, rows)
    requires Faithful(rows, visible) && NoneAfter(rows, through)
    requires (frontier.status == Complete || frontier.status == Running)
    requires frontier.maxRecordedAt <= head.recordedThrough
    requires var w := FrontierWindow(p.checkpoint, head);
             if frontier.status == Complete then CoveredAll(visible, w, frontier.rows)
             else forall c :: c in visible && InWindow(c, w) && c.recordedAt < frontier.maxRecordedAt ==>
               Has(frontier.rows, c)
    ensures var after := Advance(env, p.checkpoint, head, frontier, rows, call, trailing);
            Behind(visible, after.position, through) && (after.frontier ==>
                                                           AllThrough(visible, rows, head.recordedThrough))
  {
    var w := FrontierWindow(p.checkpoint, head);
    var reached := if frontier.status == Complete then head.recordedThrough else Later(p.checkpoint.recordedThrough, frontier.maxRecordedAt);
    forall c | c in visible && (c.recordedAt < reached || (frontier.status == Complete && c.recordedAt <= reached))
      ensures Has(rows, c)
    {
      if c.recordedAt >= p.checkpoint.recordedThrough {
        assert InWindow(c, w);
      } else {
        assert Has(p.rows, c);
      }
    }
  }

  /** The pass has projected every row through the head it was given. */
  ghost predicate ReadsThrough(visible: set<Candidate>, pass: Pass) {
    pass.head.Some? && AllThrough(visible, pass.position.rows, pass.head.value.recordedThrough)
  }

  /** One pass, however it ends: rows before the checkpoint stay projected, and one that reads its forward window to the
      end has projected every row through the head, even when its trailing drain was cut short. */
  lemma PassKeepsBehind(s: Settings, env: Env, visible: set<Candidate>, p: Position, call: nat, through: int)
    requires Reads(s, env, visible) && Behind(visible, p, through)
    requires env.head(call + 1).Some? ==> env.head(call + 1).value.recordedThrough <= through
    ensures var after := ProjectSource(s, env, p, call);
            && call < after.end && Behind(visible, after.position, through)
            && (after.ok && after.frontier ==> after.head == env.head(call + 1) && ReadsThrough(visible, after))
  {
    if env.loads(call) && p.checkpoint.kind == s.rules.kind && env.head(call + 1).Some? && ValidHead(p.checkpoint, env.head(call + 1).value) {
      var head := env.head(call + 1).value;
      var frontier := DrainWindow(s, env, p.rows, FrontierWindow(p.checkpoint, head), call + 2);
      DrainKeepsBehind(s, env, visible, p.rows, FrontierWindow(p.checkpoint, head), call + 2, through);
      StillBehind(visible, p, frontier.rows, through);
      if !frontier.status.Failed? {
        TrailKeepsBehind(s, env, visible, p, head, frontier, through);
      }
    }
  }

  /** More rows of the source leave none behind. */
  lemma StillBehind(visible: set<Candidate>, p: Position, rows: Projection, through: int)
    requires Behind(visible, p, through) && Extends(p.rows, rows) && Faithful(rows, visible) && NoneAfter(rows, through)
    ensures Behind(visible, Position(p.checkpoint, rows), through)
  {
    forall c | c in visible && c.recordedAt < p.checkpoint.recordedThrough
      ensures Has(rows, c)
    {
      assert Has(p.rows, c);
    }
  }

  lemma TrailKeepsBehind(s: Settings, env: Env, visible: set<Candidate>, p: Position, head: Head, frontier: Drain,
                         through: int)
    requires Reads(s, env, visible) && ValidHead(p.checkpoint, head) && Behind(visible, p, through)
    requires head.recordedThrough <= through
    requires Extends(p.rows, frontier.rows) && Faithful(frontier.rows, visible) && NoneAfter(frontier.rows, through)
    requires (frontier.status == Complete || frontier.status == Running)
    requires frontier.maxRecordedAt <= head.recordedThrough
    requires var w := FrontierWindow(p.checkpoint, head);
             if frontier.status == Complete then CoveredAll(visible, w, frontier.rows)
             else forall c :: c in visible && InWindow(c, w) && c.recordedAt < frontier.maxRecordedAt ==>
               Has(frontier.rows, c)
    ensures var after := Trail(s, env, p.checkpoint, head, frontier);
            && frontier.call < after.end && Behind(visible, after.position, through)
            && (after.ok && after.frontier ==>
                  after.head == Some(head) && AllThrough(visible, after.position.rows, head.recordedThrough))
  {
    match TrailingWindow(p.checkpoint, s.overlap)
    case None =>
      AdvanceKeepsBehind(env, visible, p, head, frontier, frontier.rows, frontier.call, true, through);
    case Some(w) =>
      var trailing := DrainWindow(s, env, frontier.rows, w, frontier.call);
      DrainKeepsBehind(s, env, visible, frontier.rows, w, frontier.call, through);
      if trailing.status.Failed? {
        StillBehind(visible, p, trailing.rows, through);
      } else {
        AdvanceKeepsBehind(env, visible, p, head, frontier, trailing.rows, trailing.call, trailing.status == Complete,
                           through);
      }
  }

  // ----- whole runs -----

  /** Passes over the source at rest, one after the other, each with its own batch size and page budget. */
  ghost predicate Repeats(env: Env, visible: set<Candidate>, rules: Rules, turns: seq<Turn>) {
    turns != [] ==>
      var init, last := turns[..|turns| - 1], turns[|turns| - 1];
      && last.settings.rules == rules && Reads(last.settings, env, visible) && Repeats(env, visible, rules, init)
      && (init != [] ==> RunPasses(env, Untouched(rules), init).end <= last.start)
  }

  /** No head through this call is past `through`. */
  ghost predicate HeadsWithin(env: Env, through: int, end: nat) {
    forall t :: 0 <= t <= end && env.head(t).Some? ==> env.head(t).value.recordedThrough <= through
  }

  lemma {:induction false} RunKeepsBehind(env: Env, visible: set<Candidate>, rules: Rules, turns: seq<Turn>,
                                          through: int)
    requires turns != [] && Repeats(env, visible, rules, turns)
    requires HeadsWithin(env, through, RunPasses(env, Untouched(rules), turns).end)
    ensures var end := RunPasses(env, Untouched(rules), turns);
            Behind(visible, end.position, through) && (end.ok && end.frontier ==> ReadsThrough(visible, end))
    decreases |turns|
  {
    var init, last := turns[..|turns| - 1], turns[|turns| - 1];
    var p := Untouched(rules);
    if init != [] {
      p := RunPasses(env, Untouched(rules), init).position;
    }
    PassTakesCalls(last.settings, env, p, last.start);
    if init != [] {
      RunKeepsBehind(env, visible, rules, init, through);
    }
    PassKeepsBehind(last.settings, env, visible, p, last.start, through);
  }

  /** A run whose last pass read its forward window to the end, under a head no earlier one was past. */
  ghost predicate CaughtUp(env: Env, visible: set<Candidate>, rules: Rules, turns: seq<Turn>, through: int) {
    && turns != [] && Repeats(env, visible, rules, turns)
    && var end := RunPasses(env, Untouched(rules), turns);
    && end.ok && end.frontier && end.head.Some? && end.head.value.recordedThrough == through
    && HeadsWithin(env, through, end.end)
  }

  /** Such a run has projected exactly the rows through the head, whatever its page budgets were and however often
      its passes failed, ran out of pages or had their trailing drain cut short. */
  lemma CaughtUpIsExact(env: Env, visible: set<Candidate>, rules: Rules, turns: seq<Turn>, through: int)
    requires CaughtUp(env, visible, rules, turns, through)
    ensures IsRebuild(RunPasses(env, Untouched(rules), turns).position.rows, visible, through)
  {
    RunKeepsBehind(env, visible, rules, turns, through);
  }

  /** Confluence: two caught-up runs over the same rows and head, with different settings, failures and numbers of
      passes, have projected the same rows; a rebuild from nothing is one of them. */
  lemma RunsAgree(a: Env, turnsA: seq<Turn>, b: Env, turnsB: seq<Turn>, visible: set<Candidate>, rules: Rules,
                  through: int)
    requires CaughtUp(a, visible, rules, turnsA, through) && CaughtUp(b, visible, rules, turnsB, through)
    ensures RunPasses(a, Untouched(rules), turnsA).position.rows == RunPasses(b, Untouched(rules), turnsB).position.rows
  {
    CaughtUpIsExact(a, visible, rules, turnsA, through);
    CaughtUpIsExact(b, visible, rules, turnsB, through);
    RebuildIsUnique(RunPasses(a, Untouched(rules), turnsA).position.rows,
                    RunPasses(b, Untouched(rules), turnsB).position.rows, visible, through);
  }
}
