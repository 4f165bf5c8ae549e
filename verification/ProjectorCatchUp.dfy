/** Catching up with a head that no longer moves. */
module ProjectorCatchUp {
  import opened ActivityTypes
  import opened Projector
  import opened ProjectorStatic

  function AtInstant(visible: set<Candidate>, t: Time): set<Candidate> {
    set c | c in visible && c.recordedAt == t
  }

  lemma Earlier(s: Settings, visible: set<Candidate>, w: Window, a: Candidate, b: Candidate)
    requires a in Rows(visible, w) && b in WithinBudget(s, visible, w) && Before(a, b)
    ensures a in WithinBudget(s, visible, w)
  {
    var before := set x | x in Rows(visible, w) && Before(x, a);
    forall x | x in before
      ensures Before(x, b)
    {
      BeforeTransitive(x, a, b);
    }
    SubsetSize(before, (set x | x in Rows(visible, w) && Before(x, b)));
  }

  /** Reading past an instant means having read every row of that instant, and one more. */
  lemma CrowdIsRead(s: Settings, visible: set<Candidate>, c: Checkpoint, head: Head, t: Time, now: Time)
    requires c.recordedThrough <= t < now && t <= head.recordedThrough && head.recordedThrough != 0
    requires Furthest(ReadAhead(s, visible, c, head), now)
    ensures |AtInstant(visible, t)| < |ReadAhead(s, visible, c, head)|
  {
    var w := FrontierWindow(c, head);
    var last :| last in ReadAhead(s, visible, c, head) && last.recordedAt == now;
    forall a | a in AtInstant(visible, t)
      ensures a in ReadAhead(s, visible, c, head) - {last}
    {
      Earlier(s, visible, w, a, last);
    }
    SubsetSize(AtInstant(visible, t), ReadAhead(s, visible, c, head) - {last});
  }

  /** An incomplete pass strictly advances the checkpoint exactly when fewer rows than its budget share the
      checkpoint's own instant. */
  lemma IncompletePassAdvances(s: Settings, visible: set<Candidate>, p: Position, head: Head, after: Pass)
    requires Resting(s, visible, p, head) && PassFacts(s, visible, p, head, after) && !after.frontier
    ensures var was, now := p.checkpoint.recordedThrough, after.position.checkpoint.recordedThrough;
            was < now <==> |AtInstant(visible, was)| < Budget(s)
  {
    var was, now := p.checkpoint.recordedThrough, after.position.checkpoint.recordedThrough;
    var read := ReadAhead(s, visible, p.checkpoint, head);
    if was < now {
      CrowdIsRead(s, visible, p.checkpoint, head, was, now);
    } else if Budget(s) > 0 {
      assert read <= AtInstant(visible, was);
      SubsetSize(read, AtInstant(visible, was));
    }
  }

  /** A crowded instant ahead of the checkpoint is never passed. */
  lemma CrowdStops(s: Settings, visible: set<Candidate>, p: Position, head: Head, after: Pass, t: Time)
    requires Resting(s, visible, p, head) && PassFacts(s, visible, p, head, after)
    requires p.checkpoint.recordedThrough <= t <= head.recordedThrough && |AtInstant(visible, t)| >= Budget(s)
    ensures !after.frontier && after.position.checkpoint.recordedThrough <= t
  {
    var now := after.position.checkpoint.recordedThrough;
    assert AtInstant(visible, t) <= Ahead(visible, p.checkpoint, head);
    SubsetSize(AtInstant(visible, t), Ahead(visible, p.checkpoint, head));
    if now > t && Budget(s) > 0 {
      CrowdIsRead(s, visible, p.checkpoint, head, t, now);
    }
  }

  // ----- repeated passes -----

  /** A pass as a step of the source's position. */
  type Passing = (Position, nat) -> Pass

  function Projecting(s: Settings, env: Env): Passing {
    (p: Position, call: nat) => ProjectSource(s, env, p, call)
  }

  /** The pass after n earlier ones, each beginning where the one before it ended. */
  function LastPass(pass: Passing, p: Position, call: nat, n: nat): Pass
    decreases n
  {
    var first := pass(p, call);
    if n == 0 then first else LastPass(pass, first.position, first.end, n - 1)
  }

  /** No instant from the checkpoint to the head holds as many rows as one pass may read. */
  ghost predicate Uncrowded(s: Settings, visible: set<Candidate>, from: Time, through: int) {
    forall t: Time :: from <= t <= through ==> |AtInstant(visible, t)| < Budget(s)
  }

  function Remaining(visible: set<Candidate>, p: Position): set<Candidate> {
    set c | c in visible && c.recordedAt > p.checkpoint.recordedThrough
  }

  lemma FewerRemain(s: Settings, visible: set<Candidate>, p: Position, head: Head, after: Pass)
    requires Resting(s, visible, p, head) && PassFacts(s, visible, p, head, after) && !after.frontier
    requires |AtInstant(visible, p.checkpoint.recordedThrough)| < Budget(s)
    ensures |Remaining(visible, after.position)| < |Remaining(visible, p)| && Resting(s, visible, after.position, head)
  {
    IncompletePassAdvances(s, visible, p, head, after);
    var c :| c in ReadAhead(s, visible, p.checkpoint, head) && c.recordedAt == after.position.checkpoint.recordedThrough;
    SubsetSize(Remaining(visible, after.position), Remaining(visible, p) - {c});
  }

  /** From these positions a pass reaches the head or leaves fewer rows ahead. */
  ghost predicate Progressive(visible: set<Candidate>, from: iset<Position>, pass: Passing) {
    forall p, call :: p in from ==>
      var after := pass(p, call);
      after.frontier || (after.position in from && |Remaining(visible, after.position)| < |Remaining(visible, p)|)
  }

  lemma {:induction false} ProgressEnds(visible: set<Candidate>, from: iset<Position>, pass: Passing, p: Position,
                                        call: nat) returns (n: nat)
    requires Progressive(visible, from, pass) && p in from
    ensures n <= |Remaining(visible, p)| && LastPass(pass, p, call, n).frontier
    decreases |Remaining(visible, p)|
  {
    var first := pass(p, call);
    n := 0;
    if !first.frontier {
      n := ProgressEnds(visible, from, pass, first.position, first.end);
      n := n + 1;
    }
  }

  /** Finitely many passes reach the head when no instant is crowded: at most one more than the rows ahead. */
  lemma CatchUpTerminates(s: Settings, env: Env, visible: set<Candidate>, p: Position, call: nat,
                          head: Head) returns (n: nat)
    requires Quiet(s, env, visible, head) && Resting(s, visible, p, head)
    requires Uncrowded(s, visible, p.checkpoint.recordedThrough, head.recordedThrough)
    ensures n <= |Remaining(visible, p)| && LastPass(Projecting(s, env), p, call, n).frontier
  {
    var pass := Projecting(s, env);
    var from := iset q: Position | Resting(s, visible, q, head) && Uncrowded(s, visible, q.checkpoint.recordedThrough, head.recordedThrough);
    forall q, at | q in from
      ensures var after := ProjectSource(s, env, q, at);
              after.frontier || (after.position in from && |Remaining(visible, after.position)| < |Remaining(visible, q)|)
    {
      QuietPass(s, env, visible, q, at, head);
      var after := ProjectSource(s, env, q, at);
      if !after.frontier {
        FewerRemain(s, visible, q, head, after);
      }
    }
    n := ProgressEnds(visible, from, pass, p, call);
  }

  ghost predicate Stopped(from: iset<Position>, pass: Passing) {
    forall p, call :: p in from ==> !pass(p, call).frontier && pass(p, call).position in from
  }

  lemma {:induction false} StaysStopped(from: iset<Position>, pass: Passing, p: Position, call: nat, n: nat)
    requires Stopped(from, pass) && p in from
    ensures !LastPass(pass, p, call, n).frontier
    decreases n
  {
    if n > 0 {
      StaysStopped(from, pass, pass(p, call).position, pass(p, call).end, n - 1);
    }
  }

  /** However many passes follow, a crowded instant is the last the checkpoint reaches. */
  lemma CrowdStopsForever(s: Settings, env: Env, visible: set<Candidate>, p: Position, call: nat, head: Head, t: Time,
                          n: nat)
    requires Quiet(s, env, visible, head) && Resting(s, visible, p, head)
    requires p.checkpoint.recordedThrough <= t <= head.recordedThrough && |AtInstant(visible, t)| >= Budget(s)
    ensures !LastPass(Projecting(s, env), p, call, n).frontier
  {
    var from := iset q: Position | Resting(s, visible, q, head) && q.checkpoint.recordedThrough <= t;
    forall q, at | q in from
      ensures !ProjectSource(s, env, q, at).frontier && ProjectSource(s, env, q, at).position in from
    {
      QuietPass(s, env, visible, q, at, head);
      CrowdStops(s, visible, q, head, ProjectSource(s, env, q, at), t);
    }
    StaysStopped(from, Projecting(s, env), p, call, n);
  }

  /** Catch-up reaches the head exactly when no instant up to it is crowded. */
  lemma CatchesUpExactly(s: Settings, env: Env, visible: set<Candidate>, p: Position, call: nat, head: Head)
    requires Quiet(s, env, visible, head) && Resting(s, visible, p, head)
    ensures (exists n :: LastPass(Projecting(s, env), p, call, n).frontier) <==>
            Uncrowded(s, visible, p.checkpoint.recordedThrough, head.recordedThrough)
  {
    if Uncrowded(s, visible, p.checkpoint.recordedThrough, head.recordedThrough) {
      var n := CatchUpTerminates(s, env, visible, p, call, head);
    } else {
      var t: Time :| p.checkpoint.recordedThrough <= t <= head.recordedThrough && |AtInstant(visible, t)| >= Budget(s);
      forall n
        ensures !LastPass(Projecting(s, env), p, call, n).frontier
      {
        CrowdStopsForever(s, env, visible, p, call, head, t, n);
      }
    }
  }
}
