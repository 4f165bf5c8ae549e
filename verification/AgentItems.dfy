/** The command results and IP reports the agent produces, and what becomes of them. */
module AgentItems {
  import opened Envelopes
  import opened SyncProtocol
  import opened QueueRuns
  import opened AgentLog

  // ----- where they go -----

  /** Where pending items went: into the batch of a claim, or dropped by the stop of an exchange. */
  datatype End = InBatch(claim: nat) | DroppedByStop(at: nat)

  /** Items that left the pending lists together: those after the part before, through these numbers. */
  datatype Part = Part(end: End, results: nat, reports: nat)

  /** Everything this process produced, in order, and the parts that have left, in order. The process made the claims
      from `born` on; `inDoubt` says what is pending was in a batch whose write was ambiguous. */
  datatype Items = Items(parts: seq<Part>, results: seq<CommandResult>, reports: seq<Fact>, born: nat, inDoubt: bool)

  /** How many results have left with the first i parts. */
  function ResultsGone(parts: seq<Part>, i: nat): nat
    requires i <= |parts|
  {
    if i == 0 then 0 else parts[i - 1].results
  }

  function ReportsGone(parts: seq<Part>, i: nat): nat
    requires i <= |parts|
  {
    if i == 0 then 0 else parts[i - 1].reports
  }

  /** The stored reports are these, stamped with their batch. */
  predicate Carried(stored: seq<Fact>, reports: seq<Fact>) {
    |stored| == |reports| && forall i :: 0 <= i < |stored| ==>
      stored[i] == reports[i].(syncBatchId := stored[i].syncBatchId)
  }

  /** The i-th part is the next stretch of what was produced, and went where it says. */
  predicate PartOk(items: Items, i: nat, claims: seq<Claim>, log: seq<Exchange>)
    requires i < |items.parts|
  {
    var p, r, q := items.parts[i], ResultsGone(items.parts, i), ReportsGone(items.parts, i);
    && r <= p.results <= |items.results| && q <= p.reports <= |items.reports|
    && match p.end
       case InBatch(c) =>
         && c < |claims| && claims[c].Allocated? && claims[c].request.commandResults == items.results[r..p.results]
         && Carried(claims[c].request.ipQualityReports, items.reports[q..p.reports])
       case DroppedByStop(at) => at < |log| && StopAcked(log[at])
  }

  predicate HasPart(parts: seq<Part>, claim: nat) {
    exists i :: 0 <= i < |parts| && parts[i].end == InBatch(claim)
  }

  /** The first went before the second. */
  predicate Earlier(a: End, b: End, claims: seq<Claim>) {
    if a.InBatch? && b.InBatch? then a.claim < b.claim
    else if a.InBatch? then a.claim <= |claims| && Sent(claims, a.claim) <= b.at
    else if b.InBatch? then b.claim <= |claims| && a.at < Sent(claims, b.claim)
    else a.at < b.at
  }

  ghost predicate PartsInOrder(parts: seq<Part>, claims: seq<Claim>) {
    forall i, j {:trigger Earlier(parts[i].end, parts[j].end, claims)} :: 0 <= i < j < |parts| ==>
      Earlier(parts[i].end, parts[j].end, claims)
  }

  ghost predicate AllPartsOk(items: Items, claims: seq<Claim>, log: seq<Exchange>) {
    forall i {:trigger PartOk(items, i, claims, log)} :: 0 <= i < |items.parts| ==> PartOk(items, i, claims, log)
  }

  ghost predicate EveryBatchHasPart(items: Items, claims: seq<Claim>) {
    forall c {:trigger HasPart(items.parts, c)} :: items.born <= c < |claims| && claims[c].Allocated? ==>
      HasPart(items.parts, c)
  }

  /** What has not left is pending. */
  predicate Balanced(items: Items, results: seq<CommandResult>, reports: seq<Fact>) {
    var r, q := ResultsGone(items.parts, |items.parts|), ReportsGone(items.parts, |items.parts|);
    && r <= |items.results| && results == items.results[r..]
    && q <= |items.reports| && reports == items.reports[q..]
  }

  /** Conservation: everything produced has left with one part or is pending, each part went where it says, the parts
      went one after the other, no two into one batch or by one stop, and every batch this process made holds one part
      and nothing else. */
  ghost predicate ItemsOk(items: Items, claims: seq<Claim>, log: seq<Exchange>, results: seq<CommandResult>,
                          reports: seq<Fact>)
  {
    && Balanced(items, results, reports) && items.born <= |claims|
    && AllPartsOk(items, claims, log) && PartsInOrder(items.parts, claims) && EveryBatchHasPart(items, claims)
  }

  const NO_ITEMS := Items([], [], [], 0, false)

  lemma OrderStays(parts: seq<Part>, claims: seq<Claim>, more: seq<Claim>)
    requires PartsInOrder(parts, claims)
    ensures PartsInOrder(parts, claims + more)
  {
    forall i, j | 0 <= i < j < |parts|
      ensures Earlier(parts[i].end, parts[j].end, claims + more)
    {
      var a, b := parts[i].end, parts[j].end;
      assert Earlier(a, b, claims);
      if a.InBatch? && b.DroppedByStop? {
        SentStays(claims, more, a.claim);
      } else if a.DroppedByStop? && b.InBatch? {
        SentStays(claims, more, b.claim);
      }
    }
  }

  /** Parts stay as they are when more is claimed, said, produced or leaves. */
  lemma PartsStay(items: Items, claims: seq<Claim>, log: seq<Exchange>, more: Items, moreClaims: seq<Claim>,
                  moreLog: seq<Exchange>)
    requires AllPartsOk(items, claims, log) && claims <= moreClaims && log <= moreLog
    requires items.parts <= more.parts && items.results <= more.results && items.reports <= more.reports
    ensures forall i :: 0 <= i < |items.parts| ==> PartOk(more, i, moreClaims, moreLog)
  {
    forall i | 0 <= i < |items.parts|
      ensures PartOk(more, i, moreClaims, moreLog)
    {
      assert PartOk(items, i, claims, log);
      var p, r, q := items.parts[i], ResultsGone(items.parts, i), ReportsGone(items.parts, i);
      SlicePrefix(items.results, more.results, r, p.results);
      SlicePrefix(items.reports, more.reports, q, p.reports);
      assert ResultsGone(more.parts, i) == r && ReportsGone(more.parts, i) == q;
    }
  }

  lemma SlicePrefix<T>(s: seq<T>, all: seq<T>, i: nat, j: nat)
    requires s <= all && i <= j <= |s|
    ensures all[i..j] == s[i..j]
  {
  }

  lemma ItemsKept(items: Items, claims: seq<Claim>, more: seq<Claim>, log: seq<Exchange>, later: seq<Exchange>,
                  results: seq<CommandResult>, reports: seq<Fact>)
    requires ItemsOk(items, claims, log, results, reports) && log <= later && forall i :: 0 <= i < |more| ==>
      !more[i].Allocated?
    ensures ItemsOk(items, claims + more, later, results, reports)
  {
    OrderStays(items.parts, claims, more);
    PartsStay(items, claims, log, items, claims + more, later);
  }

  lemma ItemsInDoubt(items: Items, claims: seq<Claim>, log: seq<Exchange>, results: seq<CommandResult>,
                     reports: seq<Fact>, inDoubt: bool)
    requires ItemsOk(items, claims, log, results, reports)
    ensures ItemsOk(items.(inDoubt := inDoubt), claims, log, results, reports)
  {
    PartsStay(items, claims, log, items.(inDoubt := inDoubt), claims, log);
  }

  /** Everything pending leaves. */
  function Leave(items: Items, end: End): Items {
    items.(parts := items.parts + [Part(end, |items.results|, |items.reports|)])
  }

  /** The batches that had a part still do. */
  lemma StillHasPart(parts: seq<Part>, p: Part, c: nat)
    requires HasPart(parts, c)
    ensures HasPart(parts + [p], c)
  {
    var i :| 0 <= i < |parts| && parts[i].end == InBatch(c);
    assert (parts + [p])[i].end == InBatch(c);
  }

  lemma OneMoreInOrder(parts: seq<Part>, p: Part, claims: seq<Claim>)
    requires PartsInOrder(parts, claims) && forall i :: 0 <= i < |parts| ==> Earlier(parts[i].end, p.end, claims)
    ensures PartsInOrder(parts + [p], claims)
  {
    var all := parts + [p];
    forall i, j | 0 <= i < j < |all|
      ensures Earlier(all[i].end, all[j].end, claims)
    {
      if j < |parts| {
        assert Earlier(parts[i].end, parts[j].end, claims);
      }
    }
  }

  lemma StoredLast(items: Items, claims: seq<Claim>, c: Claim, log: seq<Exchange>, p: Part)
    requires Logged(claims, log) && PartsInOrder(items.parts, claims) && AllPartsOk(items, claims, log)
    requires p.end == InBatch(|claims|)
    ensures PartsInOrder(items.parts + [p], claims + [c])
  {
    OrderStays(items.parts, claims, [c]);
    forall i | 0 <= i < |items.parts|
      ensures Earlier(items.parts[i].end, p.end, claims + [c])
    {
      assert PartOk(items, i, claims, log);
      assert (claims + [c])[..|claims|] == claims;
    }
    OneMoreInOrder(items.parts, p, claims + [c]);
  }

  /** Everything pending is in the batch just returned. */
  lemma ItemsStored(items: Items, claims: seq<Claim>, c: Claim, log: seq<Exchange>, results: seq<CommandResult>,
                    reports: seq<Fact>)
    requires ItemsOk(items, claims, log, results, reports) && Logged(claims, log)
    requires c.Allocated? && c.request.commandResults == results && Carried(c.request.ipQualityReports, reports)
    ensures ItemsOk(Leave(items, InBatch(|claims|)), claims + [c], log, [], [])
  {
    var after := Leave(items, InBatch(|claims|));
    var n, p := |items.parts|, after.parts[|items.parts|];
    StoredLast(items, claims, c, log, p);
    PartsStay(items, claims, log, after, claims + [c], log);
    assert ResultsGone(after.parts, n) == ResultsGone(items.parts, n);
    assert ReportsGone(after.parts, n) == ReportsGone(items.parts, n);
    assert items.results[ResultsGone(items.parts, n)..|items.results|] == results;
    assert items.reports[ReportsGone(items.parts, n)..|items.reports|] == reports;
    assert PartOk(after, n, claims + [c], log);
    forall d | items.born <= d <= |claims| && (claims + [c])[d].Allocated?
      ensures HasPart(after.parts, d)
    {
      if d < |claims| {
        assert HasPart(items.parts, d);
        StillHasPart(items.parts, p, d);
      }
    }
  }

  /** No stop from this exchange on has dropped anything yet. */
  predicate DropsBefore(parts: seq<Part>, at: nat) {
    forall i :: 0 <= i < |parts| && parts[i].end.DroppedByStop? ==> parts[i].end.at < at
  }

  lemma DropsLogged(items: Items, claims: seq<Claim>, log: seq<Exchange>, results: seq<CommandResult>,
                    reports: seq<Fact>)
    requires ItemsOk(items, claims, log, results, reports)
    ensures DropsBefore(items.parts, |log|)
  {
    forall i | 0 <= i < |items.parts| && items.parts[i].end.DroppedByStop?
      ensures items.parts[i].end.at < |log|
    {
      assert PartOk(items, i, claims, log);
    }
  }

  lemma DroppedLast(items: Items, claims: seq<Claim>, log: seq<Exchange>, p: Part)
    requires Logged(claims, log) && JustSaid(claims) && PartsInOrder(items.parts, claims)
    requires AllPartsOk(items, claims, log)
    requires log != [] && p.end == DroppedByStop(|log| - 1) && DropsBefore(items.parts, |log| - 1)
    ensures PartsInOrder(items.parts + [p], claims)
  {
    forall i | 0 <= i < |items.parts|
      ensures Earlier(items.parts[i].end, p.end, claims)
    {
      assert PartOk(items, i, claims, log);
      if items.parts[i].end.InBatch? {
        SentBeforeLast(claims, log, items.parts[i].end.claim);
      }
    }
    OneMoreInOrder(items.parts, p, claims);
  }

  /** Everything pending is dropped by the stop just ordered. */
  lemma ItemsDropped(items: Items, claims: seq<Claim>, log: seq<Exchange>, results: seq<CommandResult>,
                     reports: seq<Fact>)
    requires ItemsOk(items, claims, log, results, reports) && Logged(claims, log) && JustSaid(claims)
    requires log != [] && StopAcked(log[|log| - 1]) && DropsBefore(items.parts, |log| - 1)
    ensures ItemsOk(Leave(items, DroppedByStop(|log| - 1)), claims, log, [], [])
  {
    var after := Leave(items, DroppedByStop(|log| - 1));
    var n, p := |items.parts|, after.parts[|items.parts|];
    DroppedLast(items, claims, log, p);
    PartsStay(items, claims, log, after, claims, log);
    assert ResultsGone(after.parts, n) == ResultsGone(items.parts, n);
    assert ReportsGone(after.parts, n) == ReportsGone(items.parts, n);
    assert PartOk(after, n, claims, log);
    forall d | items.born <= d < |claims| && claims[d].Allocated?
      ensures HasPart(after.parts, d)
    {
      assert HasPart(items.parts, d);
      StillHasPart(items.parts, p, d);
    }
  }

  /** What is produced is pending. */
  lemma ItemsProduced(items: Items, claims: seq<Claim>, log: seq<Exchange>, results: seq<CommandResult>,
                      reports: seq<Fact>,
                      moreResults: seq<CommandResult>, moreReports: seq<Fact>)
    requires ItemsOk(items, claims, log, results, reports)
    ensures ItemsOk(items.(results := items.results + moreResults, reports := items.reports + moreReports), claims, log,
                    results + moreResults, reports + moreReports)
  {
    PartsStay(items, claims, log,
              items.(results := items.results + moreResults, reports := items.reports + moreReports), claims, log);
  }

  // ----- what one batch holds -----

  lemma {:induction false} StretchesApart(items: Items, claims: seq<Claim>, log: seq<Exchange>, i: nat, j: nat)
    requires AllPartsOk(items, claims, log) && i < j <= |items.parts|
    ensures items.parts[i].results <= ResultsGone(items.parts, j)
    ensures items.parts[i].reports <= ReportsGone(items.parts, j)
    decreases j
  {
    if i + 1 < j {
      StretchesApart(items, claims, log, i, j - 1);
      assert PartOk(items, j - 1, claims, log);
    }
  }

  /** The command results and IP reports in a batch are exactly one stretch each of what was produced, and different
      parts are stretches that do not overlap: nothing is sent in two batches, and nothing out of order. */
  lemma BatchHoldsStretch(items: Items, claims: seq<Claim>, log: seq<Exchange>, results: seq<CommandResult>,
                          reports: seq<Fact>,
                          c: nat) returns (i: nat)
    requires ItemsOk(items, claims, log, results, reports) && items.born <= c < |claims| && claims[c].Allocated?
    ensures i < |items.parts| && items.parts[i].end == InBatch(c)
    ensures ResultsGone(items.parts, i) <= items.parts[i].results <= |items.results|
    ensures claims[c].request.commandResults == items.results[ResultsGone(items.parts, i)..items.parts[i].results]
    ensures ReportsGone(items.parts, i) <= items.parts[i].reports <= |items.reports|
    ensures Carried(claims[c].request.ipQualityReports,
                    items.reports[ReportsGone(items.parts, i)..items.parts[i].reports])
    ensures forall j :: i < j <= |items.parts| ==>
              items.parts[i].results <= ResultsGone(items.parts, j) && items.parts[i].reports <= ReportsGone(items.parts, j)
  {
    assert HasPart(items.parts, c);
    i :| 0 <= i < |items.parts| && items.parts[i].end == InBatch(c);
    assert PartOk(items, i, claims, log);
    forall j | i < j <= |items.parts|
      ensures items.parts[i].results <= ResultsGone(items.parts, j)
      ensures items.parts[i].reports <= ReportsGone(items.parts, j)
    {
      StretchesApart(items, claims, log, i, j);
    }
  }

  // ----- what a stretch of the loop does -----

  /** What was claimed, said, produced and decided so far, the back-off in force, and the times read. */
  datatype Past = Past(claims: seq<Claim>, log: seq<Exchange>, items: Items, stopped: bool, until: nat, read: seq<nat>)

  /** The items left after the past there was. */
  predicate Since(end: End, past: Past) {
    match end
    case InBatch(c) => c >= |past.claims|
    case DroppedByStop(at) => at >= |past.log|
  }

  /** Nothing claimed, said or produced is forgotten, what had left stays where it went, and what leaves goes into a
      batch returned since, or is dropped by a stop ordered since. */
  ghost predicate Follows(a: Past, b: Past) {
    && a.claims <= b.claims && a.log <= b.log
    && a.items.born == b.items.born && a.items.parts <= b.items.parts
    && a.items.results <= b.items.results && a.items.reports <= b.items.reports
    && forall i :: |a.items.parts| <= i < |b.items.parts| ==> Since(b.items.parts[i].end, a)
  }

  /** The center's plan asked for an action, and it was executed. */
  predicate Executes(x: Exchange) {
    Acked(x) && !StopAcked(x) && x.reply.response.value.executed.Some?
  }

  /** These results and that of the plan's action. */
  function WithResult(results: seq<CommandResult>, x: Exchange): seq<CommandResult> {
    if Executes(x) then results + [x.reply.response.value.executed.value] else results
  }

  function WithResults(results: seq<CommandResult>, log: seq<Exchange>): seq<CommandResult> {
    if log == [] then results else WithResult(WithResults(results, log[..|log| - 1]), log[|log| - 1])
  }

  /** Whether collection is stopped after these exchanges: the last acknowledgement decides. */
  function StoppedBy(stopped: bool, log: seq<Exchange>): bool {
    if log == [] then stopped
    else if Acked(log[|log| - 1]) then StopAcked(log[|log| - 1])
    else StoppedBy(stopped, log[..|log| - 1])
  }

  /** Every plan among these exchanges was followed, and nothing else. */
  ghost predicate Followed(a: Past, b: Past, log: seq<Exchange>) {
    b.items.results == WithResults(a.items.results, log) && b.stopped == StoppedBy(a.stopped, log)
  }

  /** All of these plans were followed, or all but the last. */
  ghost predicate FollowedMost(a: Past, b: Past, log: seq<Exchange>, whole: bool) {
    Followed(a, b, log) || (!whole && log != [] && Followed(a, b, log[..|log| - 1]))
  }

  /** Every plan since was followed; the last one may not have been if something failed. */
  ghost predicate PlansFollowed(a: Past, b: Past, whole: bool) {
    a.log <= b.log && FollowedMost(a, b, b.log[|a.log|..], whole)
  }

  /** One stretch of the loop. */
  ghost predicate Moves(a: Past, b: Past, whole: bool) {
    Follows(a, b) && PlansFollowed(a, b, whole)
  }

  lemma {:induction false} PlansJoin(results: seq<CommandResult>, stopped: bool, x: seq<Exchange>, y: seq<Exchange>)
    ensures WithResults(results, x + y) == WithResults(WithResults(results, x), y)
    ensures StoppedBy(stopped, x + y) == StoppedBy(StoppedBy(stopped, x), y)
    decreases |y|
  {
    if y == [] {
      assert x + y == x;
    } else {
      assert (x + y)[..|x + y| - 1] == x + y[..|y| - 1];
      PlansJoin(results, stopped, x, y[..|y| - 1]);
    }
  }

  lemma FollowsOn(a: Past, b: Past, c: Past)
    requires Follows(a, b) && Follows(b, c)
    ensures Follows(a, c)
  {
    forall i | |a.items.parts| <= i < |c.items.parts|
      ensures Since(c.items.parts[i].end, a)
    {
      if i < |b.items.parts| {
        assert c.items.parts[i] == b.items.parts[i];
      } else {
        assert Since(c.items.parts[i].end, b);
      }
    }
  }

  lemma FollowedOn(a: Past, b: Past, c: Past, x: seq<Exchange>, y: seq<Exchange>)
    requires Followed(a, b, x) && Followed(b, c, y)
    ensures Followed(a, c, x + y)
  {
    PlansJoin(a.items.results, a.stopped, x, y);
  }

  lemma FollowedMostOn(a: Past, b: Past, c: Past, x: seq<Exchange>, y: seq<Exchange>, whole: bool)
    requires Followed(a, b, x) && FollowedMost(b, c, y, whole)
    ensures FollowedMost(a, c, x + y, whole)
  {
    if Followed(b, c, y) {
      FollowedOn(a, b, c, x, y);
    } else {
      FollowedOn(a, b, c, x, y[..|y| - 1]);
      assert (x + y)[..|x + y| - 1] == x + y[..|y| - 1];
    }
  }

  lemma PlansFollowOn(a: Past, b: Past, c: Past, whole: bool)
    requires PlansFollowed(a, b, true) && PlansFollowed(b, c, whole)
    ensures PlansFollowed(a, c, whole)
  {
    FollowedMostOn(a, b, c, b.log[|a.log|..], c.log[|b.log|..], whole);
    assert c.log[|a.log|..] == b.log[|a.log|..] + c.log[|b.log|..];
  }

  lemma MovesOn(a: Past, b: Past, c: Past, whole: bool)
    requires Moves(a, b, true) && Moves(b, c, whole)
    ensures Moves(a, c, whole)
  {
    FollowsOn(a, b, c);
    PlansFollowOn(a, b, c, whole);
  }

  /** Following the plan of the last exchange, or not getting to it. */
  ghost predicate Applied(a: Items, b: Items, was: bool, stopped: bool, x: Exchange, at: nat, whole: bool) {
    && a.born == b.born && a.parts <= b.parts && a.reports == b.reports
    && (forall i :: |a.parts| <= i < |b.parts| ==> b.parts[i].end == DroppedByStop(at))
    && ((b.results == WithResult(a.results, x) && stopped == if Acked(x) then StopAcked(x) else was)
        || (!whole && b.results == a.results && stopped == was))
  }

  lemma NotApplied(items: Items, stopped: bool, x: Exchange, at: nat)
    ensures Applied(items, items, stopped, stopped, x, at, false)
  {
  }

  lemma AppliedLess(a: Items, b: Items, was: bool, stopped: bool, x: Exchange, at: nat)
    requires Applied(a, b, was, stopped, x, at, true)
    ensures Applied(a, b, was, stopped, x, at, false)
  {
  }

  lemma OnePlan(a: Past, b: Past, x: Exchange, whole: bool)
    requires Applied(a.items, b.items, a.stopped, b.stopped, x, |a.log|, whole)
    ensures FollowedMost(a, b, [x], whole)
  {
    assert [x][..0] == [];
    assert WithResults(a.items.results, [x]) == WithResult(WithResults(a.items.results, []), x);
    assert StoppedBy(a.stopped, [x]) == if Acked(x) then StopAcked(x) else StoppedBy(a.stopped, []);
  }

  lemma AppliedMoves(a: Past, b: Past, whole: bool)
    requires a.claims <= b.claims && a.log <= b.log && |b.log| == |a.log| + 1
    requires Applied(a.items, b.items, a.stopped, b.stopped, b.log[|a.log|], |a.log|, whole)
    ensures Moves(a, b, whole)
  {
    OnePlan(a, b, b.log[|a.log|], whole);
    assert b.log[|a.log|..] == [b.log[|a.log|]];
  }

  /** Nothing is said or produced. */
  lemma StandingMoves(a: Past, b: Past)
    requires a.claims <= b.claims && b.log == a.log && b.stopped == a.stopped
    requires b.items == a.items.(inDoubt := b.items.inDoubt)
    ensures Moves(a, b, true) && Moves(a, b, false)
  {
    assert b.log[|a.log|..] == [];
  }

  /** Everything pending goes into a batch, or nothing changes. */
  lemma StoringMoves(a: Past, b: Past)
    requires a.claims <= b.claims && b.log == a.log && b.stopped == a.stopped
    requires b.items == Leave(a.items, InBatch(|a.claims|)) || b.items == a.items.(inDoubt := b.items.inDoubt)
    ensures Moves(a, b, true) && Moves(a, b, false)
  {
    assert b.log[|a.log|..] == [];
  }

  /** At most one exchange, whose plan is not followed. */
  lemma UnappliedMoves(a: Past, b: Past)
    requires a.claims <= b.claims && a.log <= b.log && |b.log| <= |a.log| + 1 && b.stopped == a.stopped
    requires b.items == a.items
    ensures Moves(a, b, false)
    ensures |b.log| == |a.log| || !Acked(b.log[|a.log|]) ==> Moves(a, b, true)
  {
    if |b.log| > |a.log| {
      AppliedMoves(a, b, false);
      if !Acked(b.log[|a.log|]) {
        AppliedMoves(a, b, true);
      }
    } else {
      assert b.log == a.log;
      StandingMoves(a, b);
    }
  }

  /** The part that holds the p-th result to have left. */
  lemma {:induction false} PartOfResult(items: Items, claims: seq<Claim>, log: seq<Exchange>, from: nat, next: nat,
                                        p: nat) returns (i: nat)
    requires AllPartsOk(items, claims, log) && from <= next <= |items.parts|
    requires ResultsGone(items.parts, from) <= p < ResultsGone(items.parts, next)
    ensures from <= i < next && ResultsGone(items.parts, i) <= p < items.parts[i].results
    decreases next
  {
    if p < ResultsGone(items.parts, next - 1) {
      i := PartOfResult(items, claims, log, from, next - 1, p);
    } else {
      i := next - 1;
    }
  }

  lemma {:induction false} PartOfReport(items: Items, claims: seq<Claim>, log: seq<Exchange>, from: nat, next: nat,
                                        p: nat) returns (i: nat)
    requires AllPartsOk(items, claims, log) && from <= next <= |items.parts|
    requires ReportsGone(items.parts, from) <= p < ReportsGone(items.parts, next)
    ensures from <= i < next && ReportsGone(items.parts, i) <= p < items.parts[i].reports
    decreases next
  {
    if p < ReportsGone(items.parts, next - 1) {
      i := PartOfReport(items, claims, log, from, next - 1, p);
    } else {
      i := next - 1;
    }
  }

  /** Conservation over a stretch of the loop, for command results: one that was pending or is produced since is
      pending, or left with a part that went into a batch returned since or was dropped by a stop ordered since. */
  lemma NoResultIsLost(a: Past, b: Past, results: seq<CommandResult>, reports: seq<Fact>, p: nat) returns (i: nat)
    requires Follows(a, b) && ItemsOk(b.items, b.claims, b.log, results, reports)
    requires ResultsGone(a.items.parts, |a.items.parts|) <= p < |b.items.results|
    ensures var gone := ResultsGone(b.items.parts, |b.items.parts|);
            || (gone <= p && p - gone < |results| && results[p - gone] == b.items.results[p])
            || (|a.items.parts| <= i < |b.items.parts| && ResultsGone(b.items.parts, i) <= p < b.items.parts[i].results
                && PartOk(b.items, i, b.claims, b.log) && Since(b.items.parts[i].end, a))
  {
    i := 0;
    if p < ResultsGone(b.items.parts, |b.items.parts|) {
      assert ResultsGone(b.items.parts, |a.items.parts|) == ResultsGone(a.items.parts, |a.items.parts|);
      i := PartOfResult(b.items, b.claims, b.log, |a.items.parts|, |b.items.parts|, p);
      assert PartOk(b.items, i, b.claims, b.log);
    }
  }

  /** The same for IP reports. */
  lemma NoReportIsLost(a: Past, b: Past, results: seq<CommandResult>, reports: seq<Fact>, p: nat) returns (i: nat)
    requires Follows(a, b) && ItemsOk(b.items, b.claims, b.log, results, reports)
    requires ReportsGone(a.items.parts, |a.items.parts|) <= p < |b.items.reports|
    ensures var gone := ReportsGone(b.items.parts, |b.items.parts|);
            || (gone <= p && p - gone < |reports| && reports[p - gone] == b.items.reports[p])
            || (|a.items.parts| <= i < |b.items.parts| && ReportsGone(b.items.parts, i) <= p < b.items.parts[i].reports
                && PartOk(b.items, i, b.claims, b.log) && Since(b.items.parts[i].end, a))
  {
    i := 0;
    if p < ReportsGone(b.items.parts, |b.items.parts|) {
      assert ReportsGone(b.items.parts, |a.items.parts|) == ReportsGone(a.items.parts, |a.items.parts|);
      i := PartOfReport(b.items, b.claims, b.log, |a.items.parts|, |b.items.parts|, p);
      assert PartOk(b.items, i, b.claims, b.log);
    }
  }
}
