/** What every run of the collection manager keeps, over restarts and any interleaving of its steps. */
module ManagerRuns {
  import opened Text
  import opened CollectionManager

  // ----- reading the log -----

  /** The request last handled and not forgotten since. */
  function LastHandled(log: seq<Entry>): string {
    if log == [] then ""
    else
      match log[|log| - 1]
      case Handled(id) => id
      case Stopped(_) => ""
      case Restarted => ""
      case _ => LastHandled(log[..|log| - 1])
  }

  /** Rounds stopped before they finished. */
  function StoppedRounds(log: seq<Entry>): set<nat> {
    if log == [] then {}
    else StoppedRounds(log[..|log| - 1]) + if log[|log| - 1].Stopped? then log[|log| - 1].rounds else {}
  }

  function QueuedRounds(log: seq<Entry>): set<nat> {
    if log == [] then {}
    else QueuedRounds(log[..|log| - 1]) + if log[|log| - 1].Queued? then {log[|log| - 1].round} else {}
  }

  lemma LogGrows(log: seq<Entry>, e: Entry)
    ensures LastHandled(log + [e]) == if e.Handled? then e.requestId else if e.Stopped? || e.Restarted? then "" else LastHandled(log)
    ensures StoppedRounds(log + [e]) == StoppedRounds(log) + if e.Stopped? then e.rounds else {}
    ensures QueuedRounds(log + [e]) == QueuedRounds(log) + if e.Queued? then {e.round} else {}
  {
    assert (log + [e])[..|log|] == log;
  }

  // ----- what holds between steps -----

  /** At most one round runs, and the manager's fields are about it. */
  ghost predicate OneRound(w: World) {
    && |w.running| <= 1 && (w.mgr.inFlight <==> w.running != [])
    && (w.running == [] ==> !w.mgr.cancel && w.mgr.inFlightRequestId == "")
    && (w.running != [] ==>
          && w.running[0].id < w.rounds && w.running[0].versions == w.mgr.inFlightIpVersions
          && (w.mgr.cancel <==> !w.running[0].cancelled))
  }

  ghost predicate HandledOnce(w: World) {
    w.mgr.handledRequestId == LastHandled(w.log) && (w.mgr.inFlightRequestId != "" ==>
                                                       w.mgr.inFlightRequestId != w.mgr.handledRequestId)
  }

  /** Nothing of a stopped round was queued or will be. */
  ghost predicate StoppedIsDropped(w: World) {
    && StoppedRounds(w.log) !! QueuedRounds(w.log)
    && (forall id :: id in StoppedRounds(w.log) || id in QueuedRounds(w.log) ==> id < w.rounds)
    && (w.running != [] ==>
          && w.running[0].id !in QueuedRounds(w.log)
          && (w.running[0].id in StoppedRounds(w.log) ==> w.running[0].cancelled))
  }

  predicate StartedWith(log: seq<Entry>, round: nat, versions: seq<int>) {
    exists k :: 0 <= k < |log| && log[k].Started? && log[k].round == round && log[k].versions == versions
  }

  /** A request id was given only to a round that collects exactly what the request asks for. */
  ghost predicate MarksMatch(log: seq<Entry>) {
    forall k :: 0 <= k < |log| && log[k].Marked? ==> StartedWith(log, log[k].round, log[k].wanted)
  }

  predicate PeriodApart(e: Entry, f: Entry) {
    e.Started? && f.Started? && f.scheduled.Some? ==> f.scheduled.value > 0 && f.at >= e.at + Period(f.scheduled.value)
  }

  /** A scheduled start comes at least its plan's period after every start before it. */
  ghost predicate Spaced(log: seq<Entry>) {
    forall i, j :: 0 <= i < j < |log| ==> PeriodApart(log[i], log[j])
  }

  /** No request was marked again while it was the one last handled. */
  ghost predicate NotRepeated(log: seq<Entry>) {
    forall k :: 0 <= k < |log| && log[k].Marked? ==> log[k].requestId != LastHandled(log[..k])
  }

  ghost predicate LogOk(log: seq<Entry>) {
    MarksMatch(log) && Spaced(log) && NotRepeated(log)
  }

  /** Rounds are numbered in the order they start. */
  ghost predicate Numbered(log: seq<Entry>, rounds: nat) {
    && (forall k :: 0 <= k < |log| && log[k].Started? ==> log[k].round < rounds)
    && forall i, j :: 0 <= i < j < |log| && log[i].Started? && log[j].Started? ==> log[i].round < log[j].round
  }

  /** Every start so far was at a real time, t at the latest. */
  predicate StartsBy(log: seq<Entry>, t: Time) {
    forall k :: 0 <= k < |log| && log[k].Started? ==> 0 < log[k].at <= t
  }

  /** Every start is at or before the last attempt any surviving state records. */
  ghost predicate AttemptsRecorded(w: World) {
    && w.disk.visible in w.disk.survivors && (forall s :: s in w.disk.survivors ==> StartsBy(w.log, s.lastAttemptedAt))
    && StartsBy(w.log, w.clock)
    && (w.running != [] ==>
          StartsBy(w.log, w.running[0].observedAt) && StartedWith(w.log, w.running[0].id, w.running[0].versions))
  }

  /** What waits to be sent was queued by a finished round. */
  ghost predicate ReportsQueued(w: World) {
    forall i :: 0 <= i < |w.mgr.reports| ==> w.mgr.reports[i].round in QueuedRounds(w.log)
  }

  /** What the manager's fields say. */
  ghost predicate FieldsOk(w: World) {
    OneRound(w) && HandledOnce(w) && StoppedIsDropped(w) && ReportsQueued(w)
  }

  ghost predicate Inv(w: World) {
    FieldsOk(w) && LogOk(w.log) && AttemptsRecorded(w) && Numbered(w.log, w.rounds)
  }

  // ----- growing the log -----

  lemma LogOkGrows(log: seq<Entry>, e: Entry)
    requires LogOk(log)
    requires e.Marked? ==> e.requestId != LastHandled(log) && StartedWith(log, e.round, e.wanted)
    requires e.Started? ==> forall i :: 0 <= i < |log| ==> PeriodApart(log[i], e)
    ensures LogOk(log + [e])
  {
    forall k | 0 <= k <= |log| && (log + [e])[k].Marked?
      ensures (log + [e])[k].requestId != LastHandled((log + [e])[..k])
      ensures StartedWith(log + [e], (log + [e])[k].round, (log + [e])[k].wanted)
    {
      assert (log + [e])[..k] == log[..k] && log[..|log|] == log;
      StartedWithKept(log, e, (log + [e])[k].round, (log + [e])[k].wanted);
    }
  }

  lemma StartedWithKept(log: seq<Entry>, e: Entry, round: nat, versions: seq<int>)
    requires StartedWith(log, round, versions)
    ensures StartedWith(log + [e], round, versions)
  {
    var k :| 0 <= k < |log| && log[k].Started? && log[k].round == round && log[k].versions == versions;
    assert (log + [e])[k] == log[k];
  }

  lemma StartsKept(log: seq<Entry>, e: Entry, t: Time)
    requires StartsBy(log, t) && (e.Started? ==> 0 < e.at <= t)
    ensures StartsBy(log + [e], t)
  {
  }

  /** Adding an entry that starts nothing keeps what is recorded of the starts. */
  lemma RecordKept(w: World, e: Entry)
    requires AttemptsRecorded(w) && Numbered(w.log, w.rounds) && !e.Started?
    ensures AttemptsRecorded(w.(log := w.log + [e])) && Numbered(w.log + [e], w.rounds)
  {
    forall s | s in w.disk.survivors
      ensures StartsBy(w.log + [e], s.lastAttemptedAt)
    {
      StartsKept(w.log, e, s.lastAttemptedAt);
    }
    StartsKept(w.log, e, w.clock);
    if w.running != [] {
      StartsKept(w.log, e, w.running[0].observedAt);
      StartedWithKept(w.log, e, w.running[0].id, w.running[0].versions);
    }
  }

  // ----- steps -----

  lemma ClaimKeepsInv(w: World, plan: Plan)
    requires Inv(w) && w.mgr.inFlight
    ensures Inv(Claim(w, plan))
  {
    if Claim(w, plan) != w {
      var e := Marked(CurrentRound(w), TrimSpace(plan.collectRequestId), Selection(plan, true));
      LogGrows(w.log, e);
      LogOkGrows(w.log, e);
      RecordKept(w, e);
    }
  }

  lemma StopFields(w: World)
    requires FieldsOk(w)
    ensures FieldsOk(Stop(w))
  {
    LogGrows(w.log, Stopped(RunningIds(w.running)));
    assert w.running != [] ==> w.running[0] in w.running;
    assert forall r :: r in w.running ==> r == w.running[0];
  }

  lemma StopKeepsInv(w: World)
    requires Inv(w)
    ensures Inv(Stop(w))
  {
    var e := Stopped(RunningIds(w.running));
    StopFields(w);
    LogOkGrows(w.log, e);
    RecordKept(w, e);
  }

  lemma CompleteReports(w: World, i: nat, reports: seq<Report>, save: Save)
    requires FieldsOk(w) && i < |w.running|
    ensures ReportsQueued(Complete(w, i, reports, save))
  {
    var r, handled := w.running[i], w.mgr.inFlightRequestId;
    var log := if handled != "" then w.log + [Handled(handled)] else w.log;
    LogGrows(w.log, Handled(handled));
    LogGrows(log, Queued(r.id));
  }

  lemma CompleteStops(w: World, i: nat, reports: seq<Report>, save: Save)
    requires FieldsOk(w) && i < |w.running|
    ensures StoppedIsDropped(Complete(w, i, reports, save))
  {
    var r, handled := w.running[i], w.mgr.inFlightRequestId;
    assert w.running[..i] + w.running[i + 1..] == [];
    var log := if handled != "" then w.log + [Handled(handled)] else w.log;
    LogGrows(w.log, Handled(handled));
    LogGrows(log, Queued(r.id));
  }

  lemma CompleteFields(w: World, i: nat, reports: seq<Report>, save: Save)
    requires FieldsOk(w) && i < |w.running|
    ensures FieldsOk(Complete(w, i, reports, save)) && Complete(w, i, reports, save).running == []
  {
    var r, m := w.running[i], w.mgr;
    assert w.running[..i] + w.running[i + 1..] == [];
    CompleteReports(w, i, reports, save);
    CompleteStops(w, i, reports, save);
    var log := if m.inFlightRequestId != "" then w.log + [Handled(m.inFlightRequestId)] else w.log;
    LogGrows(w.log, Handled(m.inFlightRequestId));
    LogGrows(log, Queued(r.id));
  }

  /** A finished round saves the attempt it began with. */
  lemma CompleteRecorded(w: World, i: nat, reports: seq<Report>, save: Save, log: seq<Entry>)
    requires OneRound(w) && i < |w.running| && !w.running[i].cancelled && AttemptsRecorded(w.(log := log))
    requires Complete(w, i, reports, save).log == log
    ensures AttemptsRecorded(Complete(w, i, reports, save))
  {
    assert w.running[..i] + w.running[i + 1..] == [];
    assert StartsBy(log, w.running[i].observedAt);
  }

  lemma CompleteKeepsInv(w: World, i: nat, reports: seq<Report>, save: Save)
    requires Inv(w) && i < |w.running|
    ensures Inv(Complete(w, i, reports, save))
  {
    CompleteFields(w, i, reports, save);
    var r, handled := w.running[i], w.mgr.inFlightRequestId;
    if !r.cancelled {
      var log := if handled != "" then w.log + [Handled(handled)] else w.log;
      LogOkGrows(w.log, Handled(handled));
      LogOkGrows(log, Queued(r.id));
      RecordKept(w, Handled(handled));
      RecordKept(w.(log := log), Queued(r.id));
      CompleteRecorded(w, i, reports, save, log + [Queued(r.id)]);
    }
  }

  lemma RestartKeepsInv(w: World, found: Saved)
    requires Inv(w) && found in w.disk.survivors
    ensures Inv(Restart(w, found))
  {
    LogGrows(w.log, Restarted);
    LogOkGrows(w.log, Restarted);
    RecordKept(w, Restarted);
  }

  lemma LaunchFields(w: World, plan: Plan, now: Time)
    requires FieldsOk(w) && !w.mgr.inFlight
    ensures FieldsOk(Launch(w, plan, now))
  {
    var manual, id := Manual(w.mgr, plan), TrimSpace(plan.collectRequestId);
    var e := Started(w.rounds, now, if manual then None else Some(plan.frequencySeconds), Selection(plan, manual));
    LogGrows(w.log, e);
    LogGrows(w.log + [e], Marked(w.rounds, id, Selection(plan, manual)));
  }

  /** A start the schedule allows is far enough from every start before it. */
  lemma DueIsApart(w: World, plan: Plan, now: Time, e: Entry)
    requires AttemptsRecorded(w) && now >= w.clock && e.Started? && e.at == now
    requires e.scheduled.Some? ==> e.scheduled == Some(plan.frequencySeconds) && Due(plan, w.disk.visible, now)
    ensures forall i :: 0 <= i < |w.log| ==> PeriodApart(w.log[i], e)
  {
  }

  lemma LaunchLog(w: World, plan: Plan, now: Time)
    requires Inv(w) && now >= w.clock
    requires Manual(w.mgr, plan) || Due(plan, w.disk.visible, now)
    ensures LogOk(Launch(w, plan, now).log)
  {
    var manual, id := Manual(w.mgr, plan), TrimSpace(plan.collectRequestId);
    var e := Started(w.rounds, now, if manual then None else Some(plan.frequencySeconds), Selection(plan, manual));
    DueIsApart(w, plan, now, e);
    LogOkGrows(w.log, e);
    LogGrows(w.log, e);
    assert (w.log + [e])[|w.log|] == e;
    assert StartedWith(w.log + [e], w.rounds, Selection(plan, manual));
    if manual {
      LogOkGrows(w.log + [e], Marked(w.rounds, id, Selection(plan, manual)));
    }
  }

  lemma LaunchKeepsInv(w: World, plan: Plan, now: Time)
    requires Inv(w) && !w.mgr.inFlight && now >= w.clock && now > 0
    requires Manual(w.mgr, plan) || Due(plan, w.disk.visible, now)
    ensures Inv(Launch(w, plan, now).(clock := now))
  {
    LaunchFields(w, plan, now);
    LaunchLog(w, plan, now);
    LaunchRecorded(w, plan, now);
  }

  lemma LaunchRecorded(w: World, plan: Plan, now: Time)
    requires AttemptsRecorded(w) && OneRound(w) && !w.mgr.inFlight && now >= w.clock && now > 0
    ensures AttemptsRecorded(Launch(w, plan, now).(clock := now))
  {
    var manual, id := Manual(w.mgr, plan), TrimSpace(plan.collectRequestId);
    var e := Started(w.rounds, now, if manual then None else Some(plan.frequencySeconds), Selection(plan, manual));
    var mark := Marked(w.rounds, id, Selection(plan, manual));
    assert StartsBy(w.log, now);
    StartsKept(w.log, e, now);
    StartsKept(w.log + [e], mark, now);
    assert (w.log + [e])[|w.log|] == e && (w.log + [e] + [mark])[|w.log|] == e;
  }

  lemma DoubtKeepsInv(w: World, now: Time, save: Save)
    requires Inv(w) && !w.mgr.inFlight && now >= w.clock && now > 0
    ensures Inv(w.(disk := Persist(w.disk, w.disk.visible.(lastAttemptedAt := now), save), clock := now))
  {
    assert StartsBy(w.log, now);
  }

  lemma ClockKeepsInv(w: World, now: Time)
    requires Inv(w) && now >= w.clock
    ensures Inv(w.(clock := now))
  {
    assert StartsBy(w.log, now);
  }

  /** Every legal step keeps the invariant. */
  lemma StepKeepsInv(w: World, op: Op)
    requires Inv(w) && Legal(w, op)
    ensures Inv(Next(w, op))
  {
    match op
    case Offer(plan, now, loads, save) =>
      ClockKeepsInv(w, now);
      if plan.Some? && plan.value.enabled {
        if w.mgr.inFlight {
          ClaimKeepsInv(w, plan.value);
          ClockKeepsInv(Claim(w, plan.value), now);
        } else if loads && (Manual(w.mgr, plan.value) || Due(plan.value, w.disk.visible, now)) {
          if save == Written {
            LaunchKeepsInv(w, plan.value, now);
          } else {
            DoubtKeepsInv(w, now, save);
          }
        }
      }
    case Halt => StopKeepsInv(w);
    case Drain =>
    case Finish(i, reports, save) => CompleteKeepsInv(w, i, reports, save);
    case Reboot(found) => RestartKeepsInv(w, found);
  }

  // ----- runs -----

  predicate Initial(w: World) {
    w.mgr == IDLE && w.running == [] && w.log == [] && w.disk.visible in w.disk.survivors
  }

  ghost predicate LegalRun(w: World, ops: seq<Op>)
    decreases |ops|
  {
    ops == [] || (Legal(w, ops[0]) && LegalRun(Next(w, ops[0]), ops[1..]))
  }

  function Exec(w: World, ops: seq<Op>): World
    requires LegalRun(w, ops)
    decreases |ops|
  {
    if ops == [] then w else Exec(Next(w, ops[0]), ops[1..])
  }

  lemma {:induction false} RunKeepsInv(w: World, ops: seq<Op>)
    requires Inv(w) && LegalRun(w, ops)
    ensures Inv(Exec(w, ops))
    decreases |ops|
  {
    if ops != [] {
      StepKeepsInv(w, ops[0]);
      RunKeepsInv(Next(w, ops[0]), ops[1..]);
    }
  }

  lemma EveryRun(w: World, ops: seq<Op>)
    requires Initial(w) && LegalRun(w, ops)
    ensures Inv(Exec(w, ops))
  {
    RunKeepsInv(w, ops);
  }

  /** At most one round is ever in flight. */
  lemma AtMostOneRound(w: World, ops: seq<Op>)
    requires Initial(w) && LegalRun(w, ops)
    ensures |Exec(w, ops).running| <= 1 && (Exec(w, ops).mgr.inFlight <==> Exec(w, ops).running != [])
  {
    EveryRun(w, ops);
  }

  lemma {:induction false} LoggedStop(log: seq<Entry>, k: nat)
    requires k < |log|
    ensures log[k].Stopped? ==> log[k].rounds <= StoppedRounds(log)
    ensures log[k].Queued? ==> log[k].round in QueuedRounds(log)
    decreases |log|
  {
    if k < |log| - 1 {
      LoggedStop(log[..|log| - 1], k);
    }
  }

  /** Nothing from a round stopped before it finished is queued, before or after, and nothing of it waits to be sent. */
  lemma StoppedNeverQueued(w: World, ops: seq<Op>, k: nat, round: nat)
    requires Initial(w) && LegalRun(w, ops)
    requires k < |Exec(w, ops).log| && Exec(w, ops).log[k].Stopped? && round in Exec(w, ops).log[k].rounds
    ensures forall j :: 0 <= j < |Exec(w, ops).log| ==> Exec(w, ops).log[j] != Queued(round)
    ensures forall i :: 0 <= i < |Exec(w, ops).mgr.reports| ==> Exec(w, ops).mgr.reports[i].round != round
  {
    var end := Exec(w, ops);
    EveryRun(w, ops);
    LoggedStop(end.log, k);
    forall j | 0 <= j < |end.log|
      ensures end.log[j] != Queued(round)
    {
      LoggedStop(end.log, j);
    }
  }

  /** A request id marks a round only if the round collects exactly the families the request selects. */
  lemma MarkedMatchesSelection(w: World, ops: seq<Op>, k: nat, j: nat)
    requires Initial(w) && LegalRun(w, ops) && k < |Exec(w, ops).log| && j < |Exec(w, ops).log|
    requires Exec(w, ops).log[k].Marked? && Exec(w, ops).log[j].Started?
    requires Exec(w, ops).log[j].round == Exec(w, ops).log[k].round
    ensures Exec(w, ops).log[j].versions == Exec(w, ops).log[k].wanted
  {
    var log := Exec(w, ops).log;
    EveryRun(w, ops);
    var i :| 0 <= i < |log| && log[i].Started? && log[i].round == log[k].round && log[i].versions == log[k].wanted;
    assert i < j || i == j || j < i;
  }

  /** Scheduled starts are at least the plan's period after any earlier start, across restarts. */
  lemma ScheduledStartsApart(w: World, ops: seq<Op>, i: nat, j: nat)
    requires Initial(w) && LegalRun(w, ops) && i < j < |Exec(w, ops).log|
    requires Exec(w, ops).log[i].Started? && Exec(w, ops).log[j].Started? && Exec(w, ops).log[j].scheduled.Some?
    ensures Exec(w, ops).log[j].scheduled.value > 0
    ensures Exec(w, ops).log[j].at >= Exec(w, ops).log[i].at + Period(Exec(w, ops).log[j].scheduled.value)
  {
    EveryRun(w, ops);
    assert PeriodApart(Exec(w, ops).log[i], Exec(w, ops).log[j]);
  }

  /** In every run, a start scheduled every so many seconds is that many seconds after any earlier start. */
  ghost predicate AlwaysApart(seconds: int64) {
    forall w, ops, i, j ::
      Initial(w) && LegalRun(w, ops) && 0 <= i < j < |Exec(w, ops).log| && StartsEvery(Exec(w, ops).log, i, j, seconds) ==>
      Exec(w, ops).log[j].at >= Exec(w, ops).log[i].at + seconds * 1_000_000_000
  }

  predicate StartsEvery(log: seq<Entry>, i: nat, j: nat, seconds: int64)
    requires i < j < |log|
  {
    log[i].Started? && log[j].Started? && log[j].scheduled == Some(seconds)
  }

  // ----- repeated requests -----

  /** Makes the manager forget the request, or remember another. */
  predicate Forgets(e: Entry, requestId: string) {
    e.Stopped? || e.Restarted? || (e.Handled? && e.requestId != requestId)
  }

  lemma {:induction false} StillRemembered(log: seq<Entry>, i: nat, requestId: string)
    requires i < |log| && log[i] == Handled(requestId) && forall k :: i < k < |log| ==> !Forgets(log[k], requestId)
    ensures LastHandled(log) == requestId
    decreases |log|
  {
    if i < |log| - 1 {
      StillRemembered(log[..|log| - 1], i, requestId);
    }
  }

  /** A handled request is not collected again unless a stop, a restart or another handled request came between. */
  lemma HandledNotRepeated(w: World, ops: seq<Op>, i: nat, j: nat)
    requires Initial(w) && LegalRun(w, ops) && i < j < |Exec(w, ops).log|
    requires Exec(w, ops).log[i].Handled? && Exec(w, ops).log[j].Marked?
    requires Exec(w, ops).log[j].requestId == Exec(w, ops).log[i].requestId
    ensures exists k :: i < k < j && Forgets(Exec(w, ops).log[k], Exec(w, ops).log[i].requestId)
  {
    var log := Exec(w, ops).log;
    EveryRun(w, ops);
    if forall k :: i < k < j ==> !Forgets(log[k], log[i].requestId) {
      StillRemembered(log[..j], i, log[i].requestId);
    }
  }

  /** An idle manager offered an enabled plan collects for its request exactly when the request is not the one
      last handled. */
  lemma CollectsExactly(w: World, plan: Plan, now: Time)
    requires Inv(w) && !w.mgr.inFlight && plan.enabled && now >= w.clock && now > 0
    requires TrimSpace(plan.collectRequestId) != ""
    ensures var id := TrimSpace(plan.collectRequestId);
            var after := Next(w, Offer(Some(plan), now, true, Written));
            (after.running != [] && after.mgr.inFlightRequestId == id) <==> id != LastHandled(w.log)
  {
  }

  lemma RunFirst(w: World, op: Op, rest: seq<Op>)
    requires Legal(w, op) && LegalRun(Next(w, op), rest)
    ensures LegalRun(w, [op] + rest) && Exec(w, [op] + rest) == Exec(Next(w, op), rest)
  {
    assert ([op] + rest)[1..] == rest;
  }

  /** A plan that only asks for a request to be collected. */
  function Asking(requestId: string): Plan {
    Plan(true, 0, requestId, 0, [])
  }

  /** An idle manager, offered a request it does not remember, collects it and remembers it. */
  lemma CollectOnce(w: World, id: string, now: Time)
    requires w.mgr.reports == [] && !w.mgr.inFlight && !w.mgr.cancel && w.running == [] && now >= w.clock && now > 0
    requires id != "" && TrimSpace(id) == id && id != w.mgr.handledRequestId
    ensures var offered := Next(w, Offer(Some(Asking(id)), now, true, Written));
            var after := Next(offered, Finish(0, [], NotWritten));
            && Legal(w, Offer(Some(Asking(id)), now, true, Written)) && Legal(offered, Finish(0, [], NotWritten))
            && offered.log == w.log + [Started(w.rounds, now, None, [4, 6])] + [Marked(w.rounds, id, [4, 6])]
            && after.log == offered.log + [Handled(id)] + [Queued(w.rounds)]
            && after.mgr.handledRequestId == id && after.mgr.reports == [] && !after.mgr.inFlight && !after.mgr.cancel
            && after.running == []
            && after.clock == now
  {
    var offered := Next(w, Offer(Some(Asking(id)), now, true, Written));
    assert offered.running == [Round(w.rounds, [4, 6], now, false)];
  }

  const FINISHED := Finish(0, [], NotWritten)

  function Ask(id: string, now: Time): Op {
    Offer(Some(Asking(id)), now, true, Written)
  }

  ghost predicate RunsTo(w: World, ops: seq<Op>, end: World) {
    LegalRun(w, ops) && Exec(w, ops) == end
  }

  lemma {:induction false} RunsJoin(w: World, a: seq<Op>, m: World, b: seq<Op>, end: World)
    requires RunsTo(w, a, m) && RunsTo(m, b, end)
    ensures RunsTo(w, a + b, end)
    decreases |a|
  {
    if a == [] {
      assert a + b == b;
    } else {
      assert (a + b)[1..] == a[1..] + b;
      RunsJoin(Next(w, a[0]), a[1..], m, b, end);
    }
  }

  /** An idle manager with nothing waiting. */
  predicate AtRest(w: World, handled: string, clock: Time) {
    && w.mgr.reports == [] && !w.mgr.inFlight && !w.mgr.cancel && w.running == []
    && w.mgr.handledRequestId == handled && w.clock == clock
  }

  lemma AskRuns(w: World, handled: string, clock: Time, id: string, now: Time) returns (offered: World)
    requires AtRest(w, handled, clock) && clock < now && id != "" && TrimSpace(id) == id && id != handled
    ensures RunsTo(w, [Ask(id, now)], offered)
    ensures offered.log == w.log + [Started(w.rounds, now, None, [4, 6]), Marked(w.rounds, id, [4, 6])]
  {
    CollectOnce(w, id, now);
    offered := Next(w, Ask(id, now));
    RunFirst(w, Ask(id, now), []);
    assert [Ask(id, now)] + [] == [Ask(id, now)];
  }

  lemma TwoSteps(w: World, a: Op, b: Op)
    requires Legal(w, a) && Legal(Next(w, a), b)
    ensures RunsTo(w, [a] + [b], Next(Next(w, a), b))
  {
    RunFirst(Next(w, a), b, []);
    RunFirst(w, a, [b]);
    assert [b] + [] == [b];
  }

  lemma CollectRuns(w: World, handled: string, clock: Time, id: string, now: Time) returns (after: World)
    requires AtRest(w, handled, clock) && clock < now && id != "" && TrimSpace(id) == id && id != handled
    ensures RunsTo(w, [Ask(id, now)] + [FINISHED], after) && AtRest(after, id, now)
    ensures after.log == w.log + [Started(w.rounds, now, None, [4, 6]), Marked(w.rounds, id, [4, 6]), Handled(id),
                                  Queued(w.rounds)]
  {
    CollectOnce(w, id, now);
    TwoSteps(w, Ask(id, now), FINISHED);
    after := Next(Next(w, Ask(id, now)), FINISHED);
  }

  /** Only the request last handled is remembered: handling another in between, with no stop and no restart, lets
      the first be collected again. */
  lemma RepeatsAfterAnother(w: World, x: string, y: string) returns (ops: seq<Op>, end: World)
    requires Initial(w) && w.clock == 0 && x != y && x != "" && y != "" && TrimSpace(x) == x && TrimSpace(y) == y
    ensures RunsTo(w, ops, end) && |end.log| == 10 && end.log[2] == Handled(x) && end.log[9].Marked?
    ensures end.log[9].requestId == x
    ensures forall k :: 0 <= k < 10 ==> !end.log[k].Stopped? && !end.log[k].Restarted?
  {
    var w2 := CollectRuns(w, "", 0, x, 1);
    var w4 := CollectRuns(w2, x, 1, y, 2);
    end := AskRuns(w4, y, 2, x, 3);
    var first, second := [Ask(x, 1)] + [FINISHED], [Ask(y, 2)] + [FINISHED];
    RunsJoin(w, first, w2, second, w4);
    RunsJoin(w, first + second, w4, [Ask(x, 3)], end);
    ops := first + second + [Ask(x, 3)];
  }

  // ----- frequencies that do not fit -----

  function Every(seconds: int64): Plan {
    Plan(true, seconds, "", 0, [])
  }

  /** An idle manager with a plan that is due starts a round. */
  lemma StartsWhenDue(w: World, seconds: int64, now: Time)
    requires w.mgr.reports == [] && !w.mgr.inFlight && !w.mgr.cancel && w.running == [] && now >= w.clock && now > 0
    requires Due(Every(seconds), w.disk.visible, now)
    ensures var op := Offer(Some(Every(seconds)), now, true, Written);
            var offered := Next(w, op);
            && Legal(w, op) && offered.log == w.log + [Started(w.rounds, now, Some(seconds), [4, 6])]
            && offered.running == [Round(w.rounds, [4, 6], now, false)] && offered.disk.visible.lastAttemptedAt == now
            && offered.mgr.inFlightRequestId == "" && offered.mgr.reports == [] && offered.clock == now
  {
  }

  lemma FinishesAtRest(w: World)
    requires |w.running| == 1 && !w.running[0].cancelled && w.mgr.inFlightRequestId == "" && w.mgr.reports == []
    ensures var after := Next(w, FINISHED);
            && Legal(w, FINISHED) && after.log == w.log + [Queued(w.running[0].id)] && after.disk == w.disk
            && after.clock == w.clock
            && after.mgr.reports == [] && !after.mgr.inFlight && !after.mgr.cancel && after.running == []
  {
    assert w.running[..0] + w.running[1..] == [];
    assert w.mgr.reports + Stamp([], w.running[0].id, "") == [];
  }

  /** A frequency over LONGEST_PERIOD is not kept: two rounds are started before it has passed. */
  lemma StartsTooSoon(w: World, seconds: int64) returns (ops: seq<Op>, end: World)
    requires Initial(w) && w.clock == 0 && w.log == [] && LastAttempt(w.disk.visible) == 0 && seconds > LONGEST_PERIOD
    ensures RunsTo(w, ops, end) && |end.log| == 3 && StartsEvery(end.log, 0, 2, seconds)
    ensures end.log[2].at < end.log[0].at + seconds * 1_000_000_000
  {
    PeriodIsExact(seconds);
    var again: nat := if Period(seconds) > 0 then 1 + Period(seconds) else 1;
    var first, second := Offer(Some(Every(seconds)), 1, true, Written), Offer(Some(Every(seconds)), again, true, Written);
    StartsWhenDue(w, seconds, 1);
    var w1 := Next(w, first);
    FinishesAtRest(w1);
    var w2 := Next(w1, FINISHED);
    StartsWhenDue(w2, seconds, again);
    end := Next(w2, second);
    TwoSteps(w1, FINISHED, second);
    RunFirst(w, first, [FINISHED] + [second]);
    ops := [first] + ([FINISHED] + [second]);
  }

  /** So the schedule keeps a frequency in every run exactly when it is at most LONGEST_PERIOD. */
  lemma KeptExactly(seconds: int64)
    requires seconds > 0
    ensures AlwaysApart(seconds) <==> seconds <= LONGEST_PERIOD
  {
    PeriodIsExact(seconds);
    if seconds <= LONGEST_PERIOD {
      forall w, ops, i, j | Initial(w) && LegalRun(w, ops) && 0 <= i < j < |Exec(w, ops).log| && StartsEvery(Exec(w, ops).log, i, j, seconds)
        ensures Exec(w, ops).log[j].at >= Exec(w, ops).log[i].at + seconds * 1_000_000_000
      {
        ScheduledStartsApart(w, ops, i, j);
      }
    } else {
      var w := World(IDLE, [], Disk(NEVER, {NEVER}), 0, 0, []);
      var ops, end := StartsTooSoon(w, seconds);
      assert StartsEvery(Exec(w, ops).log, 0, 2, seconds);
    }
  }
}
