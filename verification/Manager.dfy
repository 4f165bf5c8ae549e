/** The IP-quality collection manager: rounds started, claimed, stopped and completed under one mutex
    (agent/ipquality/manager.go and state.go). */
module CollectionManager {
  import opened Text

  type Time = nat

  const SELECTIVE_REVISION := 5
  const SUCCESS := "success"
  const PARTIAL := "partial"
  const FAILURE := "failure"

  datatype Plan = Plan(
    enabled: bool, frequencySeconds: int64, collectRequestId: string, collectionRevision: int, collectIpVersions: seq<int>)

  /** The persisted state. */
  datatype Saved = Saved(lastAttemptedAt: Time, lastSucceededAt: Time, lastStatus: string)

  /** A report, with the round it came from and the request id its diagnostics carry, if any. */
  datatype Report = Report(round: nat, ipVersion: int, status: string, unavailable: bool, requestId: string)

  // ----- selections and schedule -----

  /** The canonical family selections. */
  predicate ValidVersions(versions: seq<int>) {
    versions == [4] || versions == [6] || versions == [4, 6]
  }

  /** What a plan's request asks to collect; scheduled rounds are always dual-stack. */
  function Selection(plan: Plan, manual: bool): seq<int> {
    if manual && plan.collectionRevision == SELECTIVE_REVISION && ValidVersions(plan.collectIpVersions) then plan.collectIpVersions else [4, 6]
  }

  /** Seconds as a 64-bit duration in nanoseconds. */
  function Period(seconds: int): int {
    (seconds * 1_000_000_000 + 0x8000_0000_0000_0000) % 0x1_0000_0000_0000_0000 - 0x8000_0000_0000_0000
  }

  const LONGEST_PERIOD := 9_223_372_036

  /** The duration is the plan's frequency exactly while it fits; past that it is always too short. */
  lemma PeriodIsExact(seconds: int64)
    requires seconds >= 0
    ensures Period(seconds) == seconds * 1_000_000_000 <==> seconds <= LONGEST_PERIOD
    ensures seconds > LONGEST_PERIOD ==> Period(seconds) < seconds * 1_000_000_000
  {
  }

  function LastAttempt(s: Saved): Time {
    if s.lastAttemptedAt != 0 then s.lastAttemptedAt else s.lastSucceededAt
  }

  predicate Due(plan: Plan, s: Saved, now: Time) {
    plan.enabled && plan.frequencySeconds > 0 && (LastAttempt(s) == 0 || now >= LastAttempt(s) + Period(plan.frequencySeconds))
  }

  // ----- statuses -----

  /** A family the host does not have says nothing about the round. */
  predicate Counts(r: Report) { !r.unavailable }

  /** Success when something counts and all of it succeeded, partial when anything usable came, failure otherwise. */
  function Aggregate(reports: seq<Report>): string {
    var all := (exists i :: 0 <= i < |reports| && Counts(reports[i])) && forall i ::
      0 <= i < |reports| && Counts(reports[i]) ==> reports[i].status == SUCCESS;
    var some := exists i :: 0 <= i < |reports| && Counts(reports[i]) && reports[i].status in [SUCCESS, PARTIAL];
    if all then SUCCESS else if some then PARTIAL else FAILURE
  }

  method AggregateReportStatus(reports: seq<Report>) returns (status: string)
    ensures status == Aggregate(reports)
  {
    var actual, valid, successful := 0, 0, 0;
    for i := 0 to |reports|
      invariant 0 <= successful <= valid <= actual
      invariant actual > 0 <==> exists k :: 0 <= k < i && Counts(reports[k])
      invariant valid > 0 <==> exists k :: 0 <= k < i && Counts(reports[k]) && reports[k].status in [SUCCESS, PARTIAL]
      invariant successful == actual <==> forall k :: 0 <= k < i && Counts(reports[k]) ==> reports[k].status == SUCCESS
    {
      if reports[i].unavailable {
        continue;
      }
      actual := actual + 1;
      if reports[i].status == SUCCESS {
        valid, successful := valid + 1, successful + 1;
      } else if reports[i].status == PARTIAL {
        valid := valid + 1;
      }
    }
    status := if actual > 0 && successful == actual then SUCCESS else if valid > 0 then PARTIAL else FAILURE;
  }

  // ----- the manager and its surroundings -----

  /** A collection goroutine: its selection, its observation time and whether its context was cancelled. */
  datatype Round = Round(id: nat, versions: seq<int>, observedAt: Time, cancelled: bool)

  datatype Manager = Manager(
    inFlight: bool, inFlightRequestId: string, inFlightIpVersions: seq<int>, handledRequestId: string,
    startState: Saved, reports: seq<Report>, cancel: bool)

  const NEVER := Saved(0, 0, "")
  const IDLE := Manager(false, "", [], "", NEVER, [], false)

  /** The state file now, and what it may be found as after a power loss. */
  datatype Disk = Disk(visible: Saved, survivors: set<Saved>)

  datatype Save = NotWritten | Written | Doubtful

  function Persist(d: Disk, s: Saved, save: Save): Disk {
    match save
    case NotWritten => d
    case Written => Disk(s, {s})
    case Doubtful => Disk(s, d.survivors + {s})
  }

  /** What happened, for telling what runs promise. */
  datatype Entry =
    | Started(round: nat, at: Time, scheduled: Option<int64>, versions: seq<int>)
    | Marked(round: nat, requestId: string, wanted: seq<int>)
    | Handled(requestId: string)
    | Queued(round: nat)
    | Stopped(rounds: set<nat>)
    | Restarted

  datatype World = World(mgr: Manager, running: seq<Round>, disk: Disk, rounds: nat, clock: Time, log: seq<Entry>)

  // ----- steps -----

  function CurrentRound(w: World): nat {
    if w.running == [] then 0 else w.running[|w.running| - 1].id
  }

  predicate Manual(m: Manager, plan: Plan) {
    TrimSpace(plan.collectRequestId) != "" && TrimSpace(plan.collectRequestId) != m.handledRequestId
  }

  /** A matching manual request takes over the round already in flight. */
  function Claim(w: World, plan: Plan): World {
    var manual, id := Manual(w.mgr, plan), TrimSpace(plan.collectRequestId);
    if manual && w.mgr.inFlightRequestId == "" && Selection(plan, true) == w.mgr.inFlightIpVersions && w.mgr.cancel then
      w.(mgr := w.mgr.(inFlightRequestId := id), log := w.log + [Marked(CurrentRound(w), id, Selection(plan, true))])
    else w
  }

  function Launch(w: World, plan: Plan, now: Time): World {
    var manual, id := Manual(w.mgr, plan), TrimSpace(plan.collectRequestId);
    var state, versions := w.disk.visible.(lastAttemptedAt := now), Selection(plan, manual);
    var mgr := w.mgr.(inFlight := true, inFlightRequestId := if manual then id else "", inFlightIpVersions := versions,
                      startState := state, cancel := true);
    var log := w.log + [Started(w.rounds, now, if manual then None else Some(plan.frequencySeconds), versions)];
    World(mgr, w.running + [Round(w.rounds, versions, now, false)], Persist(w.disk, state, Written), w.rounds + 1,
          w.clock,
          if manual then log + [Marked(w.rounds, id, versions)] else log)
  }

  function MaybeStart(w: World, plan: Option<Plan>, now: Time, loads: bool, save: Save): World {
    if plan == None || !plan.value.enabled then w
    else if w.mgr.inFlight then Claim(w, plan.value)
    else if !loads || (!Manual(w.mgr, plan.value) && !Due(plan.value, w.disk.visible, now)) then w
    else if save == Written then Launch(w, plan.value, now)
    else w.(disk := Persist(w.disk, w.disk.visible.(lastAttemptedAt := now), save))
  }

  function RunningIds(running: seq<Round>): set<nat> {
    set r | r in running :: r.id
  }

  function Stop(w: World): World {
    var running := if w.mgr.cancel && w.running != [] then w.running[|w.running| - 1 := w.running[|w.running| - 1].(cancelled := true)] else w.running;
    w.(mgr := w.mgr.(cancel := false, reports := [], handledRequestId := ""), running := running,
       log := w.log + [Stopped(RunningIds(w.running))])
  }

  function DrainReports(w: World): World {
    w.(mgr := w.mgr.(reports := []))
  }

  function Stamp(reports: seq<Report>, round: nat, requestId: string): seq<Report> {
    seq(|reports|, i requires 0 <= i < |reports| =>
      reports[i].(round := round, requestId := if requestId != "" then requestId else reports[i].requestId))
  }

  /** The state a finished round saves. */
  function Outcome(start: Saved, at: Time, reports: seq<Report>): Saved {
    var status := Aggregate(reports);
    Saved(at, if status == SUCCESS then at else start.lastSucceededAt, status)
  }

  /** The i-th goroutine finishes with these reports. */
  function Complete(w: World, i: nat, reports: seq<Report>, save: Save): World
    requires i < |w.running|
  {
    var r, m := w.running[i], w.mgr;
    var ended := m.(inFlight := false, inFlightRequestId := "", inFlightIpVersions := [], cancel := false);
    var rest := w.running[..i] + w.running[i + 1..];
    if r.cancelled then w.(mgr := ended, running := rest)
    else
      var handled := m.inFlightRequestId;
      var mgr := ended.(reports := m.reports + Stamp(reports, r.id, handled),
                        handledRequestId := if handled != "" then handled else m.handledRequestId);
      w.(mgr := mgr, running := rest, disk := Persist(w.disk, Outcome(m.startState, r.observedAt, reports), save),
         log := (if handled != "" then w.log + [Handled(handled)] else w.log) + [Queued(r.id)])
  }

  function Restart(w: World, found: Saved): World {
    w.(mgr := IDLE, running := [], disk := Disk(found, {found}), log := w.log + [Restarted])
  }

  datatype Op =
    | Offer(plan: Option<Plan>, now: Time, loads: bool, save: Save)
    | Halt
    | Drain
    | Finish(i: nat, reports: seq<Report>, saved: Save)
    | Reboot(found: Saved)

  /** The clock does not run backwards and is not Go's zero time; only a running goroutine finishes; a restart
      finds a state that may have survived. */
  predicate Legal(w: World, op: Op) {
    match op
    case Offer(_, now, _, _) => now >= w.clock && now > 0
    case Finish(i, _, _) => i < |w.running|
    case Reboot(found) => found in w.disk.survivors
    case _ => true
  }

  function Next(w: World, op: Op): World
    requires Legal(w, op)
  {
    match op
    case Offer(plan, now, loads, save) => MaybeStart(w, plan, now, loads, save).(clock := now)
    case Halt => Stop(w)
    case Drain => DrainReports(w)
    case Finish(i, reports, save) => Complete(w, i, reports, save)
    case Reboot(found) => Restart(w, found)
  }
}
