/** The manager's methods in place: each leaves the fields as the step functions say. */
module ManagerObject {
  import opened Text
  import opened CollectionManager

  /** The state file. Loads and saves may fail, and a doubtful save may or may not survive. */
  class StateStore {
    var disk: Disk

    constructor (disk: Disk)
      ensures this.disk == disk
    {
      this.disk := disk;
    }

    method Save(s: Saved, outcome: Save) returns (ok: bool)
      modifies this
      ensures disk == Persist(old(disk), s, outcome) && ok == (outcome == Written)
    {
      ok := outcome == Written;
      match outcome
      case NotWritten =>
      case Written => disk := Disk(s, {s});
      case Doubtful => disk := Disk(s, disk.survivors + {s});
    }
  }

  /** One goroutine's context. */
  class Collection {
    const id: nat
    const versions: seq<int>
    const observedAt: Time
    var cancelled: bool

    constructor (id: nat, versions: seq<int>, observedAt: Time)
      ensures this.id == id && this.versions == versions && this.observedAt == observedAt && !cancelled
    {
      this.id, this.versions, this.observedAt, cancelled := id, versions, observedAt, false;
    }

    function Value(): Round
      reads this
    {
      Round(id, versions, observedAt, cancelled)
    }
  }

  /** Writes the claimed request id into each report. */
  method StampReports(collected: seq<Report>, round: nat, requestId: string) returns (stamped: seq<Report>)
    ensures stamped == Stamp(collected, round, requestId)
  {
    stamped := [];
    for i := 0 to |collected|
      invariant stamped == Stamp(collected[..i], round, requestId)
    {
      var r := collected[i].(round := round);
      if requestId != "" {
        r := r.(requestId := requestId);
      }
      stamped := stamped + [r];
    }
    assert collected[..|collected|] == collected;
  }

  class IpQualityManager {
    const store: StateStore
    var inFlight: bool
    var inFlightRequestId: string
    var inFlightIpVersions: seq<int>
    var handledRequestId: string
    var startState: Saved
    var reports: seq<Report>
    /** The running round's context while it can still be cancelled. */
    var cancel: Collection?
    var rounds: nat
    /** The running goroutine, if any. */
    var current: Collection?

    function State(): Manager
      reads this
    {
      Manager(inFlight, inFlightRequestId, inFlightIpVersions, handledRequestId, startState, reports, cancel != null)
    }

    /** What cancel and current are to each other. */
    predicate Wired()
      reads this
    {
      inFlight == (current != null) && (cancel != null ==> cancel == current)
    }

    /** Everything but the log and the clock. */
    ghost predicate Is(w: World)
      reads this, store, current
    {
      && w.mgr == State() && w.disk == store.disk && w.rounds == rounds
      && w.running == if current == null then [] else [current.Value()]
    }

    constructor (store: StateStore)
      ensures this.store == store && Wired() && State() == IDLE && current == null && rounds == 0
    {
      this.store := store;
      inFlight, inFlightRequestId, inFlightIpVersions, handledRequestId := false, "", [], "";
      startState, reports, cancel, rounds, current := NEVER, [], null, 0, null;
    }

    /** Starts a round when a request or the schedule asks for one, or lets a request claim the one in flight. */
    method MaybeStart(plan: Option<Plan>, now: Time, loads: bool, save: Save, ghost w: World)
      requires Wired() && Is(w)
      modifies this, store
      ensures Wired() && Is(CollectionManager.MaybeStart(w, plan, now, loads, save))
    {
      if plan == None || !plan.value.enabled {
        return;
      }
      var p, requestId := plan.value, TrimSpace(plan.value.collectRequestId);
      var manual := requestId != "" && requestId != handledRequestId;
      if inFlight {
        var versions := [4, 6];
        if manual && p.collectionRevision == SELECTIVE_REVISION && ValidVersions(p.collectIpVersions) {
          versions := p.collectIpVersions;
        }
        if manual && inFlightRequestId == "" && versions == inFlightIpVersions && cancel != null {
          inFlightRequestId := requestId;
        }
        return;
      }
      if !loads {
        return;
      }
      var state := store.disk.visible;
      if !manual && !Due(p, state, now) {
        return;
      }
      state := state.(lastAttemptedAt := now);
      var ok := store.Save(state, save);
      if !ok {
        return;
      }
      inFlight := true;
      inFlightIpVersions := Selection(p, manual);
      inFlightRequestId := "";
      if manual {
        inFlightRequestId := requestId;
      }
      startState := state;
      current := new Collection(rounds, inFlightIpVersions, now);
      cancel := current;
      rounds := rounds + 1;
    }

    /** Cancels any round in flight and forgets what was handled. */
    method Stop(ghost w: World)
      requires Wired() && Is(w)
      modifies this, cancel
      ensures Wired() && Is(CollectionManager.Stop(w))
    {
      if cancel != null {
        cancel.cancelled := true;
        cancel := null;
      }
      reports := [];
      handledRequestId := "";
    }

    method DrainReports(ghost w: World) returns (drained: seq<Report>)
      requires Wired() && Is(w)
      modifies this`reports
      ensures drained == old(reports) && Wired() && Is(CollectionManager.DrainReports(w))
    {
      drained := reports;
      reports := [];
    }

    /** What a round that was not stopped leaves: its state saved, its request handled, its reports queued. */
    method Keep(collected: seq<Report>, save: Save)
      requires current != null
      modifies this`handledRequestId, this`reports, store
      ensures store.disk == Persist(old(store.disk), Outcome(startState, current.observedAt, collected), save)
      ensures reports == old(reports) + Stamp(collected, current.id, inFlightRequestId)
      ensures handledRequestId == if inFlightRequestId != "" then inFlightRequestId else old(handledRequestId)
    {
      var state := startState.(lastAttemptedAt := current.observedAt);
      var status := AggregateReportStatus(collected);
      state := state.(lastStatus := status);
      if status == SUCCESS {
        state := state.(lastSucceededAt := current.observedAt);
      }
      var stamped := StampReports(collected, current.id, inFlightRequestId);
      if inFlightRequestId != "" {
        handledRequestId := inFlightRequestId;
      }
      var _ := store.Save(state, save);
      reports := reports + stamped;
    }

    /** The end of a collection: its critical section. */
    method Finish(collected: seq<Report>, save: Save, ghost w: World)
      requires Wired() && Is(w) && current != null
      modifies this, store
      ensures Wired() && Is(Complete(w, 0, collected, save)) && current == null
    {
      if !current.cancelled {
        Keep(collected, save);
      }
      cancel, inFlight, inFlightRequestId, inFlightIpVersions, current := null, false, "", [], null;
    }
  }
}
