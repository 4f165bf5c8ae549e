/** The FileStore object: fields updated in place, every method proved equal to its operation on values. */
module QueueObject {
  import opened Text
  import opened Envelopes
  import opened Pruning
  import opened FileStores

  class FileStore {
    const cfg: Config
    var disk: Disk
    var lock: bool
    var session: string
    var poison: bool

    /** NewFileStore over a disk left behind by earlier processes. */
    constructor (opts: Options, json: Json, disk: Disk)
      requires json.Lawful()
      ensures cfg == Config(Normalized(opts), json) && cfg.Valid()
      ensures State() == Store(disk, false, "", false)
    {
      cfg := Config(Normalized(opts), json);
      this.disk := disk;
      lock, session, poison := false, "", false;
    }

    function State(): Store
      reads this
    {
      Store(disk, lock, session, poison)
    }

    method ReadEnvelope() returns (r: Outcome<Envelope>)
      ensures r == FileStores.ReadEnvelope(State())
    {
      if !disk.visible.Snapshot? {
        return Err(Refused);
      }
      var e := disk.visible.env;
      var ok := DecodeEnvelope(e);
      if !ok || (session != "" && e.sessionId != session) {
        return Err(Refused);
      }
      return Ok(e);
    }

    method Ready(io: Io) returns (r: Outcome<Envelope>)
      ensures r == FileStores.Ready(State(), io)
    {
      if poison {
        return Err(AmbiguousDurability);
      }
      if !io.reachable || !lock {
        return Err(Refused);
      }
      r := ReadEnvelope();
    }

    method WriteEnvelope(e: Envelope, w: Write) returns (r: Outcome<()>)
      modifies this`disk, this`poison
      ensures Step(State(), r) == FileStores.WriteEnvelope(cfg, old(State()), e, w)
    {
      if |cfg.json.envelope(e)| > cfg.opts.maxBytes {
        return Err(ExceedsCapacity);
      }
      match w
      case FailedBeforeRename =>
        return Err(Refused);
      case Committed =>
        disk := Disk(Snapshot(e), {Snapshot(e)});
        return Ok(());
      case Ambiguous =>
        disk := Disk(Snapshot(e), disk.survivors + {Snapshot(e)});
        poison := true;
        return Err(AmbiguousDurability);
    }

    method Bootstrap(newSession: string, producer: string, w: Write) returns (r: Outcome<()>)
      requires lock && session == ""
      modifies this
      ensures Step(State(), r) == FileStores.Bootstrap(cfg, old(State()), newSession, producer, w)
    {
      r := WriteEnvelope(Fresh(newSession, producer), w);
      if r.Ok? {
        session := newSession;
      } else {
        lock, session := false, "";
      }
    }

    method OpenSession(newSession: string, producer: string, io: Io, second: Write) returns (r: Outcome<()>)
      modifies this
      ensures Step(State(), r) == FileStores.OpenSession(cfg, old(State()), newSession, producer, io, second)
    {
      if poison {
        return Err(AmbiguousDurability);
      }
      if !io.reachable || newSession == "" {
        return Err(Refused);
      }
      if lock {
        var read := ReadEnvelope();
        return if newSession == session && read.Ok? then Ok(()) else Err(Refused);
      }
      lock, session := true, "";
      match disk.visible
      case Missing =>
        r := Bootstrap(newSession, producer, io.write);
      case Legacy(n) =>
        if n == 0 {
          r := Bootstrap(newSession, producer, io.write);
        } else {
          lock := false;
          r := Err(LegacyNotDrained);
        }
      case Unreadable =>
        lock := false;
        r := Err(Refused);
      case Snapshot(e) =>
        r := AdoptOrReplace(e, newSession, producer, io.write, second);
    }

    method AdoptOrReplace(e: Envelope, newSession: string, producer: string, first: Write, second: Write)
      returns (r: Outcome<()>)
      requires lock && session == "" && disk.visible == Snapshot(e)
      modifies this
      ensures Step(State(), r) ==
              if !Accepts(e) then Step(old(State()).Released(), Err(Refused))
              else if e.sessionId == newSession then Step(old(State()).(session := newSession), Ok(()))
              else
                var retire := FileStores.WriteEnvelope(cfg, old(State()), Retired(e), first);
                if retire.result.Err? then Step(retire.store.Released(), retire.result)
                else FileStores.Bootstrap(cfg, retire.store, newSession, producer, second)
    {
      var ok := DecodeEnvelope(e);
      if !ok {
        lock := false;
        return Err(Refused);
      }
      if e.sessionId == newSession {
        session := newSession;
        return Ok(());
      }
      r := WriteEnvelope(Retired(e), first);
      if r.Err? {
        lock, session := false, "";
        return;
      }
      r := Bootstrap(newSession, producer, second);
    }

    method Close() returns (r: Outcome<()>)
      modifies this`lock, this`session
      ensures Step(State(), r) == FileStores.Close(old(State()))
    {
      lock, session := false, "";
      r := if poison then Err(AmbiguousDurability) else Ok(());
    }

    method ReplayState(io: Io) returns (r: Outcome<ReplayState>)
      ensures FileStores.Ready(State(), io).Err? ==> r == Err(FileStores.Ready(State(), io).error)
      ensures FileStores.Ready(State(), io).Ok? ==>
        var e := FileStores.Ready(State(), io).value;
        r == Ok(FileStores.ReplayState.ReplayState(e.sessionId, e.producerId, e.lastAllocated, e.retiredFloor))
    {
      var read := Ready(io);
      if read.Err? {
        return Err(read.error);
      }
      var e := read.value;
      return Ok(FileStores.ReplayState.ReplayState(e.sessionId, e.producerId, e.lastAllocated, e.retiredFloor));
    }

    method List(io: Io) returns (r: Outcome<seq<Entry>>)
      ensures FileStores.Ready(State(), io).Err? ==> r == Err(FileStores.Ready(State(), io).error)
      ensures FileStores.Ready(State(), io).Ok? ==> r == Ok(FileStores.Ready(State(), io).value.entries)
    {
      var read := Ready(io);
      if read.Err? {
        return Err(read.error);
      }
      return Ok(read.value.entries);
    }

    method Enqueue(request: Request, now: nat, pruneNow: nat, io: Io) returns (r: Outcome<string>)
      requires cfg.Valid()
      modifies this`disk, this`poison
      ensures Step(State(), r) == FileStores.Enqueue(cfg, old(State()), request, now, pruneNow, io)
    {
      var read := Ready(io);
      if read.Err? {
        return Err(read.error);
      }
      var e := read.value;
      if request.sessionId != e.sessionId || e.lastAllocated == MAX_INT64 {
        return Err(Refused);
      }
      var id := Identity(e.producerId, e.lastAllocated + 1);
      var state := Appended(e, request, now);
      AppendOrdered(e, request, now);
      var pruned := PruneEnvelope(cfg.json, cfg.opts, state, pruneNow);
      if pruned.None? {
        return Err(ExceedsCapacity);
      }
      state := pruned.value;
      if |state.entries| == 0 || state.entries[|state.entries| - 1].id != id {
        return Err(ExceedsCapacity);
      }
      PrunedHeader(cfg, Appended(e, request, now), pruneNow, state);
      var written := WriteEnvelope(state, io.write);
      return if written.Ok? then Ok(id) else Err(written.error);
    }

    method ReserveLiveSequences(count: int, io: Io) returns (r: Outcome<Block>)
      modifies this`disk, this`poison
      ensures Step(State(), r) == ReserveLive(cfg, old(State()), count, io)
    {
      var read := Ready(io);
      if read.Err? {
        return Err(read.error);
      }
      var e := read.value;
      if count != LIVE_SEQUENCE_RESERVATION || e.liveReserved > MAX_INT64 - count {
        return Err(Refused);
      }
      var first := e.liveReserved + 1;
      e := e.(liveReserved := e.liveReserved + count);
      var written := WriteEnvelope(e, io.write);
      return if written.Ok? then Ok(Block(first, e.liveReserved)) else Err(written.error);
    }

    method DeleteMany(ids: seq<string>, io: Io) returns (r: Outcome<()>)
      modifies this`disk, this`poison
      ensures Step(State(), r) == Mutate(cfg, old(State()), Mutation.DeleteMany(set id | id in ids), io)
    {
      var read := Ready(io);
      if read.Err? {
        return Err(read.error);
      }
      var e := read.value;
      var deleted: set<string> := {};
      for i := 0 to |ids|
        invariant deleted == set id | id in ids[..i]
      {
        assert forall id :: id in ids[..i + 1] <==> id in ids[..i] || id == ids[i];
        deleted := deleted + {ids[i]};
      }
      assert ids[..|ids|] == ids;
      var kept: seq<Entry> := [];
      for i := 0 to |e.entries|
        invariant kept == Without(e.entries[..i], deleted)
      {
        assert e.entries[..i + 1][..i] == e.entries[..i];
        if e.entries[i].id !in deleted {
          kept := kept + [e.entries[i]];
        }
      }
      assert e.entries[..|e.entries|] == e.entries;
      DeleteAccepted(e, deleted);
      r := WriteEnvelope(AdvanceFloor(e.(entries := kept)), io.write);
    }

    method MarkAttempt(id: string, io: Io) returns (r: Outcome<()>)
      modifies this`disk, this`poison
      ensures Step(State(), r) == Mutate(cfg, old(State()), Mutation.MarkAttempt(id), io)
    {
      var read := Ready(io);
      if read.Err? {
        return Err(read.error);
      }
      var e := read.value;
      var i := 0;
      while i < |e.entries| && e.entries[i].id != id
        invariant 0 <= i <= |e.entries|
        invariant forall k :: 0 <= k < i ==> e.entries[k].id != id
      {
        i := i + 1;
      }
      assert i == IndexOf(e.entries, id);
      if i < |e.entries| {
        if e.entries[i].attempts == MAX_INT64 {
          return Err(Refused);
        }
        e := e.(entries := e.entries[i := e.entries[i].(attempts := e.entries[i].attempts + 1)]);
      }
      r := WriteEnvelope(e, io.write);
    }

    method Prune(now: nat, io: Io) returns (r: Outcome<()>)
      requires cfg.Valid()
      modifies this`disk, this`poison
      ensures Step(State(), r) == Mutate(cfg, old(State()), Mutation.Prune(now), io)
    {
      var read := Ready(io);
      if read.Err? {
        return Err(read.error);
      }
      var pruned := PruneEnvelope(cfg.json, cfg.opts, read.value, now);
      if pruned.None? {
        return Err(ExceedsCapacity);
      }
      r := WriteEnvelope(pruned.value, io.write);
    }
  }

  lemma PrunedHeader(c: Config, e: Envelope, now: nat, p: Envelope)
    requires Accountable(e) && Pruned(c.json, c.opts, e, now) == Some(p)
    ensures p.producerId == e.producerId && p.lastAllocated == e.lastAllocated
  {
    PrunedIsLongest(c.json, c.opts, e, now, Some(p));
  }
}
