/** The projector's loops and stores in place: what each method leaves is what the pass functions say. */
module ProjectorObject {
  import opened Text
  import opened ActivityTypes
  import opened Projector

  /** The durable side of one source: its projected rows and its checkpoint. `calls` numbers the outside's answers. */
  class Stores {
    var rows: Projection
    var checkpoint: Checkpoint
    var calls: nat

    constructor (p: Position)
      ensures rows == p.rows && checkpoint == p.checkpoint && calls == 0
    {
      rows, checkpoint, calls := p.rows, p.checkpoint, 0;
    }

    function At(): Position
      reads this
    {
      Position(checkpoint, rows)
    }

    /** All or nothing: new rows are collected first and written together. */
    method PublishBatch(page: seq<Candidate>) returns (outcome: Option<Published>)
      modifies this`rows
      ensures outcome == Projector.PublishBatch(old(rows), page)
      ensures rows == if outcome.Some? then outcome.value.rows else old(rows)
    {
      var next, inserted, present := rows, 0, 0;
      var seen: set<string> := {};
      var i := 0;
      while i < |page|
        invariant 0 <= i <= |page| && seen == Ids(page[..i]) && rows == old(rows)
        invariant Projector.PublishBatch(rows, page[..i]) == Some(Published(next, inserted, present))
      {
        var c := page[i];
        OneMore(rows, page, i, Published(next, inserted, present));
        if c.activityId !in seen {
          if c.activityId !in rows {
            next, inserted := next[c.activityId := c], inserted + 1;
          } else if rows[c.activityId].canonicalHash != c.canonicalHash {
            Refused(rows, page, i + 1);
            outcome := None;
            return;
          } else {
            present := present + 1;
          }
          seen := seen + {c.activityId};
        }
        i := i + 1;
      }
      assert page[..i] == page;
      rows := next;
      outcome := Some(Published(next, inserted, present));
    }
  }

  /** What one more candidate does to a batch. */
  lemma OneMore(rows: Projection, page: seq<Candidate>, i: nat, p: Published)
    requires i < |page| && PublishBatch(rows, page[..i]) == Some(p)
    ensures Ids(page[..i + 1]) == Ids(page[..i]) + {page[i].activityId}
    ensures PublishBatch(rows, page[..i + 1]) ==
            var c := page[i];
            if c.activityId in Ids(page[..i]) then Some(p)
            else if c.activityId !in rows then Some(Published(p.rows[c.activityId := c], p.inserted + 1, p.alreadyPresent))
            else if rows[c.activityId].canonicalHash != c.canonicalHash then None
            else Some(p.(alreadyPresent := p.alreadyPresent + 1))
  {
    assert page[..i + 1][..i] == page[..i] && page[..i + 1] == page[..i] + [page[i]];
  }

  /** A batch refused early is refused. */
  lemma {:induction false} Refused(rows: Projection, page: seq<Candidate>, n: nat)
    requires n <= |page| && PublishBatch(rows, page[..n]) == None
    ensures PublishBatch(rows, page) == None
    decreases |page| - n
  {
    if n == |page| {
      assert page[..n] == page;
    } else {
      assert page[..n + 1][..n] == page[..n];
      Refused(rows, page, n + 1);
    }
  }

  datatype DrainResult = DrainResult(
    scanned: nat, inserted: nat, alreadyPresent: nat, maxRecordedAt: Time, complete: bool, stalled: bool)

  const NOTHING_READ := DrainResult(0, 0, 0, 0, false, false)

  /** The loop's variables as a drain in progress. */
  function InProgress(rows: Projection, from: int, after: string, through: Time, r: DrainResult, calls: nat): Drain {
    Drain(rows, from, after, through, r.scanned, r.inserted, r.alreadyPresent, r.maxRecordedAt, Running, calls)
  }

  /** What a finished drain reports. */
  predicate Reports(d: Drain, r: DrainResult, refusal: Option<Refusal>) {
    && r.scanned == d.scanned && r.inserted == d.inserted && r.alreadyPresent == d.alreadyPresent
    && r.maxRecordedAt == d.maxRecordedAt
    && r.complete == (d.status == Complete) && r.stalled == (d.status == Stalled)
    && refusal == if d.status.Failed? then Some(d.status.why) else None
  }

  class SourceProjector {
    const settings: Settings
    const env: Env
    const stores: Stores

    constructor (settings: Settings, env: Env, stores: Stores)
      ensures this.settings == settings && this.env == env && this.stores == stores
    {
      this.settings, this.env, this.stores := settings, env, stores;
    }

    method ValidateCandidates(w: Window, page: seq<Candidate>) returns (refusal: Option<Refusal>)
      ensures refusal == None <==> forall c :: c in page ==> ContentOk(settings.rules, c) && InWindow(c, w)
      ensures refusal == FirstRefusal(settings.rules, w, page)
    {
      var i := 0;
      while i < |page|
        invariant 0 <= i <= |page|
        invariant FirstRefusal(settings.rules, w, page) == FirstRefusal(settings.rules, w, page[i..])
      {
        refusal := Validate(settings.rules, w, page[i]);
        if refusal.Some? {
          NoRefusal(settings.rules, w, page);
          return;
        }
        i := i + 1;
      }
      refusal := None;
      NoRefusal(settings.rules, w, page);
    }

    /** One page: scanned, checked and published, and the cursor moved past it. */
    method ReadPage(window: Window, before: DrainResult) returns (result: DrainResult, from: int, after: string, refusal: Option<Refusal>)
      requires !before.complete && !before.stalled
      modifies stores`rows, stores`calls
      ensures var next := PageStep(settings, env,
                            InProgress(old(stores.rows), window.from, window.afterEventId, window.through, before,
                                       old(stores.calls)));
              && stores.rows == next.rows && stores.calls == next.call && from == next.from && after == next.after
              && next.through == window.through && Reports(next, result, refusal)
    {
      ghost var d := InProgress(stores.rows, window.from, window.afterEventId, window.through, before, stores.calls);
      assert d.At() == window;
      result, from, after, refusal := before, window.from, window.afterEventId, None;
      var call := stores.calls;
      stores.calls := stores.calls + 1;
      var scan := env.scan(call, window, settings.batchSize);
      if scan.ScanFailed? {
        refusal := Some(Unavailable);
        return;
      }
      var candidates := scan.rows;
      if candidates == [] {
        result := result.(complete := true);
        return;
      }
      refusal := ValidateCandidates(window, candidates);
      if refusal.Some? {
        return;
      }
      if !env.publishes(call) {
        refusal := Some(Unavailable);
        return;
      }
      var outcome := stores.PublishBatch(candidates);
      if outcome == None {
        refusal := Some(Unavailable);
        return;
      }
      var last := candidates[|candidates| - 1];
      result := result.(scanned := result.scanned + |candidates|, inserted := result.inserted + outcome.value.inserted,
                        alreadyPresent := result.alreadyPresent + outcome.value.alreadyPresent,
                        maxRecordedAt := Later(result.maxRecordedAt, last.recordedAt));
      if |candidates| < settings.batchSize {
        result := result.(complete := true);
      } else if !(last.recordedAt > from) && !Less(after, last.source.eventId) {
        result := result.(stalled := true);
      } else {
        from, after := last.recordedAt, last.source.eventId;
      }
    }

    /** Pages of one window until it ends, something fails or the page budget is spent. */
    method Drain(w: Window) returns (result: DrainResult, refusal: Option<Refusal>)
      modifies stores`rows, stores`calls
      ensures var d := DrainWindow(settings, env, old(stores.rows), w, old(stores.calls));
              stores.rows == d.rows && stores.calls == d.call && Reports(d, result, refusal)
    {
      result, refusal := NOTHING_READ, None;
      var from, after, page := w.from, w.afterEventId, 0;
      ghost var end := DrainWindow(settings, env, stores.rows, w, stores.calls);
      while page < settings.maxPages
        invariant page <= settings.maxPages && !result.complete && !result.stalled && refusal == None
        invariant end == DrainPages(settings, env, InProgress(stores.rows, from, after, w.through, result, stores.calls), settings.maxPages - page)
      {
        ghost var d := InProgress(stores.rows, from, after, w.through, result, stores.calls);
        ghost var next := PageStep(settings, env, d);
        assert end == DrainPages(settings, env, next, settings.maxPages - page - 1);
        result, from, after, refusal := ReadPage(Window(from, w.through, after), result);
        if refusal.Some? || result.complete || result.stalled {
          return;
        }
        assert next == InProgress(stores.rows, from, after, w.through, result, stores.calls);
        page := page + 1;
      }
    }

    /** The attempt is counted and the position stays. */
    method RecordFailure(checkpoint: Checkpoint, why: Refusal, ghost head: Option<Head>)
      requires stores.checkpoint == checkpoint
      modifies stores`checkpoint, stores`calls
      ensures var p := Projector.RecordFailure(env, checkpoint, stores.rows, old(stores.calls), why, head);
              stores.At() == p.position && stores.calls == p.end
    {
      var call := stores.calls;
      stores.calls := stores.calls + 1;
      if env.saves(call) {
        stores.checkpoint := checkpoint.(caughtUp := false, attempt := checkpoint.attempt + 1, lastError := Some(why));
      }
    }

    /** One pass over the source. */
    method ProjectSource() returns (ok: bool, caughtUp: bool)
      modifies stores
      ensures var p := Projector.ProjectSource(settings, env, old(stores.At()), old(stores.calls));
              && stores.At() == p.position && stores.calls == p.end
              && ok == p.ok && caughtUp == (p.ok && p.frontier && p.trailing)
    {
      ok, caughtUp := false, false;
      var start, checkpoint := stores.calls, stores.checkpoint;
      if !env.loads(start) || checkpoint.kind != settings.rules.kind {
        stores.calls := start + 1;
        return;
      }
      stores.calls := start + 2;
      var answer := env.head(start + 1);
      if answer == None {
        RecordFailure(checkpoint, Unavailable, None);
        return;
      }
      var head := answer.value;
      if !ValidHead(checkpoint, head) {
        RecordFailure(checkpoint, InvalidHead, None);
        return;
      }
      var frontier, refusal := Drain(FrontierWindow(checkpoint, head));
      if refusal.Some? {
        RecordFailure(checkpoint, refusal.value, answer);
        return;
      }
      var trailingComplete := true;
      var back := TrailingWindow(checkpoint, settings.overlap);
      if back.Some? {
        var trailing, refused := Drain(back.value);
        if refused.Some? {
          RecordFailure(checkpoint, refused.value, answer);
          return;
        }
        trailingComplete := trailing.complete;
      }
      var through: Time := if frontier.complete then head.recordedThrough else Later(checkpoint.recordedThrough, frontier.maxRecordedAt);
      var next := Checkpoint(checkpoint.kind, through, frontier.complete && trailingComplete, 0, None);
      ok := env.saves(stores.calls);
      if ok {
        stores.checkpoint := next;
        caughtUp := next.caughtUp;
      }
      stores.calls := stores.calls + 1;
    }
  }
}
