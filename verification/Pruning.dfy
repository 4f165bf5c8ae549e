/** Age, count and byte limits of the replay queue (agent/syncqueue/store.go, pruneEnvelope). */
module Pruning {
  import opened Text
  import opened Envelopes

  datatype Options = Options(maxEntries: int, maxAge: int, maxBytes: int) {
    predicate Usable() { maxEntries > 0 && maxAge > 0 && maxBytes > 0 }
  }

  const DEFAULT_OPTIONS := Options(65536, 72 * 3600 * 1_000_000_000, 64 * 1024 * 1024)

  /** NewFileStore's defaulting of each limit. */
  function Normalized(o: Options): (r: Options)
    ensures r.Usable()
    ensures o.Usable() ==> r == o
  {
    Options(
      if o.maxEntries <= 0 then DEFAULT_OPTIONS.maxEntries else o.maxEntries,
      if o.maxAge <= 0 then DEFAULT_OPTIONS.maxAge else o.maxAge,
      if o.maxBytes <= 0 then DEFAULT_OPTIONS.maxBytes else o.maxBytes)
  }

  /** Everything after the first k entries is young enough. */
  predicate AllFresh(es: seq<Entry>, k: nat, cutoff: int) {
    forall i :: k <= i < |es| ==> es[i].createdAt >= cutoff
  }

  /** The age and count limits. */
  predicate InLimits(o: Options, es: seq<Entry>, now: nat, k: nat) {
    AllFresh(es, k, now - o.maxAge) && |es| - k <= o.maxEntries
  }

  /** Keeping the entries from k on meets all three limits. */
  predicate Fits(j: Json, o: Options, e: Envelope, now: nat, k: nat)
    requires Accountable(e)
  {
    && k <= |e.entries|
    && InLimits(o, e.entries, now, k)
    && |j.envelope(Suffix(e, k))| <= o.maxBytes
  }

  ghost predicate LeastCut(j: Json, o: Options, e: Envelope, now: nat, k: nat)
    requires Accountable(e)
  {
    Fits(j, o, e, now, k) && forall m: nat :: m < k ==> !Fits(j, o, e, now, m)
  }

  /** The specification of pruning: the longest suffix within every limit, or none. */
  ghost predicate IsPruned(j: Json, o: Options, e: Envelope, now: nat, r: Option<Envelope>)
    requires Accountable(e)
  {
    match r
    case Some(p) =>
      exists k: nat :: LeastCut(j, o, e, now, k) && p == Suffix(e, k)
    case None =>
      forall m: nat :: m <= |e.entries| ==> !Fits(j, o, e, now, m)
  }

  /** Two prunings of one queue agree. */
  lemma PrunedUnique(j: Json, o: Options, e: Envelope, now: nat, r: Option<Envelope>, s: Option<Envelope>)
    requires Accountable(e)
    requires IsPruned(j, o, e, now, r) && IsPruned(j, o, e, now, s)
    ensures r == s
  {
    if r.Some? && s.Some? {
      var k: nat :| LeastCut(j, o, e, now, k) && r.value == Suffix(e, k);
      var l: nat :| LeastCut(j, o, e, now, l) && s.value == Suffix(e, l);
      assert !(k < l) && !(l < k);
    }
  }

  /** The reference definition: try every cut from k on. */
  function PrunedFrom(j: Json, o: Options, e: Envelope, now: nat, k: nat): Option<Envelope>
    requires Accountable(e) && k <= |e.entries|
    decreases |e.entries| - k
  {
    if Fits(j, o, e, now, k) then Some(Suffix(e, k))
    else if k == |e.entries| then None
    else PrunedFrom(j, o, e, now, k + 1)
  }

  function Pruned(j: Json, o: Options, e: Envelope, now: nat): Option<Envelope>
    requires Accountable(e)
  {
    PrunedFrom(j, o, e, now, 0)
  }

  lemma {:induction false} PrunedFromMeets(j: Json, o: Options, e: Envelope, now: nat, k: nat)
    requires Accountable(e) && k <= |e.entries|
    requires forall m: nat :: m < k ==> !Fits(j, o, e, now, m)
    ensures IsPruned(j, o, e, now, PrunedFrom(j, o, e, now, k))
    decreases |e.entries| - k
  {
    if Fits(j, o, e, now, k) {
      assert LeastCut(j, o, e, now, k);
    } else if k < |e.entries| {
      PrunedFromMeets(j, o, e, now, k + 1);
    }
  }

  /** The longest suffix is what the reference definition finds, and nothing else is. */
  lemma PrunedIsLongest(j: Json, o: Options, e: Envelope, now: nat, r: Option<Envelope>)
    requires Accountable(e)
    ensures IsPruned(j, o, e, now, r) <==> r == Pruned(j, o, e, now)
  {
    PrunedFromMeets(j, o, e, now, 0);
    if IsPruned(j, o, e, now, r) {
      PrunedUnique(j, o, e, now, r, Pruned(j, o, e, now));
    }
  }

  /** Advancing the floor entry by entry ends where one jump does. */
  lemma FloorAdvancesInSteps(e: Envelope, k: nat, next: Envelope)
    requires Accountable(e) && Ordered(e.entries) && k < |e.entries|
    requires next == Suffix(e, k).(entries := Suffix(e, k).entries[1..])
    ensures next.entries == e.entries[k + 1..]
    ensures Accountable(next) && AdvanceFloor(next) == Suffix(e, k + 1)
  {
    assert Suffix(e, k).entries[1..] == e.entries[k + 1..];
    if k + 1 < |e.entries| {
      assert e.entries[k].Seq() < e.entries[k + 1].Seq();
    }
  }

  lemma PayloadStep(j: Json, es: seq<Entry>, k: nat)
    requires k < |es|
    ensures PayloadSize(j.entry, es[k..]) == |j.entry(es[k])| + PayloadSize(j.entry, es[k + 1..])
  {
    assert es[k..][1..] == es[k + 1..];
  }

  /** The age scan and the count limit: every cut before the result breaks one of them. */
  method FirstCandidate(o: Options, es: seq<Entry>, now: nat) returns (first: nat)
    requires o.Usable() && Ordered(es)
    ensures first <= |es| && InLimits(o, es, now, first)
    ensures forall m: nat :: m < first ==> !InLimits(o, es, now, m)
  {
    var cutoff := now - o.maxAge;
    first := 0;
    while first < |es| && es[first].createdAt < cutoff
      invariant first <= |es|
      invariant forall i :: 0 <= i < first ==> es[i].createdAt < cutoff
    {
      first := first + 1;
    }
    assert forall m: nat :: m < first ==> es[m].createdAt < cutoff && !InLimits(o, es, now, m);
    if |es| - first > o.maxEntries {
      first := |es| - o.maxEntries;
    }
  }

  method MeasureEntries(j: Json, es: seq<Entry>) returns (sizes: seq<nat>, total: nat)
    ensures |sizes| == |es| && forall n :: 0 <= n < |es| ==> sizes[n] == |j.entry(es[n])|
    ensures total == PayloadSize(j.entry, es)
  {
    sizes, total := [], 0;
    for i := 0 to |es|
      invariant |sizes| == i && forall n :: 0 <= n < i ==> sizes[n] == |j.entry(es[n])|
      invariant total + PayloadSize(j.entry, es[i..]) == PayloadSize(j.entry, es)
    {
      PayloadStep(j, es, i);
      sizes := sizes + [|j.entry(es[i])|];
      total := total + |j.entry(es[i])|;
    }
  }

  lemma {:induction false} SkipUnfit(j: Json, o: Options, e: Envelope, now: nat, k: nat)
    requires Accountable(e) && k <= |e.entries|
    requires forall m: nat :: m < k ==> !InLimits(o, e.entries, now, m)
    ensures PrunedFrom(j, o, e, now, k) == Pruned(j, o, e, now)
  {
    if k > 0 {
      SkipUnfit(j, o, e, now, k - 1);
      assert !InLimits(o, e.entries, now, k - 1);
    }
  }

  lemma SizeOfSuffix(j: Json, e: Envelope, k: nat)
    requires j.Lawful() && Accountable(e) && k <= |e.entries|
    ensures |j.envelope(Suffix(e, k))| ==
            |j.envelope(Suffix(e, k).(entries := []))| + PayloadSize(j.entry, e.entries[k..]) + Commas(|e.entries| - k)
  {
    assert j.Additive(Suffix(e, k));
  }

  /** Where the pass stands: the suffix from k, its measured sizes, and nothing decided yet. */
  ghost predicate Candidate(j: Json, o: Options, e: Envelope, now: nat, k: nat, state: Envelope, sizes: seq<nat>,
                            total: int)
  {
    && Accountable(e) && k <= |e.entries| && InLimits(o, e.entries, now, k)
    && state.entries == e.entries[k..] && Accountable(state) && AdvanceFloor(state) == Suffix(e, k)
    && total == PayloadSize(j.entry, e.entries[k..])
    && |sizes| == |e.entries| - k && (forall n :: 0 <= n < |sizes| ==> sizes[n] == |j.entry(e.entries[k + n])|)
    && PrunedFrom(j, o, e, now, k) == Pruned(j, o, e, now)
  }

  lemma FirstIsCandidate(j: Json, o: Options, e: Envelope, now: nat, k: nat, sizes: seq<nat>, total: int)
    requires Accountable(e) && Ordered(e.entries) && k <= |e.entries| && InLimits(o, e.entries, now, k)
    requires PrunedFrom(j, o, e, now, k) == Pruned(j, o, e, now) && total == PayloadSize(j.entry, e.entries[k..])
    requires |sizes| == |e.entries[k..]| && forall n :: 0 <= n < |sizes| ==> sizes[n] == |j.entry(e.entries[k..][n])|
    ensures Candidate(j, o, e, now, k, e.(entries := e.entries[k..]), sizes, total)
  {
    assert forall n :: 0 <= n < |sizes| ==> e.entries[k..][n] == e.entries[k + n];
  }

  /** The incremental size is the encoded size, so it decides the suffix. */
  lemma CandidateDecides(j: Json, o: Options, e: Envelope, now: nat, k: nat, state: Envelope, sizes: seq<nat>,
                         total: int)
    requires j.Lawful() && Accountable(e) && Candidate(j, o, e, now, k, state, sizes, total)
    ensures |AdvanceFloor(state).entries| == |e.entries| - k
    ensures var s := AdvanceFloor(state);
            var size := |j.envelope(s.(entries := []))| + total + Commas(|s.entries|);
            && size == |j.envelope(s)|
            && (size <= o.maxBytes ==> Pruned(j, o, e, now) == Some(s))
            && (size > o.maxBytes && |s.entries| == 0 ==> Pruned(j, o, e, now) == None)
  {
    SizeOfSuffix(j, e, k);
  }

  lemma NextCandidate(j: Json, o: Options, e: Envelope, now: nat, k: nat, state: Envelope, sizes: seq<nat>, total: int)
    requires j.Lawful() && Accountable(e) && Ordered(e.entries) && Candidate(j, o, e, now, k, state, sizes, total)
    requires k < |e.entries| && |j.envelope(AdvanceFloor(state))| > o.maxBytes
    ensures sizes != [] && total >= sizes[0]
    ensures var s := AdvanceFloor(state);
            s.entries != [] && Candidate(j, o, e, now, k + 1, s.(entries := s.entries[1..]), sizes[1..],
                                         total - sizes[0])
  {
    PayloadStep(j, e.entries, k);
    var s := AdvanceFloor(state);
    FloorAdvancesInSteps(e, k, s.(entries := s.entries[1..]));
  }

  /** pruneEnvelope: one linear pass with an incrementally maintained size. */
  method PruneEnvelope(j: Json, o: Options, e: Envelope, now: nat) returns (r: Option<Envelope>)
    requires j.Lawful() && o.Usable() && Accountable(e) && Ordered(e.entries)
    ensures r == Pruned(j, o, e, now)
  {
    var k := FirstCandidate(o, e.entries, now);
    SkipUnfit(j, o, e, now, k);
    var state := e.(entries := e.entries[k..]);
    var sizes, total := MeasureEntries(j, state.entries);
    FirstIsCandidate(j, o, e, now, k, sizes, total);
    while true
      invariant Candidate(j, o, e, now, k, state, sizes, total)
      decreases |e.entries| - k
    {
      CandidateDecides(j, o, e, now, k, state, sizes, total);
      ghost var before := state;
      state := AdvanceFloor(state);
      var metadata := |j.envelope(state.(entries := []))|;
      if metadata + total + Commas(|state.entries|) <= o.maxBytes {
        return Some(state);
      }
      if |state.entries| == 0 {
        return None;
      }
      NextCandidate(j, o, e, now, k, before, sizes, total);
      total := total - sizes[0];
      sizes := sizes[1..];
      state := state.(entries := state.entries[1..]);
      k := k + 1;
    }
  }

  lemma PrunedShape(j: Json, o: Options, e: Envelope, now: nat, p: Envelope)
    requires Accountable(e) && Pruned(j, o, e, now) == Some(p)
    ensures |p.entries| <= |e.entries| && p.entries == e.entries[|e.entries| - |p.entries|..]
    ensures p == AdvanceFloor(e.(entries := p.entries)) && |j.envelope(p)| <= o.maxBytes
  {
    PrunedIsLongest(j, o, e, now, Some(p));
    var k: nat :| LeastCut(j, o, e, now, k) && p == Suffix(e, k);
  }

  /** Pruning keeps an accepted envelope acceptable and small enough to write. */
  lemma PrunedAccepted(j: Json, o: Options, e: Envelope, now: nat, p: Envelope)
    requires Accepts(e) && Accountable(e)
    requires Pruned(j, o, e, now) == Some(p)
    ensures Accepts(p) && |j.envelope(p)| <= o.maxBytes
  {
    PrunedShape(j, o, e, now, p);
    ThinningAccepted(e, p.entries);
  }

  /** Under the queue's order, the scan for the first young entry is a filter: the fresh entries
      are exactly the ones pruning by age keeps. */
  lemma {:induction false} AgeScanIsFilter(es: seq<Entry>, k: nat, cutoff: int)
    requires Ordered(es) && k <= |es|
    requires AllFresh(es, k, cutoff) && (k > 0 ==> es[k - 1].createdAt < cutoff)
    ensures forall x :: x in es[k..] <==> x in es && x.createdAt >= cutoff
  {
    assert forall i :: 0 <= i < k ==> es[i].createdAt <= es[k - 1].createdAt < cutoff;
    forall x | x in es && x.createdAt >= cutoff
      ensures x in es[k..]
    {
      var i :| 0 <= i < |es| && es[i] == x;
      assert es[k..][i - k] == x;
    }
  }
}
