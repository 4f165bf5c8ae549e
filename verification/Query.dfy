/** The normalized question behind one page and the digest a cursor binds to (internal/center/activity/query.go). */
module Queries {
  import opened Text
  import opened ActivityTypes
  import opened Bytes
  import opened Ordering
  import opened CanonicalHash

  const DEFAULT_PAGE_SIZE := 50
  const MAX_PAGE_SIZE := 100

  datatype SubjectRef = SubjectRef(kind: string, sourceId: string)

  datatype Query = Query(
    subject: SubjectRef, view: string, sources: seq<string>, eventKinds: seq<string>,
    from: Time, to: Time, versions: string, limit: int, normalized: bool)

  /** Which subjects the registry knows: kind and source id. */
  type Registry = SubjectRef -> bool

  // ----- normalization -----

  function View(q: Query): string {
    if q.view == "" then "activity" else q.view
  }

  function Versions(q: Query): string {
    if q.versions == "" then "history" else q.versions
  }

  function Limit(q: Query): int {
    if q.limit == 0 then DEFAULT_PAGE_SIZE else q.limit
  }

  /** Truncated to the microsecond. */
  function Bound(t: Time): Time {
    t - t % 1000
  }

  /** When the question can be asked at all. */
  predicate Askable(known: Registry, q: Query) {
    && known(q.subject)
    && View(q) in ["activity", "records", "evidence"] && Versions(q) in ["history", "current"]
    && 1 <= Limit(q) <= MAX_PAGE_SIZE
    && (forall s :: s in q.sources ==> s in SOURCE_KINDS) && (forall k :: k in q.eventKinds ==> k in EVENT_KINDS)
    && (Bound(q.from) != 0 && Bound(q.to) != 0 ==> Bound(q.from) <= Bound(q.to))
  }

  /** Defaults filled in, filters sorted and without repeats, bounds to the microsecond. */
  ghost function Normal(q: Query): Query {
    Query(q.subject, View(q), Listing(Members(q.sources)), Listing(Members(q.eventKinds)), Bound(q.from), Bound(q.to),
          Versions(q), Limit(q), true)
  }

  /** The same question up to order and repeats of the filters, spelled-out defaults and sub-microsecond bounds. */
  predicate SameQuestion(a: Query, b: Query) {
    && a.subject == b.subject && View(a) == View(b) && Versions(a) == Versions(b) && Limit(a) == Limit(b)
    && Members(a.sources) == Members(b.sources) && Members(a.eventKinds) == Members(b.eventKinds)
    && Bound(a.from) == Bound(b.from) && Bound(a.to) == Bound(b.to)
  }

  lemma SameQuestionSameNormal(a: Query, b: Query)
    ensures SameQuestion(a, b) <==> Normal(a) == Normal(b)
  {
    var x, y := Normal(a), Normal(b);
    if x == y {
      assert Members(x.sources) == Members(y.sources) && Members(x.eventKinds) == Members(y.eventKinds);
    }
  }

  /** Normalizing again changes nothing. */
  lemma NormalIsStable(known: Registry, q: Query)
    requires Askable(known, q)
    ensures Askable(known, Normal(q)) && Normal(Normal(q)) == Normal(q) && SameQuestion(q, Normal(q))
  {
    var n := Normal(q);
    assert forall s :: s in n.sources ==> s in Members(n.sources);
    assert forall k :: k in n.eventKinds ==> k in Members(n.eventKinds);
    IncreasingUnique(Listing(Members(n.sources)), n.sources);
    IncreasingUnique(Listing(Members(n.eventKinds)), n.eventKinds);
  }

  /** One filter: refused on an unknown value, otherwise deduplicated and sorted. */
  method NormalizeFilter(values: seq<string>, allowed: set<string>) returns (filter: Option<seq<string>>)
    ensures filter.Some? <==> forall v :: v in values ==> v in allowed
    ensures filter.Some? ==> filter.value == Listing(Members(values))
  {
    var seen: set<string>, kept: seq<string> := {}, [];
    var i := 0;
    while i < |values|
      invariant 0 <= i <= |values| && seen == Members(values[..i]) == Members(kept) && Distinct(kept) && seen <= allowed
    {
      var v := values[i];
      if v !in allowed {
        return None;
      }
      assert values[..i + 1] == values[..i] + [v];
      assert Members(values[..i + 1]) == seen + {v};
      if v !in seen {
        assert v !in Members(kept) && Members(kept + [v]) == Members(kept) + {v};
        seen, kept := seen + {v}, kept + [v];
      }
      i := i + 1;
    }
    assert values[..i] == values;
    forall v | v in values
      ensures v in allowed
    {
      assert v in Members(values);
    }
    SortOrdered(kept);
    IncreasingUnique(Sort(kept), Listing(Members(values)));
    filter := Some(Sort(kept));
  }

  method NormalizeQuery(known: Registry, input: Query) returns (result: Option<Query>)
    ensures result.Some? <==> Askable(known, input)
    ensures result.Some? ==> result.value == Normal(input)
  {
    if !known(input.subject) || View(input) !in ["activity", "records", "evidence"] || Versions(input) !in ["history", "current"] {
      return None;
    }
    if Limit(input) < 1 || Limit(input) > MAX_PAGE_SIZE {
      return None;
    }
    var sources := NormalizeFilter(input.sources, SOURCE_KINDS);
    if sources == None {
      return None;
    }
    var kinds := NormalizeFilter(input.eventKinds, EVENT_KINDS);
    if kinds == None {
      return None;
    }
    var from, to := Bound(input.from), Bound(input.to);
    if from != 0 && to != 0 && to < from {
      return None;
    }
    result := Some(Query(input.subject, View(input), sources.value, kinds.value, from, to, Versions(input),
                         Limit(input), true));
  }

  // ----- event kinds -----

  /** None is no predicate at all; an empty list admits nothing. */
  function ViewKinds(view: string): Option<set<string>> {
    if view == "records" then Some(RECORDS_VIEW_KINDS)
    else if view == "evidence" then Some({"evidence_captured"})
    else None
  }

  predicate Admits(kinds: Option<seq<string>>, kind: string) {
    kinds.Some? ==> kind in kinds.value
  }

  /** The view's kinds as the source lists them. */
  function ViewList(view: string): (kinds: Option<seq<string>>)
    ensures forall k :: Admits(kinds, k) <==> (ViewKinds(view).Some? ==> k in ViewKinds(view).value)
  {
    if view == "records" then
      Some(["record_created", "record_revised", "record_restored", "record_archived", "record_unarchived",
            "record_owner_changed", "record_participant_changed", "record_follow_up_changed"])
    else if view == "evidence" then Some(["evidence_captured"])
    else None
  }

  /** The store may return an event exactly when the view and the explicit filter both allow its kind. */
  method ResolvedEventKinds(view: string, eventKinds: seq<string>) returns (kinds: Option<seq<string>>)
    ensures forall k :: Admits(kinds, k) <==>
              (ViewKinds(view).Some? ==> k in ViewKinds(view).value) && (eventKinds != [] ==> k in eventKinds)
  {
    var allowed := ViewList(view);
    if eventKinds == [] {
      return allowed;
    }
    if allowed == None {
      return Some(eventKinds);
    }
    var intersection: seq<string> := [];
    for i := 0 to |eventKinds|
      invariant forall k :: k in intersection <==> k in eventKinds[..i] && k in allowed.value
    {
      assert eventKinds[..i + 1] == eventKinds[..i] + [eventKinds[i]];
      if eventKinds[i] in allowed.value {
        intersection := intersection + [eventKinds[i]];
      }
    }
    assert eventKinds[..|eventKinds|] == eventKinds;
    assert forall k :: Admits(allowed, k) <==> k in allowed.value;
    kinds := Some(intersection);
  }

  // ----- the digest -----

  function Texts(values: seq<string>): seq<Field> {
    seq(|values|, i requires 0 <= i < |values| => Text(values[i]))
  }

  function QueryHead(q: Query): seq<Field> {
    [Text(q.subject.kind), Text(q.subject.sourceId), Text(q.view), Text(q.versions), Num(|q.sources|)]
  }

  function QueryTail(q: Query): seq<Field>
    requires q.limit >= 0
  {
    [Micro(UnixMicro(q.from)), Micro(UnixMicro(q.to)), Num(q.limit)]
  }

  /** The bytes the query digest hashes, after its domain tag. */
  function QueryPreimage(tag: seq<Byte>, q: Query): seq<Byte>
    requires q.limit >= 0
  {
    tag + (Encode(QueryHead(q)) + (Encode(Texts(q.sources)) + (Encode([Num(|q.eventKinds|)]) + (Encode(Texts(q.eventKinds)) + Encode(QueryTail(q))))))
  }

  predicate AllHeld(values: seq<string>) {
    |values| < TWO_64 && forall i :: 0 <= i < |values| ==> Held(values[i])
  }

  predicate QueryHeld(q: Query) {
    && Held(q.subject.kind) && Held(q.subject.sourceId) && Held(q.view) && Held(q.versions) && AllHeld(q.sources)
    && AllHeld(q.eventKinds)
    && MicroFits(q.from) && MicroFits(q.to) && 0 <= q.limit < TWO_64
  }

  lemma TextsSplit(a: seq<string>, b: seq<string>, x: seq<Byte>, y: seq<Byte>)
    requires AllHeld(a) && AllHeld(b) && |a| == |b| && Encode(Texts(a)) + x == Encode(Texts(b)) + y
    ensures a == b && x == y
  {
    FieldsSplit(Texts(a), Texts(b), x, y);
    forall i | 0 <= i < |a|
      ensures a[i] == b[i]
    {
      assert Texts(a)[i] == Texts(b)[i];
    }
  }

  lemma HeadForms(a: Query, b: Query)
    requires QueryHeld(a)
    ensures SameForms(QueryHead(a), QueryHead(b)) && FieldsOk(QueryHead(a))
  {
  }

  lemma HeadSplit(a: Query, b: Query, x: seq<Byte>, y: seq<Byte>)
    requires QueryHeld(a) && QueryHeld(b) && Encode(QueryHead(a)) + x == Encode(QueryHead(b)) + y
    ensures a.subject == b.subject && a.view == b.view && a.versions == b.versions && |a.sources| == |b.sources|
    ensures x == y
  {
    HeadForms(a, b);
    HeadForms(b, a);
    FieldsSplit(QueryHead(a), QueryHead(b), x, y);
    var f, g := QueryHead(a), QueryHead(b);
    assert f[0] == g[0] && f[1] == g[1] && f[2] == g[2] && f[3] == g[3] && f[4] == g[4];
  }

  lemma TailSplit(a: Query, b: Query)
    requires QueryHeld(a) && QueryHeld(b) && Encode(QueryTail(a)) == Encode(QueryTail(b))
    ensures UnixMicro(a.from) == UnixMicro(b.from) && UnixMicro(a.to) == UnixMicro(b.to) && a.limit == b.limit
  {
    var f, g := QueryTail(a), QueryTail(b);
    assert Encode(f) + [] == Encode(g) + [];
    FieldsSplit(f, g, [], []);
    assert f[0] == g[0] && f[1] == g[1] && f[2] == g[2];
  }

  /** A normalized query is determined by the bytes its digest hashes. */
  lemma QueryPreimageInjective(tag: seq<Byte>, a: Query, b: Query)
    requires QueryHeld(a) && QueryHeld(b) && QueryPreimage(tag, a) == QueryPreimage(tag, b)
    requires a.from % 1000 == a.to % 1000 == b.from % 1000 == b.to % 1000 == 0 && a.normalized == b.normalized
    ensures a == b
  {
    var ka, kb := Encode(Texts(a.eventKinds)) + Encode(QueryTail(a)), Encode(Texts(b.eventKinds)) + Encode(QueryTail(b));
    var na, nb := [Num(|a.eventKinds|)], [Num(|b.eventKinds|)];
    var sa, sb := Encode(Texts(a.sources)) + (Encode(na) + ka), Encode(Texts(b.sources)) + (Encode(nb) + kb);
    Cut(tag, Encode(QueryHead(a)) + sa, tag, Encode(QueryHead(b)) + sb);
    HeadSplit(a, b, sa, sb);
    TextsSplit(a.sources, b.sources, Encode(na) + ka, Encode(nb) + kb);
    FieldsSplit(na, nb, ka, kb);
    assert na[0] == nb[0];
    TextsSplit(a.eventKinds, b.eventKinds, Encode(QueryTail(a)), Encode(QueryTail(b)));
    TailSplit(a, b);
  }

  lemma DigestTells(tag: seq<Byte>, x: Query, y: Query)
    requires QueryHeld(x) && QueryHeld(y) && x.from % 1000 == x.to % 1000 == y.from % 1000 == y.to % 1000 == 0
    requires x.normalized == y.normalized
    ensures QueryPreimage(tag, x) == QueryPreimage(tag, y) <==> x == y
  {
    if QueryPreimage(tag, x) == QueryPreimage(tag, y) {
      QueryPreimageInjective(tag, x, y);
    }
  }

  lemma BoundWhole(t: Time)
    ensures Bound(t) % 1000 == 0
  {
  }

  /** The digest is over the same bytes exactly for the same question. */
  lemma DigestBindsQuestion(tag: seq<Byte>, a: Query, b: Query)
    requires QueryHeld(Normal(a)) && QueryHeld(Normal(b))
    ensures QueryPreimage(tag, Normal(a)) == QueryPreimage(tag, Normal(b)) <==> SameQuestion(a, b)
  {
    var x, y := Normal(a), Normal(b);
    SameQuestionSameNormal(a, b);
    BoundWhole(a.from);
    BoundWhole(a.to);
    BoundWhole(b.from);
    BoundWhole(b.to);
    DigestTells(tag, x, y);
  }
}
