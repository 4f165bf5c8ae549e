/** Fixed-watermark pages: the timeline order, one page request, and a walk along next_cursor
    (internal/center/activity/service.go). */
module Pagination {
  import opened Text
  import opened ActivityTypes
  import opened CanonicalHash
  import opened Queries
  import opened Cursors
  import opened PageStore

  // ----- timeline order -----

  /** Newest first, then by source and id. */
  predicate AfterKey(row: Row, key: SortKey) {
    || row.eventAt < key.eventAt
    || (row.eventAt == key.eventAt && row.recordedAt < key.recordedAt)
    || (row.eventAt == key.eventAt && row.recordedAt == key.recordedAt && Less(key.sourceKind, row.sourceKind))
    || (row.eventAt == key.eventAt && row.recordedAt == key.recordedAt && row.sourceKind == key.sourceKind && Less(key.activityId, row.activityId))
  }

  function KeyOf(row: Row): SortKey {
    SortKey(row.eventAt, row.recordedAt, row.sourceKind, row.activityId)
  }

  predicate Precedes(a: Row, b: Row) {
    AfterKey(b, KeyOf(a))
  }

  lemma PrecedesTransitive(a: Row, b: Row, c: Row)
    requires Precedes(a, b) && Precedes(b, c)
    ensures Precedes(a, c)
  {
    if Less(a.sourceKind, b.sourceKind) && Less(b.sourceKind, c.sourceKind) {
      LessTransitive(a.sourceKind, b.sourceKind, c.sourceKind);
    }
    if Less(a.activityId, b.activityId) && Less(b.activityId, c.activityId) {
      LessTransitive(a.activityId, b.activityId, c.activityId);
    }
  }

  lemma PrecedesTotal(a: Row, b: Row)
    ensures Precedes(a, b) || Precedes(b, a) || a.activityId == b.activityId
    ensures !(Precedes(a, b) && Precedes(b, a)) && !Precedes(a, a)
  {
    LessTotal(a.sourceKind, b.sourceKind);
    LessTotal(a.activityId, b.activityId);
    LessIrreflexive(a.sourceKind);
    LessIrreflexive(a.activityId);
    if Less(a.sourceKind, b.sourceKind) {
      LessAsymmetric(a.sourceKind, b.sourceKind);
    }
    if Less(a.activityId, b.activityId) {
      LessAsymmetric(a.activityId, b.activityId);
    }
  }

  predicate InOrder(rows: seq<Row>) {
    forall i, j :: 0 <= i < j < |rows| ==> Precedes(rows[i], rows[j])
  }

  function RowSet(rows: seq<Row>): set<Row> {
    set r | r in rows
  }

  ghost predicate Apiece(rows: set<Row>) {
    forall a, b :: a in rows && b in rows && a.activityId == b.activityId ==> a == b
  }

  lemma {:induction false} EarliestExists(rows: set<Row>) returns (first: Row)
    requires rows != {} && Apiece(rows)
    ensures first in rows && forall r :: r in rows && r != first ==> Precedes(first, r)
    decreases |rows|
  {
    var any :| any in rows;
    first := any;
    var rest := rows - {any};
    assert forall r :: r in rows && r != any ==> r in rest;
    if rest != {} {
      var earliest := EarliestExists(rest);
      PrecedesTotal(any, earliest);
      assert any != earliest && earliest in rows;
      if Precedes(any, earliest) {
        forall r | r in rest && r != earliest
          ensures Precedes(any, r)
        {
          PrecedesTransitive(any, earliest, r);
        }
      } else {
        first := earliest;
      }
    }
  }

  lemma {:induction false} ListingExists(rows: set<Row>)
    requires Apiece(rows)
    ensures exists l :: InOrder(l) && RowSet(l) == rows
    decreases |rows|
  {
    if rows == {} {
      assert InOrder([]) && RowSet([]) == rows;
    } else {
      var first := EarliestExists(rows);
      ListingExists(rows - {first});
      var l :| InOrder(l) && RowSet(l) == rows - {first};
      FirstThenRest(first, l);
      assert RowSet([first] + l) == rows;
    }
  }

  lemma FirstThenRest(first: Row, l: seq<Row>)
    requires InOrder(l) && forall r :: r in RowSet(l) ==> Precedes(first, r)
    ensures InOrder([first] + l) && RowSet([first] + l) == RowSet(l) + {first}
  {
    assert forall i :: 0 <= i < |l| ==> l[i] in RowSet(l);
  }

  /** The rows in timeline order. */
  ghost function Timeline(rows: set<Row>): (l: seq<Row>)
    requires Apiece(rows)
    ensures InOrder(l) && RowSet(l) == rows
  {
    ListingExists(rows);
    var l :| InOrder(l) && RowSet(l) == rows;
    l
  }

  /** A list in timeline order is determined by its rows. */
  lemma {:induction false} TimelineUnique(a: seq<Row>, b: seq<Row>)
    requires InOrder(a) && InOrder(b) && RowSet(a) == RowSet(b)
    ensures a == b
    decreases |a|
  {
    HasRows(a);
    HasRows(b);
    if a != [] {
      SameFirst(a, b);
      WithoutFirst(a);
      WithoutFirst(b);
      TimelineUnique(a[1..], b[1..]);
    }
  }

  lemma HasRows(a: seq<Row>)
    ensures a == [] <==> RowSet(a) == {}
  {
    if a != [] {
      assert a[0] in RowSet(a);
    }
  }

  lemma SameFirst(a: seq<Row>, b: seq<Row>)
    requires InOrder(a) && InOrder(b) && RowSet(a) == RowSet(b) && a != [] && b != []
    ensures a[0] == b[0]
  {
    assert a[0] in RowSet(a) && b[0] in RowSet(b);
    var i :| 0 <= i < |b| && b[i] == a[0];
    var j :| 0 <= j < |a| && a[j] == b[0];
    PrecedesTotal(a[0], b[0]);
  }

  lemma WithoutFirst(a: seq<Row>)
    requires InOrder(a) && a != []
    ensures RowSet(a[1..]) == RowSet(a) - {a[0]}
  {
    PrecedesTotal(a[0], a[0]);
    assert a == [a[0]] + a[1..];
    assert forall i :: 0 < i < |a| ==> Precedes(a[0], a[i]);
  }

  /** The rows after a position. */
  function After(rows: set<Row>, key: Option<SortKey>): set<Row> {
    set r | r in rows && (key.Some? ==> AfterKey(r, key.value))
  }

  /** What follows a row of the timeline is the timeline of the rows after its key. */
  lemma AfterIsSuffix(rows: set<Row>, k: nat)
    requires Apiece(rows) && k < |Timeline(rows)|
    ensures var after := After(rows, Some(KeyOf(Timeline(rows)[k])));
            Apiece(after) && Timeline(after) == Timeline(rows)[k + 1..]
  {
    var all := Timeline(rows);
    var after := After(rows, Some(KeyOf(all[k])));
    var rest := all[k + 1..];
    forall r
      ensures r in RowSet(rest) <==> r in after
    {
      if r in RowSet(rest) {
        var i :| 0 <= i < |rest| && rest[i] == r;
        assert r == all[k + 1 + i] && r in RowSet(all);
      }
      if r in after {
        assert r in RowSet(all);
        var i :| 0 <= i < |all| && all[i] == r;
        PrecedesTotal(all[k], all[i]);
        assert i > k;
        assert r == rest[i - k - 1];
      }
    }
    TimelineUnique(Timeline(after), rest);
  }

  // ----- one page request -----

  /** The deployment: its token codec and how it seals and binds with it, subject registry, authorization and token
      lifetime. */
  datatype Service<!A> = Service(
    codec: Codec<A>, seal: (CursorValues<A>, nat) -> Option<Issued>, bind: (Token, Query, A, uint64, Time) -> Answer<Cursor>,
    known: Registry, access: A -> Option<Access>, ttl: nat)

  function Deployed<A>(codec: Codec<A>, known: Registry, access: A -> Option<Access>, ttl: nat): Service<A> {
    Service(codec, (values: CursorValues<A>, nonce: nat) => Encode(codec, values, nonce),
            (token: Token, q: Query, actor: A, generation: uint64, now: Time) => Bind(codec, token, q, actor, generation, now), known, access, ttl)
  }

  /** The service seals and binds with its codec, whose digests are digests. */
  ghost predicate Genuine<A(!new)>(svc: Service<A>) {
    && HexDigests(svc.codec)
    && (forall values: CursorValues<A>, nonce: nat :: SealsBy(svc, values, nonce))
    && forall token: Token, q: Query, actor: A, generation: uint64, now: Time ::
      BindsBy(svc, token, q, actor, generation, now)
  }

  predicate SealsBy<A>(svc: Service<A>, values: CursorValues<A>, nonce: nat) {
    svc.seal(values, nonce) == Encode(svc.codec, values, nonce)
  }

  predicate BindsBy<A>(svc: Service<A>, token: Token, q: Query, actor: A, generation: uint64, now: Time) {
    svc.bind(token, q, actor, generation, now) == Bind(svc.codec, token, q, actor, generation, now)
  }

  lemma DeployedIsGenuine<A(!new)>(codec: Codec<A>, known: Registry, access: A -> Option<Access>, ttl: nat)
    requires HexDigests(codec)
    ensures Genuine(Deployed(codec, known, access, ttl))
  {
  }

  /** What one request meets. The head and the page are two reads, and publication may happen between them;
      the clock is read when the cursor is bound and when each token is sealed. */
  datatype Visit<A> = Visit(
    query: Query, actor: A, generation: uint64, head: Store, data: Store, live: bool,
    now: Time, nextAt: Time, snapshotAt: Time, nextNonce: nat, snapshotNonce: nat)

  datatype Page = Page(items: seq<Row>, next: Token, snapshot: Token)

  datatype Failure = InvalidRequest | Unavailable | NotFound | BadCursor(error: CursorError) | NotSealed

  datatype Listed = Listed(page: Page) | Failed(why: Failure)

  /** An authorized row of the subject, whatever the view. */
  ghost predicate SubjectKnown(s: Store, subject: SubjectRef, access: Access, asOf: nat) {
    exists i :: 0 <= i < |s.rows| && i < asOf && subject in s.rows[i].subjects && (access.unrestricted || s.rows[i].auth in access.allowed)
  }

  ghost predicate DistinctRows(s: Store) {
    PageStore.Distinct(s)
  }

  lemma VisibleApiece(s: Store, q: Query, access: Access, asOf: nat)
    requires DistinctRows(s)
    ensures Apiece(Visible(s, q, access, asOf))
  {
  }

  /** At most `limit` rows after a position, in timeline order: every predicate before ORDER BY and LIMIT. */
  ghost function PageRows(rows: set<Row>, after: Option<SortKey>, limit: nat): seq<Row>
    requires Apiece(rows)
  {
    var l := Timeline(After(rows, after));
    if |l| <= limit then l else l[..limit]
  }

  /** The token of the watermark alone. */
  function SnapshotToken<A>(svc: Service<A>, v: Visit<A>, q: Query, actor: A, asOf: uint64): Option<Issued> {
    svc.seal(CursorValues(q, actor, v.generation, asOf, v.snapshotAt + svc.ttl, NO_KEY), v.snapshotNonce)
  }

  /** The rest of List once the watermark and the position are known. */
  ghost function ListAt<A>(svc: Service<A>, v: Visit<A>, q: Query, actor: A, access: Access, asOf: uint64,
                           after: Option<SortKey>): Listed
    requires DistinctRows(v.data) && q.limit >= 1
  {
    VisibleApiece(v.data, q, access, asOf);
    var rows := PageRows(Visible(v.data, q, access, asOf), after, q.limit + 1);
    if !v.live && !SubjectKnown(v.data, q.subject, access, asOf) then Failed(NotFound)
    else
      var items := if |rows| > q.limit then rows[..q.limit] else rows;
      var snapshot := SnapshotToken(svc, v, q, actor, asOf);
      if |rows| <= q.limit then
        if snapshot == None then Failed(NotSealed) else Listed(Page(items, NoToken, snapshot.value))
      else
        var next := svc.seal(CursorValues(q, actor, v.generation, asOf, v.nextAt + svc.ttl, KeyOf(items[q.limit - 1])),
                             v.nextNonce);
        if next == None || snapshot == None then Failed(NotSealed) else Listed(Page(items, next.value, snapshot.value))
  }

  /** Service.List. */
  ghost function List<A>(svc: Service<A>, v: Visit<A>, cursor: Token): Listed
    requires DistinctRows(v.data) && v.head.Published() < 0x1_0000_0000_0000_0000
  {
    match svc.codec.normalize(v.actor)
    case None => Failed(InvalidRequest)
    case Some(actor) =>
      if !Askable(svc.known, v.query) then Failed(InvalidRequest)
      else if v.generation == 0 then Failed(Unavailable)
      else
        var q := Normal(v.query);
        match svc.access(actor)
        case None => Failed(InvalidRequest)
        case Some(access) =>
          if cursor == NoToken then ListAt(svc, v, q, actor, access, v.head.Published(), None)
          else
            match svc.bind(cursor, q, actor, v.generation, v.now)
            case Err(e) => Failed(BadCursor(e))
            case Ok(c) => ListAt(svc, v, q, actor, access, c.asOf,
                                 if c.sortKey == NO_KEY then None else Some(c.sortKey))
  }

  // ----- following next_cursor -----

  /** Published rows carry validated ids and kinds and microsecond times. */
  predicate SoundRow(r: Row) {
    && r.eventAt != 0 && r.recordedAt != 0 && r.eventAt % 1000 == 0 && r.recordedAt % 1000 == 0
    && MicroFits(r.eventAt) && MicroFits(r.recordedAt) && r.sourceKind in SOURCE_KINDS && ValidActivityId(r.activityId)
  }

  predicate SoundStore(s: Store) {
    forall i :: 0 <= i < |s.rows| ==> SoundRow(s.rows[i])
  }

  function Slice(all: seq<Row>, at: nat, n: nat): seq<Row> {
    if at >= |all| then [] else if at + n >= |all| then all[at..] else all[at..at + n]
  }

  /** The position before the row at `at`. */
  function Before(all: seq<Row>, at: nat): Option<SortKey>
    requires at <= |all|
  {
    if at == 0 then None else Some(KeyOf(all[at - 1]))
  }

  lemma RowsFrom(rows: set<Row>, at: nat, limit: nat)
    requires Apiece(rows) && at <= |Timeline(rows)|
    ensures PageRows(rows, Before(Timeline(rows), at), limit) == Slice(Timeline(rows), at, limit)
  {
    if at == 0 {
      assert After(rows, None) == rows;
    } else {
      AfterIsSuffix(rows, at - 1);
    }
  }

  /** What the token after a row is sealed over. */
  function NextValues<A>(svc: Service<A>, v: Visit<A>, q: Query, actor: A, asOf: uint64, row: Row): CursorValues<A> {
    CursorValues(q, actor, v.generation, asOf, v.nextAt + svc.ttl, KeyOf(row))
  }

  /** The token that continues after the first at + limit rows. */
  ghost function NextToken<A>(svc: Service<A>, v: Visit<A>, q: Query, actor: A, asOf: uint64, all: seq<Row>,
                              at: nat): Option<Issued>
    requires q.limit >= 1 && at + q.limit <= |all|
  {
    svc.seal(NextValues(svc, v, q, actor, asOf, all[at + q.limit - 1]), v.nextNonce)
  }

  /** One page over a fixed set of rows is a slice of its timeline, with a token exactly when more follows. */
  ghost predicate IsSlice<A>(svc: Service<A>, v: Visit<A>, q: Query, actor: A, asOf: uint64, all: seq<Row>, at: nat,
                             page: Page)
    requires q.limit >= 1
  {
    && page.items == Slice(all, at, q.limit)
    && (page.next == NoToken <==> |all| <= at + q.limit)
    && (page.next != NoToken ==> NextToken(svc, v, q, actor, asOf, all, at) == Some(page.next))
  }

  /** A listed page holds the first rows after the position, and a token exactly when there is one more. */
  lemma ListAtPage<A>(svc: Service<A>, v: Visit<A>, q: Query, actor: A, access: Access, asOf: uint64,
                      after: Option<SortKey>, rows: seq<Row>)
    requires DistinctRows(v.data) && q.limit >= 1 && Apiece(Visible(v.data, q, access, asOf))
    requires rows == PageRows(Visible(v.data, q, access, asOf), after, q.limit + 1)
    ensures var r := ListAt(svc, v, q, actor, access, asOf, after);
            r.Listed? ==>
              && r.page.items == (if |rows| > q.limit then rows[..q.limit] else rows)
              && (r.page.next == NoToken <==> |rows| <= q.limit)
              && (|rows| > q.limit ==>
                    svc.seal(NextValues(svc, v, q, actor, asOf, rows[q.limit - 1]), v.nextNonce) == Some(r.page.next))
  {
  }

  /** A listed page is a slice of the timeline, with a token exactly when more follows. */
  lemma ListAtIsSlice<A>(svc: Service<A>, v: Visit<A>, q: Query, actor: A, access: Access, asOf: uint64, at: nat,
                         all: seq<Row>)
    requires DistinctRows(v.data) && q.limit >= 1 && Apiece(Visible(v.data, q, access, asOf))
    requires all == Timeline(Visible(v.data, q, access, asOf)) && at <= |all|
    ensures var r := ListAt(svc, v, q, actor, access, asOf, Before(all, at));
            r.Listed? ==> IsSlice(svc, v, q, actor, asOf, all, at, r.page)
  {
    RowsFrom(Visible(v.data, q, access, asOf), at, q.limit + 1);
    PageIsSlice(svc, v, q, actor, access, asOf, at, all, Slice(all, at, q.limit + 1));
  }

  lemma PageIsSlice<A>(svc: Service<A>, v: Visit<A>, q: Query, actor: A, access: Access, asOf: uint64, at: nat,
                       all: seq<Row>, rows: seq<Row>)
    requires DistinctRows(v.data) && q.limit >= 1 && Apiece(Visible(v.data, q, access, asOf)) && at <= |all|
    requires rows == PageRows(Visible(v.data, q, access, asOf), Before(all, at), q.limit + 1)
    requires rows == Slice(all, at, q.limit + 1)
    ensures var r := ListAt(svc, v, q, actor, access, asOf, Before(all, at));
            r.Listed? ==> IsSlice(svc, v, q, actor, asOf, all, at, r.page)
  {
    ListAtPage(svc, v, q, actor, access, asOf, Before(all, at), rows);
    SliceEnd(all, at, q.limit);
  }

  lemma SliceEnd(all: seq<Row>, at: nat, limit: nat)
    requires limit >= 1
    ensures |Slice(all, at, limit + 1)| > limit <==> at + limit < |all|
    ensures at + limit < |all| ==> Slice(all, at, limit + 1)[limit - 1] == all[at + limit - 1]
    ensures Slice(all, at, limit) == if at + limit < |all| then Slice(all, at, limit + 1)[..limit] else Slice(all, at, limit + 1)
  {
  }

  /** What a walk is about: the first page's question, actor, access, watermark and timeline. */
  datatype Walk<!A> = Walk(
    svc: Service<A>, asked: Query, q: Query, actor: A, access: Access, generation: uint64, head: Store, all: seq<Row>) {
    function AsOf(): nat { head.Published() }
  }

  /** `all` is every authorized row at or below the first page's watermark, in timeline order. */
  ghost predicate WalkOk<A>(w: Walk<A>) {
    && w.q == Normal(w.asked) && w.q.limit >= 1 && w.svc.access(w.actor) == Some(w.access)
    && DistinctRows(w.head) && w.AsOf() < 0x1_0000_0000_0000_0000
    && InOrder(w.all) && RowSet(w.all) == Visible(w.head, w.q, w.access, w.AsOf())
    && forall k :: 0 <= k < |w.all| ==> SoundRow(w.all[k])
  }

  /** There is such a walk for every question a service can answer over a sound store. */
  lemma WalkExists<A>(svc: Service<A>, asked: Query, actor: A, access: Access, generation: uint64,
                      head: Store) returns (w: Walk<A>)
    requires Askable(svc.known, asked) && svc.access(actor) == Some(access) && DistinctRows(head) && SoundStore(head)
    requires head.Published() < 0x1_0000_0000_0000_0000
    ensures WalkOk(w) && w.svc == svc && w.asked == asked && w.actor == actor && w.generation == generation
    ensures w.head == head
  {
    var q := Normal(asked);
    VisibleApiece(head, q, access, head.Published());
    w := Walk(svc, asked, q, actor, access, generation, head, Timeline(Visible(head, q, access, head.Published())));
    forall k | 0 <= k < |w.all|
      ensures SoundRow(w.all[k])
    {
      assert w.all[k] in RowSet(w.all);
    }
  }

  /** A request of the walk: the same question, actor and generation, over a store published on since. */
  ghost predicate OnWalk<A>(w: Walk<A>, v: Visit<A>) {
    && Normal(v.query) == w.q && w.svc.codec.normalize(v.actor) == Some(w.actor)
    && v.generation == w.generation && Extended(w.head, v.data) && DistinctRows(v.data)
    && v.head.Published() < 0x1_0000_0000_0000_0000
  }

  lemma CodecBinds<A(!new)>(codec: Codec<A>, values: CursorValues<A>, nonce: nat, asked: Query, row: Row, token: Token,
                            now: Time)
    requires HexDigests(codec) && values.query == Normal(asked) && QueryHeld(values.query)
    requires values.sortKey == KeyOf(row) && SoundRow(row)
    requires MicroFits(values.expiresAt) && Encode(codec, values, nonce) == Some(token)
    ensures var r := Bind(codec, token, values.query, values.actor, values.generation, now);
            r.Ok? ==> r.value.asOf == values.asOf && r.value.sortKey == KeyOf(row)
  {
    EncodeNeverOverflows(codec, values, nonce);
    BindExactly(codec, values, nonce, asked, asked, values.actor, values.generation, now);
    assert Truncated(KeyOf(row)) == KeyOf(row);
  }

  /** A sealed row position comes back as it was. */
  lemma PositionBinds<A(!new)>(svc: Service<A>, values: CursorValues<A>, nonce: nat, asked: Query, row: Row,
                               token: Token, now: Time)
    requires Genuine(svc) && SealedAfter(svc, values, nonce, asked, row, token)
    ensures BindsTo(svc, token, values.query, values.actor, values.generation, now, values.asOf, KeyOf(row))
  {
    assert SealsBy(svc, values, nonce) && BindsBy(svc, token, values.query, values.actor, values.generation, now);
    CodecBinds(svc.codec, values, nonce, asked, row, token, now);
  }

  /** If the token binds at all, it is to this watermark and position. */
  ghost predicate BindsTo<A>(svc: Service<A>, token: Token, q: Query, actor: A, generation: uint64, now: Time,
                             asOf: uint64, key: SortKey)
  {
    var r := svc.bind(token, q, actor, generation, now);
    r.Ok? ==> r.value.asOf == asOf && r.value.sortKey == key
  }

  /** The token was sealed after this row. */
  ghost predicate SealedAfter<A>(svc: Service<A>, values: CursorValues<A>, nonce: nat, asked: Query, row: Row,
                                 token: Token)
  {
    && values.query == Normal(asked) && QueryHeld(values.query) && values.sortKey == KeyOf(row) && SoundRow(row)
    && MicroFits(values.expiresAt) && svc.seal(values, nonce) == Some(token)
  }

  /** Sealed positions come back. */
  ghost predicate PositionsBind<A(!new)>(svc: Service<A>) {
    forall values: CursorValues<A>, nonce: nat, asked: Query, row: Row, token: Token, now: Time ::
      SealedAfter(svc, values, nonce, asked, row, token) ==>
        BindsTo(svc, token, values.query, values.actor, values.generation, now, values.asOf, KeyOf(row))
  }

  lemma GenuineBinds<A(!new)>(svc: Service<A>)
    requires Genuine(svc)
    ensures PositionsBind(svc)
  {
    forall values: CursorValues<A>, nonce: nat, asked: Query, row: Row, token: Token, now: Time |
      SealedAfter(svc, values, nonce, asked, row, token)
      ensures BindsTo(svc, token, values.query, values.actor, values.generation, now, values.asOf, KeyOf(row))
    {
      PositionBinds(svc, values, nonce, asked, row, token, now);
    }
  }

  /** Binding the token that continues a walk gives back its watermark and its position. */
  lemma NextTokenBinds<A(!new)>(svc: Service<A>, sealing: Visit<A>, asked: Query, q: Query, actor: A, asOf: uint64,
                                all: seq<Row>, at: nat, token: Token, now: Time)
    requires PositionsBind(svc) && q == Normal(asked) && QueryHeld(q) && MicroFits(sealing.nextAt + svc.ttl)
    requires q.limit >= 1 && at + q.limit <= |all| && SoundRow(all[at + q.limit - 1])
    requires NextToken(svc, sealing, q, actor, asOf, all, at) == Some(token)
    ensures BindsTo(svc, token, q, actor, sealing.generation, now, asOf, KeyOf(all[at + q.limit - 1]))
  {
    var row := all[at + q.limit - 1];
    assert SealedAfter(svc, NextValues(svc, sealing, q, actor, asOf, row), sealing.nextNonce, asked, row, token);
  }

  /** Once the watermark and the position are the walk's, the answer is the slice that comes next. */
  lemma ListAtOnWalk<A>(w: Walk<A>, v: Visit<A>, at: nat)
    requires WalkOk(w) && Extended(w.head, v.data) && DistinctRows(v.data) && at <= |w.all|
    ensures var r := ListAt(w.svc, v, w.q, w.actor, w.access, w.AsOf(), Before(w.all, at));
            r.Listed? ==> IsSlice(w.svc, v, w.q, w.actor, w.AsOf(), w.all, at, r.page)
  {
    WatermarkIsStable(w.head, v.data, w.q, w.access, w.AsOf());
    VisibleApiece(v.data, w.q, w.access, w.AsOf());
    TimelineUnique(Timeline(Visible(v.data, w.q, w.access, w.AsOf())), w.all);
    ListAtIsSlice(w.svc, v, w.q, w.actor, w.access, w.AsOf(), at, w.all);
  }

  lemma SnapshotOf<A>(svc: Service<A>, v: Visit<A>, q: Query, actor: A, access: Access, asOf: uint64,
                      after: Option<SortKey>, page: Page)
    requires DistinctRows(v.data) && q.limit >= 1 && ListAt(svc, v, q, actor, access, asOf, after) == Listed(page)
    ensures SnapshotToken(svc, v, q, actor, asOf) == Some(page.snapshot)
  {
  }

  lemma FirstSlice<A>(w: Walk<A>, v: Visit<A>, page: Page)
    requires WalkOk(w) && Step(w, v, NoToken, page) && v.head == w.head
    ensures IsSlice(w.svc, v, w.q, w.actor, w.AsOf(), w.all, 0, page)
  {
    ListAtOnWalk(w, v, 0);
  }

  lemma ListAfter<A>(w: Walk<A>, v: Visit<A>, at: nat, cursor: Token)
    requires WalkOk(w) && OnWalk(w, v) && 0 < at <= |w.all| && cursor != NoToken
    requires BindsTo(w.svc, cursor, w.q, w.actor, w.generation, v.now, w.AsOf(), KeyOf(w.all[at - 1]))
    ensures var r := List(w.svc, v, cursor);
            r.Listed? ==> r == ListAt(w.svc, v, w.q, w.actor, w.access, w.AsOf(), Before(w.all, at))
  {
    assert SoundRow(w.all[at - 1]);
  }

  lemma SliceAfter<A>(w: Walk<A>, v: Visit<A>, at: nat, cursor: Token, page: Page)
    requires WalkOk(w) && Step(w, v, cursor, page) && 0 < at <= |w.all| && cursor != NoToken
    requires BindsTo(w.svc, cursor, w.q, w.actor, w.generation, v.now, w.AsOf(), KeyOf(w.all[at - 1]))
    ensures IsSlice(w.svc, v, w.q, w.actor, w.AsOf(), w.all, at, page)
  {
    ListAfter(w, v, at, cursor);
    ListAtOnWalk(w, v, at);
  }

  /** A page of the walk, at its place in the timeline. */
  ghost predicate Placed<A>(w: Walk<A>, v: Visit<A>, at: nat, page: Page)
    requires WalkOk(w)
  {
    v.generation == w.generation && MicroFits(v.nextAt + w.svc.ttl) && IsSlice(w.svc, v, w.q, w.actor, w.AsOf(), w.all, at, page)
  }

  /** A page's token, if it binds, binds to where the page ended. */
  ghost predicate BindsToEnd<A>(w: Walk<A>, at: nat, page: Page, now: Time)
    requires WalkOk(w)
  {
    && at + w.q.limit <= |w.all|
    && BindsTo(w.svc, page.next, w.q, w.actor, w.generation, now, w.AsOf(), KeyOf(w.all[at + w.q.limit - 1]))
  }

  ghost predicate Continues<A(!new)>(w: Walk<A>)
    requires WalkOk(w)
  {
    forall v: Visit<A>, at: nat, page: Page, now: Time :: Placed(w, v, at, page) && page.next != NoToken ==>
      BindsToEnd(w, at, page, now)
  }

  lemma PlacedBinds<A(!new)>(w: Walk<A>, v: Visit<A>, at: nat, page: Page, now: Time)
    requires WalkOk(w) && PositionsBind(w.svc) && QueryHeld(w.q) && Placed(w, v, at, page) && page.next != NoToken
    ensures BindsToEnd(w, at, page, now)
  {
    NextTokenBinds(w.svc, v, w.asked, w.q, w.actor, w.AsOf(), w.all, at, page.next, now);
  }

  lemma TokensContinue<A(!new)>(w: Walk<A>)
    requires WalkOk(w) && PositionsBind(w.svc) && QueryHeld(w.q)
    ensures Continues(w)
  {
    forall v: Visit<A>, at: nat, page: Page, now: Time | Placed(w, v, at, page) && page.next != NoToken
      ensures BindsToEnd(w, at, page, now)
    {
      PlacedBinds(w, v, at, page, now);
    }
  }

  lemma NextSlice<A(!new)>(w: Walk<A>, at: nat, before: Page, v: Visit<A>, page: Page)
    requires WalkOk(w) && BindsToEnd(w, at, before, v.now) && before.next != NoToken && Step(w, v, before.next, page)
    ensures IsSlice(w.svc, v, w.q, w.actor, w.AsOf(), w.all, at + w.q.limit, page)
  {
    SliceAfter(w, v, at + w.q.limit, before.next, page);
  }

  // ----- the whole walk -----

  function Offset(k: nat, n: nat): nat {
    if k == 0 then 0 else Offset(k - 1, n) + n
  }

  /** The cursor after these pages: none at first, then the last page's. */
  function CursorAfter(pages: seq<Page>): Token {
    if pages == [] then NoToken else pages[|pages| - 1].next
  }

  /** One request of a walk and the page it got. */
  ghost predicate Step<A>(w: Walk<A>, v: Visit<A>, cursor: Token, page: Page) {
    OnWalk(w, v) && MicroFits(v.nextAt + w.svc.ttl) && List(w.svc, v, cursor) == Listed(page)
  }

  /** The requests of a walk, with the cursors they carry and the pages they get. */
  ghost function Steps<A(!new)>(w: Walk<A>): iset<(Visit<A>, Token, Page)> {
    iset v: Visit<A>, cursor: Token, page: Page | Step(w, v, cursor, page) :: (v, cursor, page)
  }

  /** Each request carries the cursor the page before gave, and gets a page; the first reads the walk's head. */
  ghost predicate Followed<A>(steps: iset<(Visit<A>, Token, Page)>, head: Store, visits: seq<Visit<A>>,
                              pages: seq<Page>)
    decreases |pages|
  {
    |pages| <= |visits| &&
    (pages != [] ==>
       var n := |pages| - 1;
       && (visits[n], CursorAfter(pages[..n]), pages[n]) in steps
       && (if n == 0 then visits[0].head == head else CursorAfter(pages[..n]) != NoToken)
       && Followed(steps, head, visits, pages[..n]))
  }

  /** The pages a walk can serve, with the place of each in the timeline. */
  ghost function Slices<A(!new)>(w: Walk<A>): iset<(Visit<A>, nat, Page)>
    requires WalkOk(w)
  {
    iset v: Visit<A>, at: nat, page: Page |
      Placed(w, v, at, page) :: (v, at, page)
  }

  /** Steps lead from slice to slice. */
  ghost predicate Chains<A(!new)>(steps: iset<(Visit<A>, Token, Page)>, head: Store,
                                  slices: iset<(Visit<A>, nat, Page)>, limit: nat)
  {
    && (forall v: Visit<A>, page: Page :: (v, NoToken, page) in steps && v.head == head ==> (v, 0, page) in slices)
    && forall s: Visit<A>, at: nat, before: Page, v: Visit<A>, page: Page ::
         (s, at, before) in slices && before.next != NoToken && (v, before.next, page) in steps ==>
           (v, at + limit, page) in slices
  }

  lemma StepsChain<A(!new)>(w: Walk<A>)
    requires WalkOk(w) && Continues(w)
    ensures Chains(Steps(w), w.head, Slices(w), w.q.limit)
  {
    forall v: Visit<A>, page: Page | (v, NoToken, page) in Steps(w) && v.head == w.head
      ensures (v, 0, page) in Slices(w)
    {
      FirstSlice(w, v, page);
    }
    forall s: Visit<A>, at: nat, before: Page, v: Visit<A>, page: Page |
      (s, at, before) in Slices(w) && before.next != NoToken && (v, before.next, page) in Steps(w)
      ensures (v, at + w.q.limit, page) in Slices(w)
    {
      assert Placed(w, s, at, before) && BindsToEnd(w, at, before, v.now);
      NextSlice(w, at, before, v, page);
    }
  }

  /** The k-th page of a walk is its k-th slice. */
  lemma {:induction false} LastPageIsSlice<A(!new)>(
    steps: iset<(Visit<A>, Token, Page)>, head: Store, slices: iset<(Visit<A>, nat, Page)>, limit: nat, visits: seq<Visit<A>>, pages: seq<Page>)
    requires Chains(steps, head, slices, limit) && Followed(steps, head, visits, pages) && pages != []
    ensures (visits[|pages| - 1], Offset(|pages| - 1, limit), pages[|pages| - 1]) in slices
    decreases |pages|
  {
    var n := |pages| - 1;
    var init := pages[..n];
    if n > 0 {
      LastPageIsSlice(steps, head, slices, limit, visits, init);
      assert CursorAfter(init) == init[n - 1].next;
    }
  }

  /** The rows of the pages, in the order they were served. */
  function Served(pages: seq<Page>): seq<Row> {
    if pages == [] then [] else Served(pages[..|pages| - 1]) + pages[|pages| - 1].items
  }

  /** What has been served of `all` once the cursor is this. */
  predicate ServedSoFar(all: seq<Row>, limit: nat, pages: seq<Page>) {
    if pages != [] && CursorAfter(pages) == NoToken then Served(pages) == all
    else Offset(|pages|, limit) <= |all| && Served(pages) == all[..Offset(|pages|, limit)]
  }

  lemma ServesOneMore(all: seq<Row>, limit: nat, pages: seq<Page>)
    requires pages != [] && ServedSoFar(all, limit, pages[..|pages| - 1])
    requires (|pages| > 1 ==> CursorAfter(pages[..|pages| - 1]) != NoToken)
    requires var n := |pages| - 1;
             pages[n].items == Slice(all, Offset(n, limit), limit) && (pages[n].next == NoToken <==>
                                                                         |all| <= Offset(n, limit) + limit)
    ensures ServedSoFar(all, limit, pages)
  {
    var n := |pages| - 1;
    var at := Offset(n, limit);
    assert all[..at] + Slice(all, at, limit) == if at + limit >= |all| then all else all[..at + limit];
  }

  lemma {:induction false} ServedInOrder<A(!new)>(
    all: seq<Row>, steps: iset<(Visit<A>, Token, Page)>, head: Store, slices: iset<(Visit<A>, nat, Page)>, limit: nat, visits: seq<Visit<A>>, pages: seq<Page>)
    requires Chains(steps, head, slices, limit) && Followed(steps, head, visits, pages)
    requires forall v: Visit<A>, at: nat, page: Page :: (v, at, page) in slices ==>
               page.items == Slice(all, at, limit) && (page.next == NoToken <==> |all| <= at + limit)
    ensures ServedSoFar(all, limit, pages)
    decreases |pages|
  {
    if pages != [] {
      ServedInOrder(all, steps, head, slices, limit, visits, pages[..|pages| - 1]);
      LastPageIsSlice(steps, head, slices, limit, visits, pages);
      ServesOneMore(all, limit, pages);
    }
  }

  /** Following next_cursor serves the first watermark's timeline page by page, and once no cursor is given
      each authorized row at or below that watermark has been served exactly once, in order, however much is
      published between the requests. */
  lemma WalkServesAll<A(!new)>(w: Walk<A>, visits: seq<Visit<A>>, pages: seq<Page>)
    requires WalkOk(w) && Genuine(w.svc) && QueryHeld(w.q) && Followed(Steps(w), w.head, visits, pages)
    ensures ServedSoFar(w.all, w.q.limit, pages)
  {
    GenuineBinds(w.svc);
    TokensContinue(w);
    StepsChain(w);
    ServedInOrder(w.all, Steps(w), w.head, Slices(w), w.q.limit, visits, pages);
  }

  /** The timeline is exactly the visible rows, none twice. */
  lemma TimelineIsExact<A>(w: Walk<A>, row: Row)
    requires WalkOk(w)
    ensures row in w.all <==> row in Visible(w.head, w.q, w.access, w.AsOf())
    ensures forall i, j :: 0 <= i < j < |w.all| ==> w.all[i] != w.all[j]
  {
    assert row in w.all <==> row in RowSet(w.all);
    forall i, j | 0 <= i < j < |w.all|
      ensures w.all[i] != w.all[j]
    {
      PrecedesTotal(w.all[i], w.all[i]);
      assert Precedes(w.all[i], w.all[j]);
    }
  }
}
