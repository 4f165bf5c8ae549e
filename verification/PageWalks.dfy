/** Following next_cursor goes on and ends: a request that carries an unexpired token of its own walk is answered, and
    finitely many of them serve the whole timeline (internal/center/activity/service.go). */
module PageWalks {
  import opened Text
  import opened ActivityTypes
  import opened CanonicalHash
  import opened Queries
  import opened Cursors
  import opened PageStore
  import opened Pagination

  /** Sealing fails only on bad values, and an unexpired token binds to what was sealed in it. */
  ghost predicate Working<A(!new)>(svc: Service<A>) {
    && (forall values: CursorValues<A>, nonce: nat :: Encodable(svc.codec, values) ==> svc.seal(values, nonce).Some?)
    && forall values: CursorValues<A>, nonce: nat, asked: Query, token: Token, now: Time ::
      InForce(svc, values, nonce, asked, token, now) ==>
         token != NoToken && svc.bind(token, values.query, values.actor, values.generation, now) == Ok(Opened(values))
  }

  function Opened<A>(values: CursorValues<A>): Cursor {
    Cursor(values.generation, values.asOf, Bound(values.expiresAt), values.sortKey)
  }

  /** The token was sealed over these values and has not expired. */
  ghost predicate InForce<A>(svc: Service<A>, values: CursorValues<A>, nonce: nat, asked: Query, token: Token,
                             now: Time)
  {
    && values.query == Normal(asked) && QueryHeld(values.query) && svc.seal(values, nonce) == Some(token)
    && TimesFit(values) && Unexpired(values.expiresAt, now) && Truncated(values.sortKey) == values.sortKey
    && Survives(values.sortKey)
  }

  lemma GenuineWorks<A(!new)>(svc: Service<A>)
    requires Genuine(svc)
    ensures Working(svc)
  {
    forall values: CursorValues<A>, nonce: nat | Encodable(svc.codec, values)
      ensures svc.seal(values, nonce).Some?
    {
      assert SealsBy(svc, values, nonce);
      EncodeNeverOverflows(svc.codec, values, nonce);
    }
    forall values: CursorValues<A>, nonce: nat, asked: Query, token: Token, now: Time | InForce(svc, values, nonce, asked, token, now)
      ensures token != NoToken
      ensures svc.bind(token, values.query, values.actor, values.generation, now) == Ok(Opened(values))
    {
      OpensInForce(svc, values, nonce, asked, token, now);
    }
  }

  lemma OpensInForce<A(!new)>(svc: Service<A>, values: CursorValues<A>, nonce: nat, asked: Query, token: Token,
                              now: Time)
    requires Genuine(svc) && InForce(svc, values, nonce, asked, token, now)
    ensures token != NoToken
    ensures svc.bind(token, values.query, values.actor, values.generation, now) == Ok(Opened(values))
  {
    assert SealsBy(svc, values, nonce) && BindsBy(svc, token, values.query, values.actor, values.generation, now);
    EncodeNeverOverflows(svc.codec, values, nonce);
    BindExactly(svc.codec, values, nonce, asked, asked, values.actor, values.generation, now);
  }

  /** A walk whose actor is registered in its normal form, over a service whose tokens work. */
  ghost predicate Walkable<A(!new)>(w: Walk<A>) {
    && WalkOk(w) && PositionsBind(w.svc) && Working(w.svc) && QueryHeld(w.q) && w.generation != 0
    && w.svc.codec.normalize(w.actor) == Some(w.actor)
  }

  /** As every walk over a genuine service is. */
  lemma GenuineIsWalkable<A(!new)>(w: Walk<A>)
    requires WalkOk(w) && Genuine(w.svc) && QueryHeld(w.q) && w.generation != 0
    requires w.svc.codec.normalize(w.actor) == Some(w.actor)
    ensures Walkable(w)
  {
    GenuineBinds(w.svc);
    GenuineWorks(w.svc);
  }

  /** A well-formed request of the walk, about a subject that exists, at a time past Go's zero time. */
  ghost predicate Able<A>(w: Walk<A>, v: Visit<A>) {
    && OnWalk(w, v) && Askable(w.svc.known, v.query)
    && (v.live || SubjectKnown(w.head, w.q.subject, w.access, w.AsOf()))
    && v.nextAt + w.svc.ttl != 0 && v.snapshotAt + w.svc.ttl != 0
    && MicroFits(v.nextAt + w.svc.ttl) && MicroFits(v.snapshotAt + w.svc.ttl)
  }

  /** A token sealed to expire then is still good now. */
  predicate Unexpired(expiresAt: Time, now: Time) {
    now != 0 && UnixMicro(expiresAt) != 0 && now < Bound(expiresAt)
  }

  lemma StillKnown(s: Store, t: Store, subject: SubjectRef, access: Access, asOf: nat)
    requires Extended(s, t) && SubjectKnown(s, subject, access, asOf)
    ensures SubjectKnown(t, subject, access, asOf)
  {
    var i :| 0 <= i < |s.rows| && i < asOf && subject in s.rows[i].subjects && (access.unrestricted || s.rows[i].auth in access.allowed);
    assert t.rows[i] == s.rows[i];
  }

  lemma KnownAt<A>(w: Walk<A>, v: Visit<A>)
    requires WalkOk(w) && Able(w, v)
    ensures v.live || SubjectKnown(v.data, w.q.subject, w.access, w.AsOf())
  {
    if !v.live {
      StillKnown(w.head, v.data, w.q.subject, w.access, w.AsOf());
    }
  }

  /** Listing fails only for an unknown subject or a token that cannot be sealed. */
  lemma ListsUnless<A>(svc: Service<A>, v: Visit<A>, q: Query, actor: A, access: Access, asOf: uint64,
                       after: Option<SortKey>, rows: seq<Row>)
    requires DistinctRows(v.data) && q.limit >= 1 && Apiece(Visible(v.data, q, access, asOf))
    requires rows == PageRows(Visible(v.data, q, access, asOf), after, q.limit + 1)
    requires v.live || SubjectKnown(v.data, q.subject, access, asOf)
    requires Seals(svc, v, q, actor, asOf, rows)
    ensures ListAt(svc, v, q, actor, access, asOf, after).Listed?
  {
  }

  lemma RowsAt<A>(w: Walk<A>, v: Visit<A>, at: nat)
    requires WalkOk(w) && OnWalk(w, v) && at <= |w.all|
    ensures Apiece(Visible(v.data, w.q, w.access, w.AsOf()))
    ensures PageRows(Visible(v.data, w.q, w.access, w.AsOf()), Pagination.Before(w.all, at), w.q.limit + 1) == Slice(w.all, at, w.q.limit + 1)
  {
    WatermarkIsStable(w.head, v.data, w.q, w.access, w.AsOf());
    VisibleApiece(v.data, w.q, w.access, w.AsOf());
    TimelineUnique(Timeline(Visible(v.data, w.q, w.access, w.AsOf())), w.all);
    RowsFrom(Visible(v.data, w.q, w.access, w.AsOf()), at, w.q.limit + 1);
  }

  /** The tokens of a page of these rows can be sealed. */
  ghost predicate Seals<A>(svc: Service<A>, v: Visit<A>, q: Query, actor: A, asOf: uint64, rows: seq<Row>)
    requires q.limit >= 1
  {
    && SnapshotToken(svc, v, q, actor, asOf).Some?
    && (|rows| > q.limit ==> svc.seal(NextValues(svc, v, q, actor, asOf, rows[q.limit - 1]), v.nextNonce).Some?)
  }

  lemma TokensSeal<A(!new)>(w: Walk<A>, v: Visit<A>, at: nat)
    requires Walkable(w) && Able(w, v)
    ensures Seals(w.svc, v, w.q, w.actor, w.AsOf(), Slice(w.all, at, w.q.limit + 1))
  {
    SnapshotSeals(w, v);
    SliceEnd(w.all, at, w.q.limit);
    if at + w.q.limit < |w.all| {
      NextSeals(w, v, w.all[at + w.q.limit - 1]);
    }
  }

  /** Then listing from it does not fail. */
  lemma PlaceIsListed<A(!new)>(w: Walk<A>, v: Visit<A>, at: nat)
    requires WalkOk(w) && OnWalk(w, v) && at <= |w.all|
    requires Seals(w.svc, v, w.q, w.actor, w.AsOf(), Slice(w.all, at, w.q.limit + 1))
    requires v.live || SubjectKnown(v.data, w.q.subject, w.access, w.AsOf())
    ensures ListAt(w.svc, v, w.q, w.actor, w.access, w.AsOf(), Pagination.Before(w.all, at)).Listed?
  {
    RowsAt(w, v, at);
    ListsUnless(w.svc, v, w.q, w.actor, w.access, w.AsOf(), Pagination.Before(w.all, at),
                Slice(w.all, at, w.q.limit + 1));
  }

  lemma EncodableAt<A>(w: Walk<A>, v: Visit<A>, expiresAt: Time, key: SortKey)
    requires WalkOk(w) && w.generation == v.generation != 0 && w.svc.codec.normalize(w.actor) == Some(w.actor)
    requires expiresAt != 0 && ValidSortKey(key)
    ensures Encodable(w.svc.codec, CursorValues(w.q, w.actor, v.generation, w.AsOf(), expiresAt, key))
  {
  }

  lemma SnapshotSeals<A(!new)>(w: Walk<A>, v: Visit<A>)
    requires Walkable(w) && Able(w, v)
    ensures SnapshotToken(w.svc, v, w.q, w.actor, w.AsOf()).Some?
  {
    EncodableAt(w, v, v.snapshotAt + w.svc.ttl, NO_KEY);
  }

  lemma NextSeals<A(!new)>(w: Walk<A>, v: Visit<A>, row: Row)
    requires Walkable(w) && Able(w, v) && SoundRow(row)
    ensures w.svc.seal(NextValues(w.svc, v, w.q, w.actor, w.AsOf(), row), v.nextNonce).Some?
  {
    EncodableAt(w, v, v.nextAt + w.svc.ttl, KeyOf(row));
  }

  /** What List does with a token that binds. */
  lemma ListBound<A(!new)>(w: Walk<A>, v: Visit<A>, token: Token, c: Cursor)
    requires Walkable(w) && Able(w, v) && token != NoToken
    requires w.svc.bind(token, w.q, w.actor, w.generation, v.now) == Ok(c)
    ensures List(w.svc, v, token) ==
            ListAt(w.svc, v, w.q, w.actor, w.access, c.asOf, if c.sortKey == NO_KEY then None else Some(c.sortKey))
  {
  }

  lemma FirstIsListed<A(!new)>(w: Walk<A>, v: Visit<A>)
    requires Walkable(w) && Able(w, v) && v.head == w.head
    ensures List(w.svc, v, NoToken).Listed?
  {
    KnownAt(w, v);
    TokensSeal(w, v, 0);
    PlaceIsListed(w, v, 0);
  }

  lemma NextBinds<A(!new)>(w: Walk<A>, sealing: Visit<A>, at: nat, page: Page, now: Time) returns (c: Cursor)
    requires Walkable(w) && Placed(w, sealing, at, page) && page.next != NoToken
    requires Unexpired(sealing.nextAt + w.svc.ttl, now)
    ensures at + w.q.limit <= |w.all| && c.asOf == w.AsOf() && c.sortKey == KeyOf(w.all[at + w.q.limit - 1]) != NO_KEY
    ensures w.svc.bind(page.next, w.q, w.actor, w.generation, now) == Ok(c)
  {
    var values := SealedIn(w, sealing, at, page);
    assert InForce(w.svc, values, sealing.nextNonce, w.asked, page.next, now);
    c := Opened(values);
  }

  /** What the token of a placed page was sealed over. */
  lemma SealedIn<A(!new)>(w: Walk<A>, sealing: Visit<A>, at: nat, page: Page) returns (values: CursorValues<A>)
    requires WalkOk(w) && Placed(w, sealing, at, page) && page.next != NoToken
    ensures at + w.q.limit <= |w.all| && values.sortKey == KeyOf(w.all[at + w.q.limit - 1]) != NO_KEY
    ensures values.query == w.q && values.actor == w.actor && values.generation == w.generation
    ensures values.asOf == w.AsOf()
    ensures values.expiresAt == sealing.nextAt + w.svc.ttl && TimesFit(values)
    ensures Truncated(values.sortKey) == values.sortKey && Survives(values.sortKey)
    ensures w.svc.seal(values, sealing.nextNonce) == Some(page.next)
  {
    var row := w.all[at + w.q.limit - 1];
    assert SoundRow(row);
    values := NextValues(w.svc, sealing, w.q, w.actor, w.AsOf(), row);
  }

  /** A request that carries an unexpired next_cursor of its walk is answered. */
  lemma NextIsListed<A(!new)>(w: Walk<A>, sealing: Visit<A>, at: nat, page: Page, v: Visit<A>)
    requires Walkable(w) && Placed(w, sealing, at, page) && page.next != NoToken
    requires Able(w, v) && Unexpired(sealing.nextAt + w.svc.ttl, v.now)
    ensures List(w.svc, v, page.next).Listed?
  {
    var c := NextBinds(w, sealing, at, page, v.now);
    ListBound(w, v, page.next, c);
    KnownAt(w, v);
    TokensSeal(w, v, at + w.q.limit);
    PlaceIsListed(w, v, at + w.q.limit);
  }

  lemma SnapshotBindsInTime<A(!new)>(w: Walk<A>, sealing: Visit<A>, token: Token, now: Time) returns (c: Cursor)
    requires Walkable(w) && Able(w, sealing) && SnapshotToken(w.svc, sealing, w.q, w.actor, w.AsOf()) == Some(token)
    requires Unexpired(sealing.snapshotAt + w.svc.ttl, now)
    ensures token != NoToken && c.asOf == w.AsOf() && c.sortKey == NO_KEY
    ensures w.svc.bind(token, w.q, w.actor, w.generation, now) == Ok(c)
  {
    var values := SealedInSnapshot(w, sealing, token);
    assert InForce(w.svc, values, sealing.snapshotNonce, w.asked, token, now);
    c := Opened(values);
  }

  lemma SealedInSnapshot<A(!new)>(w: Walk<A>, sealing: Visit<A>, token: Token) returns (values: CursorValues<A>)
    requires WalkOk(w) && Able(w, sealing) && SnapshotToken(w.svc, sealing, w.q, w.actor, w.AsOf()) == Some(token)
    ensures values.query == w.q && values.actor == w.actor && values.generation == w.generation
    ensures values.asOf == w.AsOf()
    ensures values.expiresAt == sealing.snapshotAt + w.svc.ttl && values.sortKey == NO_KEY && TimesFit(values)
    ensures Truncated(values.sortKey) == values.sortKey && Survives(values.sortKey)
    ensures w.svc.seal(values, sealing.snapshotNonce) == Some(token)
  {
    values := CursorValues(w.q, w.actor, sealing.generation, w.AsOf(), sealing.snapshotAt + w.svc.ttl, NO_KEY);
  }

  /** So is one that carries the snapshot cursor of any page, and it lists the first page again. */
  lemma SnapshotIsListed<A(!new)>(w: Walk<A>, sealing: Visit<A>, after: Option<SortKey>, page: Page, v: Visit<A>)
    requires Walkable(w) && Able(w, sealing)
    requires ListAt(w.svc, sealing, w.q, w.actor, w.access, w.AsOf(), after) == Listed(page)
    requires Able(w, v) && Unexpired(sealing.snapshotAt + w.svc.ttl, v.now)
    ensures List(w.svc, v, page.snapshot).Listed?
    ensures IsSlice(w.svc, v, w.q, w.actor, w.AsOf(), w.all, 0, List(w.svc, v, page.snapshot).page)
  {
    SnapshotOf(w.svc, sealing, w.q, w.actor, w.access, w.AsOf(), after, page);
    SnapshotLists(w, sealing, page.snapshot, v);
  }

  lemma SnapshotLists<A(!new)>(w: Walk<A>, sealing: Visit<A>, token: Token, v: Visit<A>)
    requires Walkable(w) && Able(w, sealing) && SnapshotToken(w.svc, sealing, w.q, w.actor, w.AsOf()) == Some(token)
    requires Able(w, v) && Unexpired(sealing.snapshotAt + w.svc.ttl, v.now)
    ensures List(w.svc, v, token).Listed?
    ensures IsSlice(w.svc, v, w.q, w.actor, w.AsOf(), w.all, 0, List(w.svc, v, token).page)
  {
    var c := SnapshotBindsInTime(w, sealing, token, v.now);
    ListBound(w, v, token, c);
    KnownAt(w, v);
    TokensSeal(w, v, 0);
    PlaceIsListed(w, v, 0);
    ListAtOnWalk(w, v, 0);
  }

  /** Requests that each come before the cursor of the one before expires; the first reads the walk's head. */
  ghost predicate InTime<A>(w: Walk<A>, visits: seq<Visit<A>>) {
    && visits != [] && visits[0].head == w.head
    && (forall k :: 0 <= k < |visits| ==> Able(w, visits[k]))
    && forall k :: 0 < k < |visits| ==> Unexpired(visits[k - 1].nextAt + w.svc.ttl, visits[k].now)
  }

  /** A page's request, and one that can follow it. */
  ghost function Pairs<A(!new)>(w: Walk<A>): iset<(Visit<A>, Visit<A>)> {
    iset s: Visit<A>, v: Visit<A> | Able(w, v) && Unexpired(s.nextAt + w.svc.ttl, v.now) :: (s, v)
  }

  /** Every page with a cursor leads on. */
  ghost predicate GoesOn<A(!new)>(steps: iset<(Visit<A>, Token, Page)>, slices: iset<(Visit<A>, nat, Page)>,
                                  pairs: iset<(Visit<A>, Visit<A>)>)
  {
    forall s: Visit<A>, at: nat, last: Page, v: Visit<A> ::
      (s, at, last) in slices && last.next != NoToken && (s, v) in pairs ==>
      Leads(steps, v, last.next)
  }

  ghost predicate Leads<A(!new)>(steps: iset<(Visit<A>, Token, Page)>, v: Visit<A>, cursor: Token) {
    exists page: Page :: (v, cursor, page) in steps
  }

  lemma NextRequest<A(!new)>(w: Walk<A>, sealing: Visit<A>, at: nat, last: Page, v: Visit<A>)
    requires Walkable(w) && Placed(w, sealing, at, last) && last.next != NoToken
    requires Able(w, v) && Unexpired(sealing.nextAt + w.svc.ttl, v.now)
    ensures Leads(Steps(w), v, last.next)
  {
    NextIsListed(w, sealing, at, last, v);
    ListedLeads(w, v, last.next);
  }

  lemma ListedLeads<A(!new)>(w: Walk<A>, v: Visit<A>, cursor: Token)
    requires Able(w, v) && v.head.Published() < 0x1_0000_0000_0000_0000 && List(w.svc, v, cursor).Listed?
    ensures Leads(Steps(w), v, cursor)
  {
    var page := List(w.svc, v, cursor).page;
    assert Step(w, v, cursor, page);
    assert (v, cursor, page) in Steps(w);
  }

  lemma NextOfPair<A(!new)>(w: Walk<A>, s: Visit<A>, at: nat, last: Page, v: Visit<A>)
    requires Walkable(w) && (s, at, last) in Slices(w) && last.next != NoToken && (s, v) in Pairs(w)
    ensures Leads(Steps(w), v, last.next)
  {
    SliceMeans(w, s, at, last);
    PairMeans(w, s, v);
    NextRequest(w, s, at, last, v);
  }

  lemma SliceMeans<A(!new)>(w: Walk<A>, s: Visit<A>, at: nat, page: Page)
    requires WalkOk(w) && (s, at, page) in Slices(w)
    ensures Placed(w, s, at, page)
  {
  }

  lemma PairMeans<A(!new)>(w: Walk<A>, s: Visit<A>, v: Visit<A>)
    requires (s, v) in Pairs(w)
    ensures Able(w, v) && Unexpired(s.nextAt + w.svc.ttl, v.now)
  {
  }

  lemma WalkGoesOn<A(!new)>(w: Walk<A>)
    requires Walkable(w)
    ensures GoesOn(Steps(w), Slices(w), Pairs(w))
  {
    forall s: Visit<A>, at: nat, last: Page, v: Visit<A> | (s, at, last) in Slices(w) && last.next != NoToken && (s, v) in Pairs(w)
      ensures Leads(Steps(w), v, last.next)
    {
      NextOfPair(w, s, at, last, v);
    }
  }

  /** Requests that can follow one another are answered until one gets no cursor. */
  lemma {:induction false} AnsweredUntilDone<A(!new)>(
    steps: iset<(Visit<A>, Token, Page)>, head: Store, slices: iset<(Visit<A>, nat, Page)>, limit: nat, pairs: iset<(Visit<A>, Visit<A>)>,
    visits: seq<Visit<A>>, first: Page, n: nat) returns (pages: seq<Page>)
    requires Chains(steps, head, slices, limit) && GoesOn(steps, slices, pairs) && 0 < n <= |visits|
    requires visits[0].head == head && (visits[0], NoToken, first) in steps
    requires forall k :: 0 < k < |visits| ==> (visits[k - 1], visits[k]) in pairs
    ensures Followed(steps, head, visits, pages) && 0 < |pages| <= n
    ensures (pages[|pages| - 1].next == NoToken || |pages| == n)
    decreases n
  {
    if n == 1 {
      pages := [first];
      assert pages[..0] == [];
    } else {
      pages := AnsweredUntilDone(steps, head, slices, limit, pairs, visits, first, n - 1);
      if pages[|pages| - 1].next != NoToken {
        LastPageIsSlice(steps, head, slices, limit, visits, pages);
        var page: Page :| (visits[|pages|], pages[|pages| - 1].next, page) in steps;
        pages := FollowedOn(steps, head, visits, pages, page);
      }
    }
  }

  lemma FollowedOn<A(!new)>(steps: iset<(Visit<A>, Token, Page)>, head: Store, visits: seq<Visit<A>>, pages: seq<Page>,
                            page: Page)
    returns (more: seq<Page>)
    requires Followed(steps, head, visits, pages) && 0 < |pages| < |visits| && pages[|pages| - 1].next != NoToken
    requires (visits[|pages|], pages[|pages| - 1].next, page) in steps
    ensures Followed(steps, head, visits, more) && |more| == |pages| + 1
  {
    more := pages + [page];
    assert more[..|pages|] == pages;
  }

  lemma {:induction false} OffsetGrows(k: nat, limit: nat)
    requires limit >= 1
    ensures Offset(k, limit) >= k
  {
    if k > 0 {
      OffsetGrows(k - 1, limit);
    }
  }

  /** Everything the last step of the argument needs of a walk. */
  ghost predicate Ready<A(!new)>(
    steps: iset<(Visit<A>, Token, Page)>, head: Store, slices: iset<(Visit<A>, nat, Page)>, limit: nat, pairs: iset<(Visit<A>, Visit<A>)>, all: seq<Row>)
  {
    && Chains(steps, head, slices, limit) && GoesOn(steps, slices, pairs) && limit >= 1
    && forall v: Visit<A>, at: nat, page: Page :: (v, at, page) in slices ==>
         page.items == Slice(all, at, limit) && (page.next == NoToken <==> |all| <= at + limit)
  }

  lemma WalkIsReady<A(!new)>(w: Walk<A>)
    requires Walkable(w)
    ensures Ready(Steps(w), w.head, Slices(w), w.q.limit, Pairs(w), w.all)
  {
    WalkChains(w);
    WalkGoesOn(w);
  }

  lemma WalkChains<A(!new)>(w: Walk<A>)
    requires Walkable(w)
    ensures Chains(Steps(w), w.head, Slices(w), w.q.limit)
  {
    TokensContinue(w);
    StepsChain(w);
  }

  /** Each request can follow the one before. */
  ghost predicate Paired<A(!new)>(pairs: iset<(Visit<A>, Visit<A>)>, visits: seq<Visit<A>>) {
    forall k :: 0 < k < |visits| ==> (visits[k - 1], visits[k]) in pairs
  }

  lemma InTimePaired<A(!new)>(w: Walk<A>, visits: seq<Visit<A>>)
    requires InTime(w, visits)
    ensures Paired(Pairs(w), visits)
  {
  }

  lemma FirstLeads<A(!new)>(w: Walk<A>, v: Visit<A>)
    requires Walkable(w) && Able(w, v) && v.head == w.head
    ensures Leads(Steps(w), v, NoToken)
  {
    FirstIsListed(w, v);
    ListedLeads(w, v, NoToken);
  }

  lemma FollowingServesAll<A(!new)>(
    steps: iset<(Visit<A>, Token, Page)>, head: Store, slices: iset<(Visit<A>, nat, Page)>, limit: nat, pairs: iset<(Visit<A>, Visit<A>)>, all: seq<Row>,
    visits: seq<Visit<A>>) returns (pages: seq<Page>)
    requires Ready(steps, head, slices, limit, pairs, all) && Paired(pairs, visits) && |visits| > |all|
    requires visits[0].head == head && Leads(steps, visits[0], NoToken)
    ensures Followed(steps, head, visits, pages) && 0 < |pages| <= |all| + 1
    ensures pages[|pages| - 1].next == NoToken && Served(pages) == all
  {
    var first: Page :| (visits[0], NoToken, first) in steps;
    pages := AnsweredUntilDone(steps, head, slices, limit, pairs, visits, first, |all| + 1);
    ServedInOrder(all, steps, head, slices, limit, visits, pages);
    OffsetGrows(|pages|, limit);
  }

  /** As many requests as the timeline has rows, and one more, each in time, are enough: following next_cursor ends, and
      has then served every authorized row at or below the first watermark exactly once, in order. */
  lemma WalkCompletes<A(!new)>(w: Walk<A>, visits: seq<Visit<A>>) returns (pages: seq<Page>)
    requires Walkable(w) && InTime(w, visits) && |visits| > |w.all|
    ensures Followed(Steps(w), w.head, visits, pages) && 0 < |pages| <= |w.all| + 1
    ensures pages[|pages| - 1].next == NoToken && Served(pages) == w.all
  {
    WalkIsReady(w);
    InTimePaired(w, visits);
    FirstLeads(w, visits[0]);
    pages := FollowingServesAll(Steps(w), w.head, Slices(w), w.q.limit, Pairs(w), w.all, visits);
  }

  /** Asking again and again before anything expires is such a sequence, so every walk can be completed. */
  lemma WalkCanComplete<A(!new)>(w: Walk<A>, v: Visit<A>) returns (visits: seq<Visit<A>>, pages: seq<Page>)
    requires WalkOk(w) && Genuine(w.svc) && QueryHeld(w.q) && w.generation != 0
    requires w.svc.codec.normalize(w.actor) == Some(w.actor)
    requires Able(w, v) && v.head == w.head && Unexpired(v.nextAt + w.svc.ttl, v.now)
    ensures Followed(Steps(w), w.head, visits, pages) && pages != []
    ensures pages[|pages| - 1].next == NoToken && Served(pages) == w.all
  {
    GenuineIsWalkable(w);
    visits := seq(|w.all| + 1, _ => v);
    pages := WalkCompletes(w, visits);
  }
}
