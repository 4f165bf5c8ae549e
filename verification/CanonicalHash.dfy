/** What a candidate's canonical hash covers: the digest preimages of internal/center/activity/source.go and types.go.
    */
module CanonicalHash {
  import opened Text
  import opened ActivityTypes
  import opened Bytes
  import opened Ordering

  /** Microseconds since 1970, from nanoseconds since Go's zero time. */
  function UnixMicro(t: Time): int {
    t / 1000 - 62_135_596_800_000_000
  }

  predicate MicroFits(t: Time) {
    -TWO_63 <= UnixMicro(t) < TWO_63
  }

  // ----- subjects -----

  function Pairs(keys: seq<string>, identity: map<string, string>): seq<Field>
    requires forall k :: k in keys ==> k in identity
  {
    if keys == [] then [] else [Text(keys[0]), Text(identity[keys[0]])] + Pairs(keys[1..], identity)
  }

  function SubjectHead(s: Subject): seq<Field> {
    [Text(s.kind), Text(s.sourceId), Text(s.role), Text(s.liveRoute), Flag(s.primary), Flag(s.tombstoned),
     Num(|s.identity|)]
  }

  ghost function SubjectPreimage(s: Subject): seq<Byte> {
    var keys := Listing(s.identity.Keys);
    assert forall k :: k in keys ==> k in Members(keys);
    Encode(SubjectHead(s)) + Encode(Pairs(keys, s.identity))
  }

  predicate SubjectHeld(s: Subject) {
    && Held(s.kind) && Held(s.sourceId) && Held(s.role) && Held(s.liveRoute) && |s.identity| < TWO_64
    && forall k :: k in s.identity ==> Held(k) && Held(s.identity[k])
  }

  /** The keys in digest order, whatever order the map yields them in. */
  method SortedKeys(identity: map<string, string>) returns (keys: seq<string>)
    ensures keys == Listing(identity.Keys)
  {
    var rest := identity.Keys;
    keys := [];
    while rest != {}
      invariant rest <= identity.Keys && Members(keys) == identity.Keys - rest && Distinct(keys)
      decreases |rest|
    {
      var key :| key in rest;
      assert key !in Members(keys);
      assert Members(keys + [key]) == Members(keys) + {key};
      keys, rest := keys + [key], rest - {key};
    }
    SortOrdered(keys);
    keys := Sort(keys);
    IncreasingUnique(keys, Listing(identity.Keys));
  }

  lemma {:induction false} ListingLength(keys: seq<string>)
    requires Increasing(keys)
    ensures |keys| == |Members(keys)|
  {
    if keys != [] {
      TailMembers(keys);
      ListingLength(keys[1..]);
      assert keys[0] in Members(keys);
    }
  }

  lemma {:induction false} PairsForms(keys: seq<string>, identity: map<string, string>)
    requires forall k :: k in keys ==> k in identity && Held(k) && Held(identity[k])
    ensures |Pairs(keys, identity)| == 2 * |keys| && FieldsOk(Pairs(keys, identity))
    ensures forall i :: 0 <= i < |Pairs(keys, identity)| ==> Pairs(keys, identity)[i].Text?
  {
    if keys != [] {
      PairsForms(keys[1..], identity);
      var rest := Pairs(keys[1..], identity);
      assert keys[0] in keys;
      assert FieldOk(Text(keys[0])) && FieldOk(Text(identity[keys[0]]));
      assert forall i :: 2 <= i < |rest| + 2 ==> Pairs(keys, identity)[i] == rest[i - 2];
    }
  }

  lemma {:induction false} PairsInjective(keys: seq<string>, a: map<string, string>, more: seq<string>,
                                          b: map<string, string>)
    requires (forall k :: k in keys ==> k in a) && (forall k :: k in more ==> k in b) && |keys| == |more|
    requires Pairs(keys, a) == Pairs(more, b)
    ensures keys == more && forall k :: k in keys ==> a[k] == b[k]
  {
    if keys != [] {
      var p, q := Pairs(keys, a), Pairs(more, b);
      assert p[0] == Text(keys[0]) && q[0] == Text(more[0]) && p[1] == Text(a[keys[0]]) && q[1] == Text(b[more[0]]);
      assert p[2..] == Pairs(keys[1..], a) && q[2..] == Pairs(more[1..], b);
      PairsInjective(keys[1..], a, more[1..], b);
      assert keys == [keys[0]] + keys[1..] && more == [more[0]] + more[1..];
    }
  }

  lemma SubjectHeadForms(a: Subject, b: Subject)
    requires SubjectHeld(a)
    ensures SameForms(SubjectHead(a), SubjectHead(b)) && FieldsOk(SubjectHead(a))
  {
  }

  lemma SubjectHeads(a: Subject, b: Subject, x: seq<Byte>, y: seq<Byte>)
    requires SubjectHeld(a) && SubjectHeld(b) && Encode(SubjectHead(a)) + x == Encode(SubjectHead(b)) + y
    ensures SubjectHead(a) == SubjectHead(b) && |a.identity| == |b.identity| && x == y
  {
    SubjectHeadForms(a, b);
    SubjectHeadForms(b, a);
    FieldsSplit(SubjectHead(a), SubjectHead(b), x, y);
    assert SubjectHead(a)[6] == SubjectHead(b)[6];
  }

  /** A subject is determined by the bytes its sub-digest hashes. */
  lemma SubjectPreimageInjective(a: Subject, b: Subject)
    requires SubjectHeld(a) && SubjectHeld(b) && SubjectPreimage(a) == SubjectPreimage(b)
    ensures a == b
  {
    var keys, more := Listing(a.identity.Keys), Listing(b.identity.Keys);
    assert (forall k :: k in keys ==> k in Members(keys)) && (forall k :: k in more ==> k in Members(more));
    SubjectHeads(a, b, Encode(Pairs(keys, a.identity)), Encode(Pairs(more, b.identity)));
    ListingLength(keys);
    ListingLength(more);
    PairsForms(keys, a.identity);
    PairsForms(more, b.identity);
    SameTexts(Pairs(keys, a.identity), Pairs(more, b.identity));
    PairsInjective(keys, a.identity, more, b.identity);
    SameSubject(a, b);
  }

  lemma SameTexts(fs: seq<Field>, gs: seq<Field>)
    requires |fs| == |gs| && FieldsOk(fs) && FieldsOk(gs) && Encode(fs) == Encode(gs)
    requires (forall i :: 0 <= i < |fs| ==> fs[i].Text?) && forall i :: 0 <= i < |gs| ==> gs[i].Text?
    ensures fs == gs
  {
    assert Encode(fs) + [] == Encode(gs) + [];
    FieldsSplit(fs, gs, [], []);
  }

  lemma SameSubject(a: Subject, b: Subject)
    requires SubjectHead(a) == SubjectHead(b) && Listing(a.identity.Keys) == Listing(b.identity.Keys)
    requires forall k :: k in Listing(a.identity.Keys) ==>
      k in a.identity && k in b.identity && a.identity[k] == b.identity[k]
    ensures a == b
  {
    var f, g := SubjectHead(a), SubjectHead(b);
    assert f[0] == g[0] && f[1] == g[1] && f[2] == g[2] && f[3] == g[3] && f[4] == g[4] && f[5] == g[5];
    assert a.identity.Keys == Members(Listing(a.identity.Keys)) == b.identity.Keys;
    assert a.identity == b.identity;
  }

  // ----- candidates -----

  function IdentityFields(c: Candidate): seq<Field> {
    [Text(c.activityId), Text(c.source.kind), Text(c.source.eventId), Num(c.source.version as nat), Text(c.eventKind),
     Micro(UnixMicro(c.eventAt)), Micro(UnixMicro(c.recordedAt))]
  }

  function LinkFields(c: Candidate): seq<Field> {
    [Text(c.recordId), Text(c.revisionId), Num(c.revisionNo as nat), Flag(c.opensRevision), Text(c.evidenceId),
     Text(c.corrects),
     Text(c.severity), Flag(c.backfilled)]
  }

  /** A missing actor is one zero where an actor's two strings would stand. */
  function ActorFields(actor: Option<Actor>): seq<Field> {
    match actor
    case None => [Num(0)]
    case Some(a) => [Text(a.actorId), Text(a.displayName)]
  }

  function DisplayFields(c: Candidate): seq<Field> {
    [Num(c.presentation.version as nat), Text(c.presentation.title), Text(c.presentation.summary), Num(|c.subjects|)]
  }

  /** A sub-digest of 32 bytes per subject. */
  type SubDigest = Subject -> seq<Byte>

  ghost predicate Sized(digest: SubDigest) {
    forall s :: |digest(s)| == 32
  }

  function Digests(subjects: seq<Subject>, digest: SubDigest): seq<Byte> {
    if subjects == [] then [] else digest(subjects[0]) + Digests(subjects[1..], digest)
  }

  /** The bytes hashed, after the digest's domain tag. */
  function Preimage(tag: seq<Byte>, c: Candidate, digest: SubDigest): seq<Byte> {
    tag + (Encode(IdentityFields(c)) + (Encode(LinkFields(c)) + (Encode(ActorFields(c.actor)) +
      (Encode(DisplayFields(c)) + Digests(c.subjects, digest)))))
  }

  predicate CandidateHeld(c: Candidate) {
    && Held(c.activityId) && Held(c.source.kind) && Held(c.source.eventId) && Held(c.eventKind) && MicroFits(c.eventAt)
    && MicroFits(c.recordedAt)
    && Held(c.recordId) && Held(c.revisionId) && Held(c.evidenceId) && Held(c.corrects) && Held(c.severity)
    && (c.actor.Some? ==> Held(c.actor.value.actorId) && Held(c.actor.value.displayName))
    && Held(c.presentation.title) && Held(c.presentation.summary) && |c.subjects| < TWO_64
  }

  /** The covered fields agree: times to the microsecond. */
  predicate SameIdentity(a: Candidate, b: Candidate) {
    && a.activityId == b.activityId && a.source == b.source && a.eventKind == b.eventKind
    && UnixMicro(a.eventAt) == UnixMicro(b.eventAt) && UnixMicro(a.recordedAt) == UnixMicro(b.recordedAt)
  }

  predicate SameLinks(a: Candidate, b: Candidate) {
    && a.recordId == b.recordId && a.revisionId == b.revisionId && a.revisionNo == b.revisionNo
    && a.opensRevision == b.opensRevision
    && a.evidenceId == b.evidenceId && a.corrects == b.corrects && a.severity == b.severity
    && a.backfilled == b.backfilled
  }

  /** Everything but the subjects agrees. */
  predicate SameBut(a: Candidate, b: Candidate) {
    SameIdentity(a, b) && SameLinks(a, b) && a.actor == b.actor && a.presentation == b.presentation
  }

  /** Everything the hash covers agrees, the subjects by their sub-digests. */
  predicate SameFact(a: Candidate, b: Candidate, digest: SubDigest) {
    && SameBut(a, b) && |a.subjects| == |b.subjects|
    && forall i :: 0 <= i < |a.subjects| ==> digest(a.subjects[i]) == digest(b.subjects[i])
  }

  lemma IdentityTells(a: Candidate, b: Candidate)
    ensures IdentityFields(a) == IdentityFields(b) <==> SameIdentity(a, b)
  {
    var f, g := IdentityFields(a), IdentityFields(b);
    if f == g {
      assert f[0] == g[0] && f[1] == g[1] && f[2] == g[2] && f[3] == g[3] && f[4] == g[4] && f[5] == g[5];
      assert f[6] == g[6];
    }
  }

  lemma LinksTell(a: Candidate, b: Candidate)
    ensures LinkFields(a) == LinkFields(b) <==> SameLinks(a, b)
  {
    var f, g := LinkFields(a), LinkFields(b);
    if f == g {
      assert f[0] == g[0] && f[1] == g[1] && f[2] == g[2] && f[3] == g[3];
      assert f[4] == g[4] && f[5] == g[5] && f[6] == g[6] && f[7] == g[7];
    }
  }

  lemma IdentityForms(a: Candidate, b: Candidate)
    requires CandidateHeld(a)
    ensures SameForms(IdentityFields(a), IdentityFields(b)) && FieldsOk(IdentityFields(a))
  {
  }

  lemma LinkForms(a: Candidate, b: Candidate)
    requires CandidateHeld(a)
    ensures SameForms(LinkFields(a), LinkFields(b)) && FieldsOk(LinkFields(a))
  {
  }

  lemma DisplayForms(a: Candidate, b: Candidate)
    requires CandidateHeld(a)
    ensures SameForms(DisplayFields(a), DisplayFields(b)) && FieldsOk(DisplayFields(a))
  {
  }

  // ----- the accumulator -----

  method WriteFields(written: seq<Byte>, fields: seq<Field>) returns (w: seq<Byte>)
    ensures w == written + Encode(fields)
  {
    w := written;
    var i := 0;
    while i < |fields|
      invariant 0 <= i <= |fields| && w + Encode(fields[i..]) == written + Encode(fields)
    {
      Assoc(w, FieldBytes(fields[i]), Encode(fields[i + 1..]));
      w := w + FieldBytes(fields[i]);
      i := i + 1;
    }
    assert Encode(fields[i..]) == [];
  }

  /** Everything the digest is given, in the order it is given. */
  method WriteCandidate(tag: seq<Byte>, c: Candidate, digest: SubDigest) returns (w: seq<Byte>)
    ensures w == Preimage(tag, c, digest)
  {
    var identity := WriteFields(tag, IdentityFields(c));
    var links := WriteFields(identity, LinkFields(c));
    var actor := WriteFields(links, ActorFields(c.actor));
    var display := WriteFields(actor, DisplayFields(c));
    w := display;
    var i := 0;
    while i < |c.subjects|
      invariant 0 <= i <= |c.subjects| && w + Digests(c.subjects[i..], digest) == display + Digests(c.subjects, digest)
    {
      Assoc(w, digest(c.subjects[i]), Digests(c.subjects[i + 1..], digest));
      w := w + digest(c.subjects[i]);
      i := i + 1;
    }
    assert Digests(c.subjects[i..], digest) == [];
    Nested(tag, Encode(IdentityFields(c)), Encode(LinkFields(c)), Encode(ActorFields(c.actor)),
           Encode(DisplayFields(c)), Digests(c.subjects, digest));
  }

  lemma Nested(a: seq<Byte>, b: seq<Byte>, c: seq<Byte>, d: seq<Byte>, e: seq<Byte>, f: seq<Byte>)
    ensures a + b + c + d + e + f == a + (b + (c + (d + (e + f))))
  {
    Assoc(a + b + c + d, e, f);
    Assoc(a + b + c, d, e + f);
    Assoc(a + b, c, d + (e + f));
    Assoc(a, b, c + (d + (e + f)));
  }

  // ----- the missing actor -----

  lemma SmallFirstByte(n: nat)
    requires n < 0x100_0000_0000_0000
    ensures U64(n)[0] == 0
  {
    assert BigEndian(n, 8)[0] == BigEndian(n / 256, 7)[0];
    assert BigEndian(n / 256, 7)[0] == BigEndian(n / 256 / 256, 6)[0];
    var m := n / 256 / 256;
    assert m < 0x100_0000_0000;
    assert BigEndian(m, 6)[0] == BigEndian(m / 256, 5)[0];
    assert BigEndian(m / 256, 5)[0] == BigEndian(m / 256 / 256, 4)[0];
    var k := m / 256 / 256;
    assert k < 0x100_0000;
    assert BigEndian(k, 4)[0] == BigEndian(k / 256, 3)[0];
    assert BigEndian(k / 256, 3)[0] == BigEndian(k / 256 / 256, 2)[0];
    assert BigEndian(k / 256 / 256, 2)[0] == BigEndian(k / 256 / 256 / 256, 1)[0];
    assert BigEndian(0, 1) == [0];
  }

  lemma {:induction false} ZeroBytes(width: nat)
    ensures forall i :: 0 <= i < width ==> BigEndian(0, width)[i] == 0
  {
    if width > 0 {
      ZeroBytes(width - 1);
    }
  }

  lemma OneBytes()
    ensures U64(1) == [0, 0, 0, 0, 0, 0, 0, 1]
  {
    ZeroBytes(7);
    assert U64(1) == BigEndian(0, 7) + [1];
  }

  /** Read past its length, an actor's display name can only be mistaken for a title and a summary when the
      summary is longer than any string held. */
  lemma MistakenActor(name: seq<Byte>, title: seq<Byte>, summary: seq<Byte>, x: seq<Byte>, y: seq<Byte>)
    requires |name| < TWO_64 && |title| < 0x100_0000_0000_0000
    requires U64(1) + (U64(|title|) + (title + (U64(|summary|) + x))) == U64(|name|) + (name + (U64(1) + y))
    ensures |summary| >= 0x100_0000_0000_0000
  {
    var p, q := U64(|title|) + (title + (U64(|summary|) + x)), name + (U64(1) + y);
    U64Split(1, |name|, p, q);
    OneBytes();
    SmallFirstByte(|title|);
    assert forall i :: 1 <= i < 8 ==> p[i] == U64(|title|)[i] && q[i] == U64(1)[i - 1];
    ZeroBytes(8);
    assert U64(|title|) == U64(0);
    Pow256Eight();
    BigEndianInjective(|title|, 0, 8);
    assert p[8] == U64(|summary|)[0] && q[8] == U64(1)[7];
    if |summary| < 0x100_0000_0000_0000 {
      SmallFirstByte(|summary|);
    }
  }

  lemma DisplayBytes(c: Candidate, d: seq<Byte>) returns (first: seq<Byte>, rest: seq<Byte>)
    ensures Encode(DisplayFields(c)) + d == U64(c.presentation.version as nat) + first
    ensures var title, summary := Utf8(c.presentation.title), Utf8(c.presentation.summary);
            first == U64(|title|) + (title + (U64(|summary|) + rest))
  {
    var fs := DisplayFields(c);
    var title, summary := Utf8(c.presentation.title), Utf8(c.presentation.summary);
    EncodeFirst(fs, d);
    EncodeFirst(fs[1..], d);
    EncodeFirst(fs[2..], d);
    assert fs[1..][1..] == fs[2..];
    var after := Encode(fs[2..][1..]) + d;
    rest := summary + after;
    first := Encode(fs[1..]) + d;
    Assoc(U64(|summary|), summary, after);
    Assoc(U64(|title|), title, Encode(fs[2..]) + d);
  }

  /** Whether there was an actor can be told from the bytes, for a first-version presentation. */
  lemma ActorTold(a: Candidate, b: Candidate, x: seq<Byte>, y: seq<Byte>)
    requires CandidateHeld(a) && CandidateHeld(b) && a.presentation.version == b.presentation.version == 1
    requires Encode(ActorFields(a.actor)) + (Encode(DisplayFields(a)) + x) == Encode(ActorFields(b.actor)) + (Encode(DisplayFields(b)) + y)
    ensures a.actor.None? ==> b.actor.None?
  {
    if a.actor.None? && b.actor.Some? {
      var p, q := Encode(DisplayFields(a)) + x, Encode(DisplayFields(b)) + y;
      var name := Utf8(b.actor.value.displayName);
      AfterNoActor(b.actor.value, p, q);
      var first, rest := DisplayBytes(a, x);
      var first', rest' := DisplayBytes(b, y);
      Utf8Length(b.actor.value.displayName);
      Utf8Length(a.presentation.title);
      Utf8Length(a.presentation.summary);
      MistakenActor(name, Utf8(a.presentation.title), Utf8(a.presentation.summary), rest, first');
    }
  }

  lemma AfterNoActor(actor: Actor, p: seq<Byte>, q: seq<Byte>)
    requires Held(actor.actorId) && Encode(ActorFields(None)) + p == Encode(ActorFields(Some(actor))) + q
    ensures p == U64(|Utf8(actor.displayName)|) + (Utf8(actor.displayName) + q)
  {
    var fs := ActorFields(Some(actor));
    var id, name := Utf8(actor.actorId), Utf8(actor.displayName);
    Utf8Length(actor.actorId);
    EncodeFirst(ActorFields(None), p);
    EncodeFirst(fs, q);
    EncodeFirst(fs[1..], q);
    assert Encode([]) + p == p;
    var after := Encode(fs[1..]) + q;
    Assoc(U64(|id|), id, after);
    U64Split(0, |id|, p, id + after);
    assert id + after == after;
    assert fs[1..][1..] == [] && Encode([]) + q == q;
    Assoc(U64(|name|), name, q);
  }

  lemma ActorsForms(a: Option<Actor>, b: Option<Actor>)
    requires a.Some? == b.Some? && (a.Some? ==> Held(a.value.actorId) && Held(a.value.displayName))
    ensures SameForms(ActorFields(a), ActorFields(b)) && FieldsOk(ActorFields(a))
  {
  }

  lemma ActorsSplit(a: Candidate, b: Candidate, x: seq<Byte>, y: seq<Byte>)
    requires CandidateHeld(a) && CandidateHeld(b) && a.presentation.version == b.presentation.version == 1
    requires Encode(ActorFields(a.actor)) + (Encode(DisplayFields(a)) + x) == Encode(ActorFields(b.actor)) + (Encode(DisplayFields(b)) + y)
    ensures a.actor == b.actor && Encode(DisplayFields(a)) + x == Encode(DisplayFields(b)) + y
  {
    ActorTold(a, b, x, y);
    ActorTold(b, a, y, x);
    ActorsForms(a.actor, b.actor);
    ActorsForms(b.actor, a.actor);
    FieldsSplit(ActorFields(a.actor), ActorFields(b.actor), Encode(DisplayFields(a)) + x, Encode(DisplayFields(b)) + y);
    if a.actor.Some? {
      var f, g := ActorFields(a.actor), ActorFields(b.actor);
      assert f[0] == g[0] && f[1] == g[1];
    }
  }

  lemma {:induction false} DigestsSplit(a: seq<Subject>, b: seq<Subject>, digest: SubDigest)
    requires |a| == |b| && Digests(a, digest) == Digests(b, digest) && Sized(digest)
    ensures forall i :: 0 <= i < |a| ==> digest(a[i]) == digest(b[i])
  {
    if a != [] {
      Cut(digest(a[0]), Digests(a[1..], digest), digest(b[0]), Digests(b[1..], digest));
      DigestsSplit(a[1..], b[1..], digest);
      assert forall i :: 1 <= i < |a| ==> a[i] == a[1..][i - 1] && b[i] == b[1..][i - 1];
    }
  }

  lemma DisplaySplit(a: Candidate, b: Candidate, digest: SubDigest)
    requires CandidateHeld(a) && CandidateHeld(b) && Sized(digest)
    requires Encode(DisplayFields(a)) + Digests(a.subjects, digest) == Encode(DisplayFields(b)) + Digests(b.subjects, digest)
    ensures a.presentation == b.presentation && |a.subjects| == |b.subjects|
    ensures forall i :: 0 <= i < |a.subjects| ==> digest(a.subjects[i]) == digest(b.subjects[i])
  {
    DisplayForms(a, b);
    DisplayForms(b, a);
    var f, g := DisplayFields(a), DisplayFields(b);
    FieldsSplit(f, g, Digests(a.subjects, digest), Digests(b.subjects, digest));
    assert f[0] == g[0] && f[1] == g[1] && f[2] == g[2] && f[3] == g[3];
    DigestsSplit(a.subjects, b.subjects, digest);
  }

  /** Two candidates of the registered presentation version hash the same bytes exactly when they report the
      same fact. */
  lemma PreimageInjective(tag: seq<Byte>, a: Candidate, b: Candidate, digest: SubDigest)
    requires CandidateHeld(a) && CandidateHeld(b) && Sized(digest)
    requires a.presentation.version == b.presentation.version == 1
    ensures Preimage(tag, a, digest) == Preimage(tag, b, digest) <==> SameFact(a, b, digest)
  {
    if Preimage(tag, a, digest) == Preimage(tag, b, digest) {
      PreimageTells(tag, a, b, digest);
    } else if SameFact(a, b, digest) {
      IdentityTells(a, b);
      LinksTell(a, b);
      SameDigests(a.subjects, b.subjects, digest);
    }
  }

  lemma {:induction false} SameDigests(a: seq<Subject>, b: seq<Subject>, digest: SubDigest)
    requires |a| == |b| && forall i :: 0 <= i < |a| ==> digest(a[i]) == digest(b[i])
    ensures Digests(a, digest) == Digests(b, digest)
  {
    if a != [] {
      SameDigests(a[1..], b[1..], digest);
    }
  }

  lemma PreimageTells(tag: seq<Byte>, a: Candidate, b: Candidate, digest: SubDigest)
    requires CandidateHeld(a) && CandidateHeld(b) && Sized(digest)
    requires a.presentation.version == b.presentation.version == 1
    requires Preimage(tag, a, digest) == Preimage(tag, b, digest)
    ensures SameFact(a, b, digest)
  {
    var da, db := Encode(DisplayFields(a)) + Digests(a.subjects, digest), Encode(DisplayFields(b)) + Digests(b.subjects, digest);
    var aa, ab := Encode(ActorFields(a.actor)) + da, Encode(ActorFields(b.actor)) + db;
    var la, lb := Encode(LinkFields(a)) + aa, Encode(LinkFields(b)) + ab;
    Cut(tag, Encode(IdentityFields(a)) + la, tag, Encode(IdentityFields(b)) + lb);
    IdentityForms(a, b);
    IdentityForms(b, a);
    FieldsSplit(IdentityFields(a), IdentityFields(b), la, lb);
    LinkForms(a, b);
    LinkForms(b, a);
    FieldsSplit(LinkFields(a), LinkFields(b), aa, ab);
    ActorsSplit(a, b, Digests(a.subjects, digest), Digests(b.subjects, digest));
    DisplaySplit(a, b, digest);
    IdentityTells(a, b);
    LinksTell(a, b);
  }

  // ----- with the hash function -----

  /** SHA-256 as far as it matters here: 32 bytes. */
  type Sha = seq<Byte> -> seq<Byte>

  ghost function SubjectDigest(sha: Sha): SubDigest {
    s => sha(SubjectPreimage(s))
  }

  ghost predicate Hashes(sha: Sha) {
    forall x :: |sha(x)| == 32
  }

  lemma SubjectDigestSized(sha: Sha)
    requires Hashes(sha)
    ensures Sized(SubjectDigest(sha))
  {
    forall s
      ensures |SubjectDigest(sha)(s)| == 32
    {
      var x := SubjectPreimage(s);
      assert |sha(x)| == 32;
    }
  }

  ghost function CanonicalHash(tag: seq<Byte>, c: Candidate, sha: Sha): seq<Byte> {
    sha(Preimage(tag, c, SubjectDigest(sha)))
  }

  /** The hash function does not confuse these two byte strings. */
  predicate NoCollision(sha: Sha, x: seq<Byte>, y: seq<Byte>) {
    sha(x) == sha(y) ==> x == y
  }

  ghost predicate SubjectsApart(sha: Sha, a: seq<Subject>, b: seq<Subject>) {
    forall s, t :: s in a && t in b ==> NoCollision(sha, SubjectPreimage(s), SubjectPreimage(t))
  }

  predicate SubjectsHeld(subjects: seq<Subject>) {
    forall s :: s in subjects ==> SubjectHeld(s)
  }

  lemma SubjectsTold(a: seq<Subject>, b: seq<Subject>, sha: Sha)
    requires SubjectsHeld(a) && SubjectsHeld(b) && SubjectsApart(sha, a, b)
    requires |a| == |b| && forall i :: 0 <= i < |a| ==> SubjectDigest(sha)(a[i]) == SubjectDigest(sha)(b[i])
    ensures a == b
  {
    forall i | 0 <= i < |a|
      ensures a[i] == b[i]
    {
      assert a[i] in a && b[i] in b && SubjectDigest(sha)(a[i]) == SubjectDigest(sha)(b[i]);
      assert NoCollision(sha, SubjectPreimage(a[i]), SubjectPreimage(b[i]));
      SubjectPreimageInjective(a[i], b[i]);
    }
  }

  /** Candidates of the registered presentation version with one canonical hash are the same fact, subjects
      included, up to times within one microsecond. */
  lemma SameHashSameFact(tag: seq<Byte>, a: Candidate, b: Candidate, sha: Sha)
    requires CandidateHeld(a) && CandidateHeld(b) && a.presentation.version == b.presentation.version == 1
    requires SubjectsHeld(a.subjects) && SubjectsHeld(b.subjects) && SubjectsApart(sha, a.subjects, b.subjects)
    requires Hashes(sha) && NoCollision(sha, Preimage(tag, a, SubjectDigest(sha)), Preimage(tag, b, SubjectDigest(sha)))
    requires CanonicalHash(tag, a, sha) == CanonicalHash(tag, b, sha)
    ensures SameBut(a, b) && a.subjects == b.subjects
  {
    SubjectDigestSized(sha);
    PreimageTells(tag, a, b, SubjectDigest(sha));
    SubjectsTold(a.subjects, b.subjects, sha);
  }

  // ----- why the presentation version matters -----

  function Ascii(bytes: seq<Byte>): string
    requires forall i :: 0 <= i < |bytes| ==> bytes[i] < 128
  {
    seq(|bytes|, i requires 0 <= i < |bytes| => bytes[i] as char)
  }

  lemma {:induction false} AsciiUtf8(bytes: seq<Byte>)
    requires forall i :: 0 <= i < |bytes| ==> bytes[i] < 128
    ensures Utf8(Ascii(bytes)) == bytes
  {
    if bytes != [] {
      assert Ascii(bytes)[1..] == Ascii(bytes[1..]);
      AsciiUtf8(bytes[1..]);
    }
  }

  /** A small number as eight bytes. */
  function Eight(n: nat): (r: seq<Byte>)
    requires n < 128
    ensures r == U64(n)
  {
    ZeroBytes(7);
    assert U64(n) == BigEndian(0, 7) + [n];
    [0, 0, 0, 0, 0, 0, 0, n]
  }

  /** A display name spelling out the title "t" and the length of a 25-byte summary. */
  function SpelledName(): string {
    Ascii(Eight(1) + [116] + Eight(25))
  }

  /** A summary spelling out version 1, the title "x" and an empty summary. */
  function SpelledSummary(): string {
    Ascii(Eight(1) + Eight(1) + [120] + Eight(0))
  }

  lemma NameSpelled()
    ensures Utf8(SpelledName()) == U64(1) + Utf8("t") + U64(25) && |Utf8(SpelledName())| == 17
  {
    AsciiUtf8(Eight(1) + [116] + Eight(25));
    assert Utf8("t") == [116];
  }

  lemma SummarySpelled()
    ensures Utf8(SpelledSummary()) == U64(1) + U64(1) + Utf8("x") + U64(0) && |Utf8(SpelledSummary())| == 25
  {
    AsciiUtf8(Eight(1) + Eight(1) + [120] + Eight(0));
    assert Utf8("x") == [120];
  }

  /** Without the version check a nameless event and one by an actor with an empty id can hash the same bytes. */
  lemma VersionsCanCollide(tag: seq<Byte>, c: Candidate, digest: SubDigest)
    ensures var a := c.(actor := None, presentation := Presentation(17, "t", SpelledSummary()));
            var b := c.(actor := Some(Actor("", SpelledName())), presentation := Presentation(1, "x", ""));
            Preimage(tag, a, digest) == Preimage(tag, b, digest) && a.actor != b.actor
  {
    var a := c.(actor := None, presentation := Presentation(17, "t", SpelledSummary()));
    var b := c.(actor := Some(Actor("", SpelledName())), presentation := Presentation(1, "x", ""));
    var d := Digests(c.subjects, digest);
    CollidingBytes(|c.subjects|, d);
    assert Encode(ActorFields(a.actor)) + (Encode(DisplayFields(a)) + d) == Encode(ActorFields(b.actor)) + (Encode(DisplayFields(b)) + d);
  }

  lemma CollidingBytes(n: nat, d: seq<Byte>)
    ensures Encode([Num(0)]) + (Encode([Num(17), Text("t"), Text(SpelledSummary()), Num(n)]) + d) ==
            Encode([Text(""), Text(SpelledName())]) + (Encode([Num(1), Text("x"), Text(""), Num(n)]) + d)
  {
    NameSpelled();
    SummarySpelled();
    var name, summary := Utf8(SpelledName()), Utf8(SpelledSummary());
    Unfold1(Num(0), Encode([Num(17), Text("t"), Text(SpelledSummary()), Num(n)]) + d);
    Unfold4(Num(17), Text("t"), Text(SpelledSummary()), Num(n), d);
    Unfold4(Num(1), Text("x"), Text(""), Num(n), d);
    Unfold2(Text(""), Text(SpelledName()), Encode([Num(1), Text("x"), Text(""), Num(n)]) + d);
    Regroup(U64(0), U64(17), U64(1), Utf8("t"), U64(25), Utf8("x"), U64(n), d);
    assert FieldBytes(Text("")) == U64(0);
    assert FieldBytes(Text("t")) == U64(1) + Utf8("t") && FieldBytes(Text("x")) == U64(1) + Utf8("x");
  }

  lemma Regroup(zero: seq<Byte>, v: seq<Byte>, one: seq<Byte>, t: seq<Byte>, len: seq<Byte>, x: seq<Byte>, n: seq<Byte>,
                d: seq<Byte>)
    ensures zero + (v + (one + t) + (len + (one + one + x + zero) + n + d)) ==
            zero + (v + (one + t + len)) + (one + (one + x) + (zero + n + d))
  {
    var rest := one + one + x + zero + n + d;
    assert len + (one + one + x + zero) + n + d == len + rest;
    assert one + (one + x) + (zero + n + d) == rest;
    assert v + (one + t) + (len + rest) == v + (one + t + len) + rest;
  }

  lemma Unfold1(f: Field, d: seq<Byte>)
    ensures Encode([f]) + d == FieldBytes(f) + d
  {
    EncodeFirst([f], d);
    assert Encode([]) + d == d;
  }

  lemma Unfold2(f: Field, g: Field, d: seq<Byte>)
    ensures Encode([f, g]) + d == FieldBytes(f) + FieldBytes(g) + d
  {
    EncodeFirst([f, g], d);
    assert [f, g][1..] == [g];
    Unfold1(g, d);
    Assoc(FieldBytes(f), FieldBytes(g), d);
  }

  lemma Unfold4(f: Field, g: Field, h: Field, k: Field, d: seq<Byte>)
    ensures Encode([f, g, h, k]) + d == FieldBytes(f) + FieldBytes(g) + (FieldBytes(h) + FieldBytes(k) + d)
  {
    EncodeJoins([f, g], [h, k]);
    assert [f, g] + [h, k] == [f, g, h, k];
    Assoc(Encode([f, g]), Encode([h, k]), d);
    Unfold2(h, k, d);
    Unfold2(f, g, Encode([h, k]) + d);
  }

  // ----- activity identifiers -----

  function IdFields(project: string, source: SourceIdentity, kind: string): seq<Field> {
    [Text(project), Text(source.kind), Text(source.eventId), Text(kind), Num(source.version as nat)]
  }

  function IdPreimage(tag: seq<Byte>, project: string, source: SourceIdentity, kind: string): seq<Byte> {
    tag + Encode(IdFields(project, source, kind))
  }

  lemma IdForms(p: string, s: SourceIdentity, k: string, p': string, s': SourceIdentity, k': string)
    requires Held(p) && Held(s.kind) && Held(s.eventId) && Held(k)
    ensures SameForms(IdFields(p, s, k), IdFields(p', s', k')) && FieldsOk(IdFields(p, s, k))
  {
  }

  /** An activity id is derived from bytes that name the project, the whole source identity and the kind. */
  lemma IdPreimageInjective(tag: seq<Byte>, p: string, s: SourceIdentity, k: string, p': string, s': SourceIdentity,
                            k': string)
    requires Held(p) && Held(s.kind) && Held(s.eventId) && Held(k) && Held(p') && Held(s'.kind) && Held(s'.eventId)
    requires Held(k')
    requires IdPreimage(tag, p, s, k) == IdPreimage(tag, p', s', k')
    ensures p == p' && s == s' && k == k'
  {
    var f, g := IdFields(p, s, k), IdFields(p', s', k');
    Cut(tag, Encode(f), tag, Encode(g));
    IdForms(p, s, k, p', s', k');
    IdForms(p', s', k', p, s, k);
    assert Encode(f) + [] == Encode(g) + [];
    FieldsSplit(f, g, [], []);
    assert f[0] == g[0] && f[1] == g[1] && f[2] == g[2] && f[3] == g[3] && f[4] == g[4];
  }
}
