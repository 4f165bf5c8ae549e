/** Page tokens: sealing a page position and binding it to a question, an actor, a generation and a moment
    (internal/center/activity/cursor.go). */
module Cursors {
  import opened Text
  import opened ActivityTypes
  import opened Bytes
  import opened CanonicalHash
  import opened Queries
  import opened CursorText

  /** The position of the last row on a page; empty for a token that only freezes the watermark. */
  datatype SortKey = SortKey(eventAt: Time, recordedAt: Time, sourceKind: string, activityId: string)

  const NO_KEY := SortKey(0, 0, "", "")

  predicate ValidSortKey(k: SortKey) {
    k == NO_KEY || (k.eventAt != 0 && k.recordedAt != 0 && k.sourceKind in SOURCE_KINDS && ValidActivityId(k.activityId))
  }

  datatype CursorValues<A> = CursorValues(query: Query, actor: A, generation: uint64, asOf: uint64, expiresAt: Time,
                                          sortKey: SortKey)

  datatype Cursor = Cursor(generation: uint64, asOf: uint64, expiresAt: Time, sortKey: SortKey)

  datatype CursorError = Invalid | Expired

  datatype Answer<T> = Ok(value: T) | Err(error: CursorError)

  /** What a client can present. Sealing is ideal: only the codec that sealed a plaintext opens it. */
  datatype Token = NoToken | Garbage(text: string) | Sealed(key: nat, nonce: nat, plaintext: seq<Byte>)

  type Issued = t: Token | t.Sealed? witness Sealed(0, 0, [])

  /** The deployment's key, the hex digest function with the query's domain tag, and the actor registry. */
  datatype Codec<!A> = Codec(key: nat, tag: seq<Byte>, hash: seq<Byte> -> string, normalize: A -> Option<A>,
                             actorDigest: A -> string)

  // ----- times -----

  function Micro64(t: Time): int64 {
    if MicroFits(t) then UnixMicro(t) else 0
  }

  function FromMicro(m: int): Time {
    if m + 62_135_596_800_000_000 < 0 then 0 else (m + 62_135_596_800_000_000) * 1000
  }

  lemma MicroRoundTrip(t: Time)
    requires MicroFits(t)
    ensures FromMicro(Micro64(t)) == Bound(t)
  {
  }

  // ----- encoding -----

  function QueryDigest<A>(codec: Codec<A>, q: Query): string {
    codec.hash(if q.limit >= 0 then QueryPreimage(codec.tag, q) else codec.tag)
  }

  function BindingDigests<A>(codec: Codec<A>, q: Query, actor: A): Option<(string, string)> {
    if !q.normalized then None
    else
      match codec.normalize(actor)
      case None => None
      case Some(a) => Some((QueryDigest(codec, q), codec.actorDigest(a)))
  }

  function EnvelopeOf<A>(digests: (string, string), v: CursorValues<A>): Envelope {
    var keyed := v.sortKey != NO_KEY;
    Envelope(1, digests.0, digests.1, v.generation, v.asOf, Micro64(v.expiresAt),
             if keyed then Micro64(v.sortKey.eventAt) else 0, if keyed then Micro64(v.sortKey.recordedAt) else 0,
             v.sortKey.sourceKind, v.sortKey.activityId)
  }

  function Encode<A>(codec: Codec<A>, v: CursorValues<A>, nonce: nat): Option<Issued> {
    match BindingDigests(codec, v.query, v.actor)
    case None => None
    case Some(digests) =>
      if v.generation == 0 || v.expiresAt == 0 || !ValidSortKey(v.sortKey) then None
      else
        match Pad(Payload(EnvelopeOf(digests, v)))
        case None => None
        case Some(padded) => Some(Sealed(codec.key, nonce, padded))
  }

  // ----- binding -----

  function Bind<A>(codec: Codec<A>, token: Token, q: Query, actor: A, generation: uint64, now: Time): Answer<Cursor> {
    match BindingDigests(codec, q, actor)
    case None => Err(Invalid)
    case Some(digests) =>
      if generation == 0 || now == 0 || !token.Sealed? || token.key != codec.key then Err(Invalid)
      else
        match Unpad(token.plaintext)
        case None => Err(Invalid)
        case Some(payload) =>
          match Unmarshal(payload)
          case None => Err(Invalid)
          case Some(e) => BindEnvelope(digests, e, generation, now)
  }

  function BindEnvelope(digests: (string, string), e: Envelope, generation: uint64, now: Time): Answer<Cursor> {
    if e.version != 1 then Err(Expired)
    else if e.query != digests.0 || e.actor != digests.1 then Err(Invalid)
    else if e.generation != generation then Err(Expired)
    else if e.expiresAt == 0 then Err(Invalid)
    else if !(now < FromMicro(e.expiresAt)) then Err(Expired)
    else
      var keyed := e.eventAt != 0 || e.recordedAt != 0 || e.sourceKind != "" || e.activityId != "";
      var key := if keyed then SortKey(FromMicro(e.eventAt), FromMicro(e.recordedAt), e.sourceKind, e.activityId) else NO_KEY;
      if keyed && !ValidSortKey(key) then Err(Invalid)
      else Ok(Cursor(e.generation, e.asOf, FromMicro(e.expiresAt), key))
  }

  // ----- what is promised -----

  ghost predicate HexDigests<A(!new)>(codec: Codec<A>) {
    && (forall x :: Plain(codec.hash(x)) && |codec.hash(x)| == 64)
    && forall a :: Plain(codec.actorDigest(a)) && |codec.actorDigest(a)| == 64
  }

  predicate Encodable<A>(codec: Codec<A>, v: CursorValues<A>) {
    v.query.normalized && codec.normalize(v.actor).Some? && v.generation != 0 && v.expiresAt != 0 && ValidSortKey(v.sortKey)
  }

  lemma SourceKindsPlain(kind: string)
    requires kind in SOURCE_KINDS
    ensures Plain(kind) && 1 <= |kind| <= 17
  {
  }

  lemma SortKeyPlain(k: SortKey)
    requires ValidSortKey(k)
    ensures Plain(k.sourceKind) && Plain(k.activityId) && |k.sourceKind| <= 17 && |k.activityId| <= 68
  {
    if k != NO_KEY {
      SourceKindsPlain(k.sourceKind);
      var id := k.activityId;
      forall i | 0 <= i < |id|
        ensures PlainChar(id[i])
      {
        assert i < 4 ==> id[i] == id[..4][i];
      }
    }
  }

  lemma EnvelopeBounded<A(!new)>(codec: Codec<A>, v: CursorValues<A>)
    requires HexDigests(codec) && Encodable(codec, v)
    ensures BindingDigests(codec, v.query, v.actor).Some?
    ensures Bounded(EnvelopeOf(BindingDigests(codec, v.query, v.actor).value, v))
  {
    SortKeyPlain(v.sortKey);
  }

  /** Encoding fails only on bad values: a payload always fits its bucket. */
  lemma EncodeNeverOverflows<A(!new)>(codec: Codec<A>, v: CursorValues<A>, nonce: nat)
    requires HexDigests(codec)
    ensures Encode(codec, v, nonce).Some? <==> Encodable(codec, v)
    ensures Encode(codec, v, nonce).Some? ==> |Encode(codec, v, nonce).value.plaintext| == BUCKET
  {
    if Encodable(codec, v) {
      EnvelopeBounded(codec, v);
      var e := EnvelopeOf(BindingDigests(codec, v.query, v.actor).value, v);
      PayloadFits(e);
      UnpadPad(Payload(e));
    }
  }

  /** A token opens to what was sealed in it. */
  lemma BindOpens<A(!new)>(codec: Codec<A>, v: CursorValues<A>, nonce: nat, q: Query, actor: A, generation: uint64,
                           now: Time)
    requires HexDigests(codec) && Encodable(codec, v) && BindingDigests(codec, q, actor).Some? && generation != 0
    requires now != 0
    ensures Encode(codec, v, nonce).Some?
    ensures Bind(codec, Encode(codec, v, nonce).value, q, actor, generation, now) ==
            BindEnvelope(BindingDigests(codec, q, actor).value,
                         EnvelopeOf(BindingDigests(codec, v.query, v.actor).value, v), generation, now)
  {
    EncodeNeverOverflows(codec, v, nonce);
    EnvelopeBounded(codec, v);
    var e := EnvelopeOf(BindingDigests(codec, v.query, v.actor).value, v);
    PayloadFits(e);
    UnpadPad(Payload(e));
    Unmarshals(e);
  }

  function Truncated(k: SortKey): SortKey {
    SortKey(Bound(k.eventAt), Bound(k.recordedAt), k.sourceKind, k.activityId)
  }

  /** A key whose times are not lost to microseconds. */
  predicate Survives(k: SortKey) {
    k == NO_KEY || (Bound(k.eventAt) != 0 && Bound(k.recordedAt) != 0)
  }

  predicate TimesFit<A>(v: CursorValues<A>) {
    MicroFits(v.expiresAt) && MicroFits(v.sortKey.eventAt) && MicroFits(v.sortKey.recordedAt)
  }

  /** The digests in the token are those of the request. */
  predicate Matches<A>(codec: Codec<A>, v: CursorValues<A>, q: Query, actor: A) {
    BindingDigests(codec, q, actor).Some? && BindingDigests(codec, q, actor) == BindingDigests(codec, v.query, v.actor)
  }

  lemma EnvelopeBinds<A(!new)>(v: CursorValues<A>, digests: (string, string), sealing: (string, string),
                               generation: uint64, now: Time)
    requires TimesFit(v) && ValidSortKey(v.sortKey)
    ensures var r := BindEnvelope(digests, EnvelopeOf(sealing, v), generation, now);
            && (r.Ok? <==>
                  digests == sealing && generation == v.generation && UnixMicro(v.expiresAt) != 0 && now < Bound(v.expiresAt)
                           && Survives(v.sortKey))
            && (r.Ok? ==> r.value == Cursor(v.generation, v.asOf, Bound(v.expiresAt), Truncated(v.sortKey)))
            && (r == Err(Expired) <==>
                  digests == sealing && (generation != v.generation || (UnixMicro(v.expiresAt) != 0 && now >= Bound(v.expiresAt))))
  {
    MicroRoundTrip(v.expiresAt);
    MicroRoundTrip(v.sortKey.eventAt);
    MicroRoundTrip(v.sortKey.recordedAt);
    if v.sortKey != NO_KEY {
      SourceKindsPlain(v.sortKey.sourceKind);
    }
  }

  /** The digest functions do not confuse these two requests. */
  ghost predicate Apart<A>(codec: Codec<A>, v: CursorValues<A>, q: Query, actor: A) {
    && (QueryDigest(codec, v.query) == QueryDigest(codec, q) && v.query.limit >= 0 && q.limit >= 0 ==>
          QueryPreimage(codec.tag, v.query) == QueryPreimage(codec.tag, q))
    && var a, b := codec.normalize(v.actor), codec.normalize(actor);
       a.Some? && b.Some? && codec.actorDigest(a.value) == codec.actorDigest(b.value) ==> a == b
  }

  lemma MatchesMeans<A(!new)>(codec: Codec<A>, v: CursorValues<A>, asked: Query, asking: Query, actor: A)
    requires v.query == Normal(asked) && QueryHeld(Normal(asked)) && QueryHeld(Normal(asking))
    requires codec.normalize(v.actor).Some?
    requires Apart(codec, v, Normal(asking), actor)
    ensures Matches(codec, v, Normal(asking), actor) <==>
      SameQuestion(asked, asking) && codec.normalize(actor) == codec.normalize(v.actor)
  {
    DigestBindsQuestion(codec.tag, asked, asking);
    SameQuestionSameNormal(asked, asking);
  }

  /** A token binds to the question it was sealed for up to order and repeats of its filters, to its actor and
      generation, and until it expires; it then gives back the position to the microsecond. It is called
      expired only when question and actor are its own. */
  lemma BindExactly<A(!new)>(codec: Codec<A>, v: CursorValues<A>, nonce: nat, asked: Query, asking: Query, actor: A,
                             generation: uint64, now: Time)
    requires HexDigests(codec) && Encodable(codec, v) && TimesFit(v)
    requires v.query == Normal(asked) && QueryHeld(Normal(asked)) && QueryHeld(Normal(asking))
    requires Apart(codec, v, Normal(asking), actor)
    ensures Encode(codec, v, nonce).Some?
    ensures var r := Bind(codec, Encode(codec, v, nonce).value, Normal(asking), actor, generation, now);
            var own := SameQuestion(asked, asking) && codec.normalize(actor) == codec.normalize(v.actor);
            && (r.Ok? <==>
                  own && generation == v.generation && now != 0 && UnixMicro(v.expiresAt) != 0 && now < Bound(v.expiresAt)
                           && Survives(v.sortKey))
            && (r.Ok? ==> r.value == Cursor(v.generation, v.asOf, Bound(v.expiresAt), Truncated(v.sortKey)))
            && (r == Err(Expired) <==>
                  own && generation != 0 && now != 0 && (generation != v.generation || (UnixMicro(v.expiresAt) != 0 && now >= Bound(v.expiresAt))))
  {
    EncodeNeverOverflows(codec, v, nonce);
    MatchesMeans(codec, v, asked, asking, actor);
    var q := Normal(asking);
    if BindingDigests(codec, q, actor).Some? && generation != 0 && now != 0 {
      BindOpens(codec, v, nonce, q, actor, generation, now);
      EnvelopeBinds(v, BindingDigests(codec, q, actor).value, BindingDigests(codec, v.query, v.actor).value, generation,
                    now);
    }
  }
}
