/** Activity events and their identities (internal/center/activity/types.go and source.go). */
module ActivityTypes {
  import opened Text

  /** Nanoseconds since Go's zero time, so 0 is `IsZero()`. */
  type Time = nat

  const EVENT_KINDS: set<string> := {
    "record_created", "record_revised", "record_restored", "record_archived", "record_unarchived",
    "record_owner_changed", "record_participant_changed", "record_follow_up_changed",
    "comment_created", "comment_edited", "comment_redacted",
    "action_created", "action_updated", "action_completed", "action_cancelled", "action_reopened",
    "evidence_captured", "asset_fact_changed", "monitoring_state_changed", "command_executed" }

  const RECORDS_VIEW_KINDS: set<string> := {
    "record_created", "record_revised", "record_restored", "record_archived", "record_unarchived",
    "record_owner_changed", "record_participant_changed", "record_follow_up_changed" }

  const SOURCE_KINDS: set<string> := {
    "record_domain", "evidence_snapshot", "asset_history", "monitoring_event", "command_audit" }

  datatype SourceIdentity = SourceIdentity(kind: string, eventId: string, version: uint64)

  datatype Actor = Actor(actorId: string, displayName: string)

  datatype Subject = Subject(
    kind: string, sourceId: string, role: string, primary: bool,
    identity: map<string, string>, liveRoute: string, tombstoned: bool)

  datatype Presentation = Presentation(version: uint64, title: string, summary: string)

  datatype Candidate = Candidate(
    activityId: string,
    source: SourceIdentity,
    eventKind: string,
    eventAt: Time,
    recordedAt: Time,
    backfilled: bool,
    actor: Option<Actor>,
    subjects: seq<Subject>,
    presentation: Presentation,
    corrects: string,
    severity: string,
    recordId: string,
    revisionId: string,
    evidenceId: string,
    revisionNo: uint64,
    opensRevision: bool,
    canonicalHash: string)

  predicate LowerAlnum(c: char) { 'a' <= c <= 'z' || '0' <= c <= '9' }

  predicate ValidSourceIdentity(s: SourceIdentity) {
    && s.kind in SOURCE_KINDS
    && 1 <= |s.eventId| <= 128
    && (forall i :: 0 <= i < |s.eventId| ==> LowerAlnum(s.eventId[i]) || s.eventId[i] == '_' || s.eventId[i] == '-')
    && s.version != 0
  }

  predicate ValidActivityId(id: string) {
    && 5 <= |id| <= 68 && id[..4] == "act_"
    && forall i :: 4 <= i < |id| ==> LowerAlnum(id[i])
  }

  predicate ValidPresentation(p: Presentation) {
    && p.version == 1
    && 0 < |TrimSpace(p.title)| <= 256
    && |p.summary| <= 512
  }

  // ----- keyset order -----

  /** (recordedAt, eventId) order, the order every source is scanned in. */
  predicate KeyLess(at: int, id: string, at': int, id': string) {
    at < at' || (at == at' && Less(id, id'))
  }

  predicate Before(a: Candidate, b: Candidate) {
    KeyLess(a.recordedAt, a.source.eventId, b.recordedAt, b.source.eventId)
  }

  predicate SameKey(a: Candidate, b: Candidate) {
    a.recordedAt == b.recordedAt && a.source.eventId == b.source.eventId
  }

  lemma BeforeTransitive(a: Candidate, b: Candidate, c: Candidate)
    requires Before(a, b) && Before(b, c)
    ensures Before(a, c)
  {
    if a.recordedAt == b.recordedAt == c.recordedAt {
      LessTransitive(a.source.eventId, b.source.eventId, c.source.eventId);
    }
  }

  lemma BeforeTotal(a: Candidate, b: Candidate)
    ensures Before(a, b) || SameKey(a, b) || Before(b, a)
    ensures !Before(a, a) && !(Before(a, b) && Before(b, a))
  {
    LessTotal(a.source.eventId, b.source.eventId);
    LessIrreflexive(a.source.eventId);
    if Less(a.source.eventId, b.source.eventId) {
      LessAsymmetric(a.source.eventId, b.source.eventId);
    }
  }
}
