/** The published projection as the page queries read it (internal/center/store/record_activity.go and
    record_activity_query.go). */
module PageStore {
  import opened Text
  import opened ActivityTypes
  import opened Queries

  /** A published row. Its ingest sequence is its position in the store, counted from 1. */
  datatype Row = Row(
    activityId: string, eventKind: string, eventAt: Time, recordedAt: Time, sourceKind: string, subjects: set<SubjectRef>,
    auth: string, recordId: string, revisionId: string, revisionNo: uint64, opensRevision: bool)

  /** When a revision was a record's current one, in ingest sequences, from inclusive to exclusive. */
  datatype Interval = Interval(recordId: string, revisionId: string, revisionNo: uint64, from: nat, to: Option<nat>)

  datatype Store = Store(rows: seq<Row>, intervals: seq<Interval>) {
    function Published(): nat { |rows| }
  }

  // ----- publication -----

  predicate IsOpen(i: Interval, recordId: string) {
    i.recordId == recordId && i.to == None
  }

  function CloseOpen(intervals: seq<Interval>, recordId: string, sequence: nat): seq<Interval> {
    seq(|intervals|, k requires 0 <= k < |intervals| =>
      if IsOpen(intervals[k], recordId) then intervals[k].(to := Some(sequence)) else intervals[k])
  }

  function OpenOf(intervals: seq<Interval>, recordId: string): Option<Interval> {
    if intervals == [] then None
    else if IsOpen(intervals[0], recordId) then Some(intervals[0])
    else OpenOf(intervals[1..], recordId)
  }

  /** openRevisionInterval: a newer revision becomes current, an older one does not, the open one is a conflict. */
  function OpenRevision(intervals: seq<Interval>, row: Row, sequence: nat): Option<seq<Interval>> {
    var opening := [Interval(row.recordId, row.revisionId, row.revisionNo, sequence, None)];
    match OpenOf(intervals, row.recordId)
    case None => Some(intervals + opening)
    case Some(current) =>
      if current.revisionId == row.revisionId then None
      else if current.revisionNo >= row.revisionNo then Some(intervals)
      else Some(CloseOpen(intervals, row.recordId, sequence) + opening)
  }

  /** One missing row takes the next sequence number. */
  function PublishRow(s: Store, row: Row): Option<Store> {
    if exists r :: r in s.rows && r.activityId == row.activityId then None
    else
      var sequence := |s.rows| + 1;
      if !row.opensRevision then Some(Store(s.rows + [row], s.intervals))
      else
        match OpenRevision(s.intervals, row, sequence)
        case None => None
        case Some(intervals) => Some(Store(s.rows + [row], intervals))
  }

  /** A transaction publishes its missing rows or none. */
  function Publish(s: Store, rows: seq<Row>): Option<Store>
    decreases |rows|
  {
    if rows == [] then Some(s)
    else
      match PublishRow(s, rows[0])
      case None => None
      case Some(next) => Publish(next, rows[1..])
  }

  /** Rows are told apart by their ids. */
  ghost predicate Distinct(s: Store) {
    forall i, j :: 0 <= i < j < |s.rows| ==> s.rows[i].activityId != s.rows[j].activityId
  }

  // ----- what a page may show -----

  datatype Access = Access(unrestricted: bool, allowed: set<string>)

  /** The revision was current at the watermark. */
  ghost predicate CurrentAt(intervals: seq<Interval>, row: Row, asOf: nat) {
    exists i :: i in intervals && i.recordId == row.recordId && i.revisionId == row.revisionId && i.from <= asOf && (i.to.Some? ==> i.to.value > asOf)
  }

  /** Every predicate the query applies before ordering, but for the watermark. */
  ghost predicate Selects(q: Query, access: Access, intervals: seq<Interval>, asOf: nat, row: Row) {
    && q.subject in row.subjects
    && (access.unrestricted || row.auth in access.allowed)
    && (ViewKinds(q.view).Some? ==> row.eventKind in ViewKinds(q.view).value)
    && (q.eventKinds != [] ==> row.eventKind in q.eventKinds)
    && (q.sources != [] ==> row.sourceKind in q.sources)
    && (q.from != 0 ==> row.eventAt >= q.from) && (q.to != 0 ==> row.eventAt <= q.to)
    && (q.versions == "current" ==> row.revisionId == "" || CurrentAt(intervals, row, asOf))
  }

  /** The authorized rows of the question at a watermark. */
  ghost function Visible(s: Store, q: Query, access: Access, asOf: nat): set<Row> {
    set i | 0 <= i < |s.rows| && i < asOf && Selects(q, access, s.intervals, asOf, s.rows[i]) :: s.rows[i]
  }

  // ----- watermarks are stable -----

  /** The intervals agree about every watermark through n. */
  ghost predicate SameThrough(a: seq<Interval>, b: seq<Interval>, n: nat) {
    forall row, asOf: nat :: asOf <= n ==> (CurrentAt(a, row, asOf) <==> CurrentAt(b, row, asOf))
  }

  lemma ClosingKeepsEarlier(intervals: seq<Interval>, recordId: string, sequence: nat)
    requires sequence > 0
    ensures SameThrough(intervals, CloseOpen(intervals, recordId, sequence), sequence - 1)
  {
    var closed := CloseOpen(intervals, recordId, sequence);
    forall row, asOf: nat | asOf <= sequence - 1
      ensures CurrentAt(intervals, row, asOf) <==> CurrentAt(closed, row, asOf)
    {
      if CurrentAt(intervals, row, asOf) {
        var i :| i in intervals && i.recordId == row.recordId && i.revisionId == row.revisionId && i.from <= asOf && (i.to.Some? ==> i.to.value > asOf);
        var k :| 0 <= k < |intervals| && intervals[k] == i;
        assert closed[k] in closed;
      }
      if CurrentAt(closed, row, asOf) {
        var i :| i in closed && i.recordId == row.recordId && i.revisionId == row.revisionId && i.from <= asOf && (i.to.Some? ==> i.to.value > asOf);
        var k :| 0 <= k < |closed| && closed[k] == i;
        assert intervals[k] in intervals;
      }
    }
  }

  lemma OpeningKeepsEarlier(intervals: seq<Interval>, i: Interval, n: nat)
    requires i.from > n
    ensures SameThrough(intervals, intervals + [i], n)
  {
  }

  lemma RevisionKeepsEarlier(intervals: seq<Interval>, row: Row, sequence: nat)
    requires sequence > 0 && OpenRevision(intervals, row, sequence).Some?
    ensures SameThrough(intervals, OpenRevision(intervals, row, sequence).value, sequence - 1)
  {
    var i := Interval(row.recordId, row.revisionId, row.revisionNo, sequence, None);
    var closed := CloseOpen(intervals, row.recordId, sequence);
    ClosingKeepsEarlier(intervals, row.recordId, sequence);
    OpeningKeepsEarlier(intervals, i, sequence - 1);
    OpeningKeepsEarlier(closed, i, sequence - 1);
  }

  /** Publishing never changes what a watermark already covered. */
  ghost predicate Extended(s: Store, t: Store) {
    s.rows <= t.rows && SameThrough(s.intervals, t.intervals, |s.rows|) && (Distinct(s) ==> Distinct(t))
  }

  lemma PublishRowExtends(s: Store, row: Row)
    requires PublishRow(s, row).Some?
    ensures Extended(s, PublishRow(s, row).value)
  {
    if row.opensRevision {
      RevisionKeepsEarlier(s.intervals, row, |s.rows| + 1);
    }
    assert forall i :: 0 <= i < |s.rows| ==> s.rows[i] in s.rows;
  }

  lemma {:induction false} PublishExtends(s: Store, rows: seq<Row>)
    requires Publish(s, rows).Some?
    ensures Extended(s, Publish(s, rows).value)
    decreases |rows|
  {
    if rows != [] {
      var next := PublishRow(s, rows[0]).value;
      PublishRowExtends(s, rows[0]);
      PublishExtends(next, rows[1..]);
      ExtendedOn(s, next, Publish(next, rows[1..]).value);
    }
  }

  lemma ExtendedOn(s: Store, t: Store, u: Store)
    requires Extended(s, t) && Extended(t, u)
    ensures Extended(s, u)
  {
    forall row, asOf: nat | asOf <= |s.rows|
      ensures CurrentAt(s.intervals, row, asOf) <==> CurrentAt(u.intervals, row, asOf)
    {
      assert CurrentAt(s.intervals, row, asOf) <==> CurrentAt(t.intervals, row, asOf);
    }
  }

  /** A question has one answer at a fixed watermark for as long as it is read. */
  lemma WatermarkIsStable(s: Store, t: Store, q: Query, access: Access, asOf: nat)
    requires Extended(s, t) && asOf <= s.Published()
    ensures Visible(s, q, access, asOf) == Visible(t, q, access, asOf)
  {
    forall i | 0 <= i < asOf
      ensures s.rows[i] == t.rows[i]
      ensures Selects(q, access, s.intervals, asOf, s.rows[i]) <==> Selects(q, access, t.intervals, asOf, t.rows[i])
    {
      assert CurrentAt(s.intervals, s.rows[i], asOf) <==> CurrentAt(t.intervals, s.rows[i], asOf);
    }
  }

  // ----- one current revision -----

  predicate Covers(i: Interval, asOf: nat) {
    i.from <= asOf && (i.to.Some? ==> i.to.value > asOf)
  }

  ghost predicate NeverBoth(i: Interval, j: Interval) {
    i.recordId == j.recordId ==>
      !(IsOpen(i, i.recordId) && IsOpen(j, j.recordId)) && forall asOf: nat :: !(Covers(i, asOf) && Covers(j, asOf))
  }

  /** At no watermark does a record have two current revisions, and nothing ends or begins beyond what is published. */
  ghost predicate OneCurrent(intervals: seq<Interval>, published: nat) {
    && (forall k :: 0 <= k < |intervals| ==>
          intervals[k].from <= published && (intervals[k].to.Some? ==> intervals[k].to.value <= published))
    && forall k, l :: 0 <= k < l < |intervals| ==> NeverBoth(intervals[k], intervals[l])
  }

  lemma {:induction false} OpenIsFound(intervals: seq<Interval>, recordId: string)
    ensures OpenOf(intervals, recordId) == None <==> forall k :: 0 <= k < |intervals| ==>
      !IsOpen(intervals[k], recordId)
  {
    if intervals != [] {
      OpenIsFound(intervals[1..], recordId);
      assert forall k :: 1 <= k < |intervals| ==> intervals[k] == intervals[1..][k - 1];
    }
  }

  lemma ClosedApart(intervals: seq<Interval>, recordId: string, sequence: nat)
    requires sequence > 0 && OneCurrent(intervals, sequence - 1)
    ensures OneCurrent(CloseOpen(intervals, recordId, sequence), sequence)
    ensures forall k :: 0 <= k < |intervals| ==> !IsOpen(CloseOpen(intervals, recordId, sequence)[k], recordId)
  {
    var closed := CloseOpen(intervals, recordId, sequence);
    forall k, l | 0 <= k < l < |closed|
      ensures NeverBoth(closed[k], closed[l])
    {
      assert NeverBoth(intervals[k], intervals[l]);
      assert forall asOf: nat :: Covers(closed[k], asOf) ==> Covers(intervals[k], asOf);
      assert forall asOf: nat :: Covers(closed[l], asOf) ==> Covers(intervals[l], asOf);
    }
  }

  lemma OpenedApart(intervals: seq<Interval>, i: Interval, sequence: nat)
    requires OneCurrent(intervals, sequence) && i.from == sequence && i.to == None
    requires forall k :: 0 <= k < |intervals| ==> !IsOpen(intervals[k], i.recordId)
    ensures OneCurrent(intervals + [i], sequence)
  {
    forall k | 0 <= k < |intervals|
      ensures NeverBoth(intervals[k], i)
    {
      assert intervals[k].recordId == i.recordId ==> intervals[k].to.Some?;
    }
  }

  /** Publication keeps one answer to which revision is current at any watermark. */
  lemma PublishKeepsOneCurrent(s: Store, row: Row)
    requires OneCurrent(s.intervals, s.Published()) && PublishRow(s, row).Some?
    ensures OneCurrent(PublishRow(s, row).value.intervals, PublishRow(s, row).value.Published())
  {
    if row.opensRevision {
      var sequence := |s.rows| + 1;
      OpenIsFound(s.intervals, row.recordId);
      ClosedApart(s.intervals, row.recordId, sequence);
      var i := Interval(row.recordId, row.revisionId, row.revisionNo, sequence, None);
      OpenedApart(CloseOpen(s.intervals, row.recordId, sequence), i, sequence);
      if OpenOf(s.intervals, row.recordId) == None {
        OpenedApart(s.intervals, i, sequence);
      }
    }
  }
}
