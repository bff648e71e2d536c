/** The transactional outbox and its dispatcher (app/repositories/outbox.py,
    app/events/dispatcher.py, app/services/incidents.py). */
module Outbox {
  import opened Bounds
  import opened Dict

  datatype OutboxRecord = OutboxRecord(eventId: int, incident: int, attempts: nat, nextAttemptAt: int,
                                       publishedAt: Option<int>)

  datatype DispatchOutcome = Published | Deferred | Unavailable

  function Power(n: nat): nat { if n == 0 then 1 else 2 * Power(n - 1) }

  /** Seconds to wait after the given attempt. */
  function RetryDelay(attempt: nat): nat { Least(Power(Least(attempt, 6)), 60) }

  /** The delay doubles with each attempt, from two seconds up to a minute. */
  lemma DelayDoubles(attempt: nat)
    ensures RetryDelay(attempt) <= RetryDelay(attempt + 1) <= 60
    ensures attempt < 5 ==> RetryDelay(attempt + 1) == 2 * RetryDelay(attempt)
    ensures attempt >= 6 ==> RetryDelay(attempt) == 60
    ensures RetryDelay(1) == 2
  {
    assert Power(1) == 2 && Power(2) == 4 && Power(3) == 8 && Power(4) == 16 && Power(5) == 32 && Power(6) == 64;
  }

  predicate DueAt(r: OutboxRecord, now: int) { r.publishedAt.None? && r.nextAttemptAt <= now }

  /** Identifiers of the due rows, in creation order. */
  function Due(rows: seq<OutboxRecord>, now: int): seq<int> {
    if rows == [] then []
    else
      (if DueAt(rows[0], now) then [rows[0].eventId] else []) + Due(rows[1..], now)
  }

  ghost predicate HasDue(rows: seq<OutboxRecord>, now: int, id: int) {
    exists i :: 0 <= i < |rows| && rows[i].eventId == id && DueAt(rows[i], now)
  }

  /** Every due row is listed, and nothing else is. */
  lemma {:induction false} DueIff(rows: seq<OutboxRecord>, now: int, id: int)
    ensures id in Due(rows, now) <==> HasDue(rows, now, id)
  {
    hide DueAt;
    if rows != [] {
      DueIff(rows[1..], now, id);
      if HasDue(rows[1..], now, id) {
        var i :| 0 <= i < |rows[1..]| && rows[1..][i].eventId == id && DueAt(rows[1..][i], now);
        assert rows[i + 1] == rows[1..][i];
      }
      if HasDue(rows, now, id) && id !in Due([rows[0]], now) {
        var i :| 0 <= i < |rows| && rows[i].eventId == id && DueAt(rows[i], now);
        assert i > 0 && rows[1..][i - 1] == rows[i];
      }
    }
  }

  /** The due rows are listed in the order of the table. */
  lemma {:induction false} DueInOrder(before: seq<OutboxRecord>, after: seq<OutboxRecord>, now: int)
    ensures Due(before + after, now) == Due(before, now) + Due(after, now)
  {
    hide DueAt;
    if before == [] {
      assert before + after == after;
    } else {
      var all := before + after;
      assert all[0] == before[0] && all[1..] == before[1..] + after;
      DueInOrder(before[1..], after, now);
      var first := if DueAt(before[0], now) then [before[0].eventId] else [];
      assert Due(all, now) == first + Due(all[1..], now) && Due(before, now) == first + Due(before[1..], now);
      hide Due;
      Regroup(first, Due(before[1..], now), Due(after, now));
    }
  }

  /** A row after one send. */
  function Attempt(r: OutboxRecord, now: int, acknowledged: bool): OutboxRecord {
    if acknowledged then r.(attempts := r.attempts + 1, publishedAt := Some(now))
    else r.(attempts := r.attempts + 1, nextAttemptAt := now + RetryDelay(r.attempts + 1))
  }

  /** What one send does to an unpublished row: an acknowledged one publishes it now and for
      good, any other leaves it unpublished and due again exactly when the delay is over. */
  ghost predicate SentOnce(before: OutboxRecord, after: OutboxRecord, now: int) {
    && after.eventId == before.eventId && after.incident == before.incident
    && after.attempts == before.attempts + 1
    && (after.publishedAt.Some? ==> after.publishedAt == Some(now) && forall t :: !DueAt(after, t))
    && (after.publishedAt.None? ==> forall t :: DueAt(after, t) <==> t >= now + RetryDelay(after.attempts))
  }

  lemma AttemptSends(r: OutboxRecord, now: int, acknowledged: bool)
    requires r.publishedAt.None?
    ensures SentOnce(r, Attempt(r, now, acknowledged), now)
    ensures Attempt(r, now, acknowledged).publishedAt.Some? <==> acknowledged
  {
  }

  /** The table has one row per event, and one per incident. */
  ghost predicate Unique(rows: seq<OutboxRecord>) {
    forall i, j :: 0 <= i < j < |rows| ==> rows[i].eventId != rows[j].eventId && rows[i].incident != rows[j].incident
  }

  function Find(rows: seq<OutboxRecord>, id: int): (at: Option<nat>)
    ensures at.Some? ==> at.value < |rows| && rows[at.value].eventId == id && rows[at.value].publishedAt.None?
    ensures at.None? ==> forall i :: 0 <= i < |rows| && rows[i].eventId == id ==> rows[i].publishedAt.Some?
  {
    if rows == [] then None
    else if rows[0].eventId == id && rows[0].publishedAt.None? then Some(0)
    else
      match Find(rows[1..], id)
      case None => None
      case Some(k) => Some(k + 1)
  }

  // ---- The due rows shrink

  lemma {:induction false} DueAfterAttempt(rows: seq<OutboxRecord>, at: nat, now: int, acknowledged: bool)
    requires Unique(rows) && at < |rows| && DueAt(rows[at], now)
    requires Due(rows, now) != [] && Due(rows, now)[0] == rows[at].eventId
    ensures Due(rows[at := Attempt(rows[at], now, acknowledged)], now) == Due(rows, now)[1..]
  {
    var after := rows[at := Attempt(rows[at], now, acknowledged)];
    DelayDoubles(rows[at].attempts + 1);
    if at == 0 {
      assert after[1..] == rows[1..];
    } else {
      assert !DueAt(rows[0], now);
      assert after[1..] == rows[1..][at - 1 := Attempt(rows[at], now, acknowledged)];
      DueAfterAttempt(rows[1..], at - 1, now, acknowledged);
    }
  }

  lemma {:induction false} DueAreDistinct(rows: seq<OutboxRecord>, now: int)
    requires Unique(rows)
    ensures forall i, j :: 0 <= i < j < |Due(rows, now)| ==> Due(rows, now)[i] != Due(rows, now)[j]
  {
    if rows != [] {
      DueAreDistinct(rows[1..], now);
      forall k | 0 <= k < |Due(rows[1..], now)| ensures Due(rows[1..], now)[k] != rows[0].eventId {
        DueIff(rows[1..], now, Due(rows[1..], now)[k]);
        var i :| 0 <= i < |rows[1..]| && rows[1..][i].eventId == Due(rows[1..], now)[k] && DueAt(rows[1..][i], now);
        assert rows[i + 1].eventId == Due(rows[1..], now)[k];
      }
    }
  }

  /** The first n due rows were sent, once each, and every other row is as it was. */
  ghost predicate Attempted(before: seq<OutboxRecord>, after: seq<OutboxRecord>, now: int, n: nat) {
    var due := Due(before, now);
    && n <= |due| && Due(after, now) == due[n..] && |after| == |before|
    && (forall k :: 0 <= k < |before| && before[k].eventId in due[..n] ==> SentOnce(before[k], after[k], now))
    && (forall k :: 0 <= k < |before| && before[k].eventId !in due[..n] ==> after[k] == before[k])
  }

  lemma OneMoreAttempt(before: seq<OutboxRecord>, rows: seq<OutboxRecord>, at: nat, now: int, acknowledged: bool,
                       n: nat)
    requires Unique(before) && Unique(rows) && Attempted(before, rows, now, n) && n < |Due(before, now)|
    requires at < |rows| && DueAt(rows[at], now) && rows[at].eventId == Due(before, now)[n]
    ensures Attempted(before, rows[at := Attempt(rows[at], now, acknowledged)], now, n + 1)
  {
    var due := Due(before, now);
    var after := rows[at := Attempt(rows[at], now, acknowledged)];
    DueAreDistinct(before, now);
    DueAfterAttempt(rows, at, now, acknowledged);
    AttemptSends(rows[at], now, acknowledged);
    hide Due, RetryDelay, DueAt, Attempt;
    assert due[..n + 1] == due[..n] + [due[n]];
    assert due[n] !in due[..n];
    assert before[at].eventId == rows[at].eventId;
    assert before[at] == rows[at];
    forall k | 0 <= k < |before| && before[k].eventId in due[..n + 1] ensures SentOnce(before[k], after[k], now) {
      if k != at {
        assert before[k].eventId != before[at].eventId;
      }
    }
  }

  lemma AttemptedMore(a: seq<OutboxRecord>, b: seq<OutboxRecord>, c: seq<OutboxRecord>, now: int, n: nat, m: nat)
    requires Unique(a) && Attempted(a, b, now, n) && Attempted(b, c, now, m)
    ensures Attempted(a, c, now, n + m)
  {
    hide Due, DueAt, RetryDelay;
    DueAreDistinct(a, now);
    var due := Due(a, now);
    assert due[n..][m..] == due[n + m..];
    forall k | 0 <= k < |a|
      ensures if a[k].eventId in due[..n + m] then SentOnce(a[k], c[k], now) else c[k] == a[k]
    {
      assert b[k].eventId == a[k].eventId;
      InFirst(due, n, m, a[k].eventId);
    }
  }

  lemma InFirst(due: seq<int>, n: nat, m: nat, id: int)
    requires n + m <= |due| && forall i, j :: 0 <= i < j < |due| ==> due[i] != due[j]
    ensures id in due[..n + m] <==> id in due[..n] || id in due[n..][..m]
    ensures !(id in due[..n] && id in due[n..][..m])
  {
    assert due[..n + m] == due[..n] + due[n..][..m];
  }

  /** The rows whose publication was acknowledged. */
  ghost predicate IsPublished(rows: seq<OutboxRecord>, id: int) {
    exists k :: 0 <= k < |rows| && rows[k].eventId == id && rows[k].publishedAt.Some?
  }

  class OutboxDispatcher {
    var rows: seq<OutboxRecord>
    const batchSize: nat
    var log: seq<int>
    // Whether each send was acknowledged.
    ghost var acks: seq<bool>

    constructor (batchSize: nat)
      requires batchSize >= 1
      ensures Valid() && rows == [] && log == []
    {
      this.batchSize := batchSize;
      rows, log, acks := [], [], [];
    }

    /** A row is marked published only when its event is in the log. */
    ghost predicate Valid()
      reads this
    {
      && Unique(rows) && batchSize >= 1
      && forall k :: 0 <= k < |rows| && rows[k].publishedAt.Some? ==> rows[k].eventId in log
    }

    /** One send: in the log and acknowledged, in the log but reported failed, or not sent. */
    method Send(id: int) returns (acknowledged: bool)
      modifies this`log, this`acks
      ensures log == old(log) || log == old(log) + [id]
      ensures acknowledged ==> log == old(log) + [id]
      ensures acks == old(acks) + [acknowledged]
    {
      var appended: bool := *;
      var reported: bool := *;
      if appended {
        log := log + [id];
      }
      acknowledged := appended && reported;
      acks := acks + [acknowledged];
    }

    /** Publish one unpublished row nobody else holds, and record the attempt. */
    method DispatchEvent(id: int, now: int, heldElsewhere: bool) returns (outcome: DispatchOutcome)
      requires Valid()
      modifies this
      ensures Valid() && |rows| == |old(rows)|
      ensures outcome.Unavailable? <==> heldElsewhere || Find(old(rows), id).None?
      ensures outcome.Unavailable? ==> rows == old(rows) && log == old(log) && acks == old(acks)
      ensures !outcome.Unavailable? ==>
        var at := Find(old(rows), id).value;
        && rows == old(rows)[at := rows[at]] && SentOnce(old(rows)[at], rows[at], now)
        && (outcome.Published? <==> rows[at].publishedAt.Some?)
        && rows[at] == Attempt(old(rows)[at], now, outcome.Published?)
      // Published exactly when its send was acknowledged.
      ensures !outcome.Unavailable? ==> acks == old(acks) + [outcome.Published?]
      ensures log == old(log) || (!outcome.Unavailable? && log == old(log) + [id])
      ensures outcome.Published? ==> log == old(log) + [id]
    {
      var found := Find(rows, id);
      if heldElsewhere || found.None? {
        return Unavailable;
      }
      var record := rows[found.value];
      AttemptSends(record, now, true);
      AttemptSends(record, now, false);
      var acknowledged := Send(id);
      if !acknowledged {
        record := record.(attempts := record.attempts + 1);
        record := record.(nextAttemptAt := now + RetryDelay(record.attempts));
        outcome := Deferred;
      } else {
        record := record.(attempts := record.attempts + 1, publishedAt := Some(now));
        outcome := Published;
      }
      rows := rows[found.value := record];
    }

    /** A bounded batch, stopping at the first row that has to be deferred. With the clock
        still and no other dispatcher, the first due rows are sent, once each: all of the batch
        when every send is acknowledged, and otherwise up to the one that is not. */
    method DispatchPending(now: int) returns (published: nat, ghost n: nat)
      requires Valid()
      modifies this
      ensures Valid() && Attempted(old(rows), rows, now, n)
      ensures published == n == Least(batchSize, |Due(old(rows), now)|)
              || published + 1 == n <= Least(batchSize, |Due(old(rows), now)|)
      ensures acks == old(acks) + seq(n, k => k < published)
      ensures forall k :: 0 <= k < published ==> IsPublished(rows, Due(old(rows), now)[k])
      ensures old(log) <= log
    {
      hide Due, DueAt, RetryDelay, Attempt;
      ghost var due := Due(rows, now);
      var ids := Due(rows, now);
      if |ids| > batchSize {
        ids := ids[..batchSize];
      }
      published, n := 0, 0;
      assert due[0..] == due;
      var k := 0;
      while k < |ids|
        invariant Valid() && 0 <= k <= |ids| == Least(batchSize, |due|) && ids <= due && published == n == k
        invariant Attempted(old(rows), rows, now, k)
        invariant acks == old(acks) + seq(k, j => true) && old(log) <= log
        invariant forall j :: 0 <= j < k ==> IsPublished(rows, due[j])
      {
        assert ids[k] == due[k] && ids[k] in Due(rows, now);
        DueIsFound(rows, ids[k], now);
        ghost var before, at := rows, Find(rows, ids[k]).value;
        var outcome := DispatchEvent(ids[k], now, false);
        OneMoreAttempt(old(rows), before, at, now, outcome.Published?, k);
        forall j | 0 <= j < k ensures IsPublished(rows, due[j]) {
          StaysPublished(before, rows, at, due[j]);
        }
        k := k + 1;
        n := k;
        if outcome.Published? {
          published := published + 1;
          assert rows[at].eventId == due[k - 1];
        } else if outcome.Deferred? {
          break;
        }
      }
    }

    /** The retry loop while the clock stands still: after as many calls as there were due
        rows, each of them has been sent exactly once, wherever in the queue a row that
        never succeeds may stand. */
    method RetryLoop(now: int, polls: nat) returns (ghost n: nat)
      requires Valid()
      modifies this
      ensures Valid() && Attempted(old(rows), rows, now, n)
      ensures n >= polls || n == |Due(old(rows), now)|
      ensures old(log) <= log
    {
      hide Due, DueAt, RetryDelay;
      n := 0;
      assert Due(rows, now)[0..] == Due(rows, now);
      for k := 0 to polls
        invariant Valid() && Attempted(old(rows), rows, now, n) && old(log) <= log
        invariant n >= k || n == |Due(old(rows), now)|
      {
        ghost var before := rows;
        var published, m := DispatchPending(now);
        AttemptedMore(old(rows), before, rows, now, n, m);
        n := n + m;
      }
    }
  }

  lemma StaysPublished(before: seq<OutboxRecord>, after: seq<OutboxRecord>, at: nat, id: int)
    requires at < |before| == |after| && after == before[at := after[at]]
    requires before[at].publishedAt.None? && IsPublished(before, id)
    ensures IsPublished(after, id)
  {
    var k :| 0 <= k < |before| && before[k].eventId == id && before[k].publishedAt.Some?;
    assert after[k] == before[k];
  }

  lemma {:induction false} DueIsFound(rows: seq<OutboxRecord>, id: int, now: int)
    requires Unique(rows) && id in Due(rows, now)
    ensures Find(rows, id).Some? && DueAt(rows[Find(rows, id).value], now)
  {
    DueIff(rows, now, id);
    var i :| 0 <= i < |rows| && rows[i].eventId == id && DueAt(rows[i], now);
    assert rows[i].publishedAt.None?;
  }

  /** Every incident has exactly one outbox row, and every row belongs to an incident. */
  ghost predicate Paired(incidents: set<int>, rows: seq<OutboxRecord>) {
    && Unique(rows)
    && (forall k :: 0 <= k < |rows| ==> rows[k].incident in incidents)
    && forall i :: i in incidents ==> exists k :: 0 <= k < |rows| && rows[k].incident == i
  }

  /** One request's transaction: rows are staged, and reach the tables together or not at all. */
  class IncidentService {
    var incidents: set<int>
    const dispatcher: OutboxDispatcher
    var stagedIncidents: set<int>
    var stagedRows: seq<OutboxRecord>
    // Some database call was reported failed, and a commit was among them.
    ghost var failed: bool
    ghost var commitFailed: bool

    constructor (dispatcher: OutboxDispatcher)
      requires dispatcher.Valid() && dispatcher.rows == []
      ensures this.dispatcher == dispatcher && incidents == {} && Valid() && !failed && !commitFailed
    {
      this.dispatcher := dispatcher;
      incidents, stagedIncidents, stagedRows := {}, {}, [];
      failed, commitFailed := false, false;
    }

    ghost predicate Valid()
      reads this, dispatcher
    {
      dispatcher.Valid() && Paired(incidents, dispatcher.rows) && stagedIncidents == {} && stagedRows == []
    }

    /** Stage the incident; the flush can fail after the row was staged. */
    method Create(incident: int) returns (ok: bool)
      modifies this`stagedIncidents, this`failed
      ensures failed == (old(failed) || !ok)
      ensures ok ==> stagedIncidents == old(stagedIncidents) + {incident}
    {
      ok := *;
      stagedIncidents := stagedIncidents + {incident};
      failed := failed || !ok;
    }

    /** Stage the event; the flush can fail after the row was staged. */
    method Add(record: OutboxRecord) returns (ok: bool)
      modifies this`stagedRows, this`failed
      ensures failed == (old(failed) || !ok)
      ensures ok ==> stagedRows == old(stagedRows) + [record]
    {
      ok := *;
      stagedRows := stagedRows + [record];
      failed := failed || !ok;
    }

    /** A commit that is reported failed may have taken effect. */
    method Commit() returns (ok: bool)
      modifies this`incidents, this`stagedIncidents, this`stagedRows, this`failed, this`commitFailed, dispatcher`rows
      ensures failed == (old(failed) || !ok) && commitFailed == (old(commitFailed) || !ok)
      ensures
        || (&& incidents == old(incidents) + old(stagedIncidents)
            && dispatcher.rows == old(dispatcher.rows) + old(stagedRows)
            && stagedIncidents == {} && stagedRows == [])
        || (&& !ok && incidents == old(incidents) && dispatcher.rows == old(dispatcher.rows)
            && stagedIncidents == old(stagedIncidents) && stagedRows == old(stagedRows))
    {
      ok := *;
      var applied: bool := *;
      if ok || applied {
        incidents := incidents + stagedIncidents;
        dispatcher.rows := dispatcher.rows + stagedRows;
        stagedIncidents, stagedRows := {}, [];
      }
      failed, commitFailed := failed || !ok, commitFailed || !ok;
    }

    method Rollback()
      modifies this`stagedIncidents, this`stagedRows
      ensures stagedIncidents == {} && stagedRows == []
    {
      stagedIncidents, stagedRows := {}, [];
    }

    /** Stage both rows and commit them; roll back when one of the calls fails. */
    method Persist(record: OutboxRecord) returns (created: bool)
      requires Valid() && record.incident !in incidents && record.publishedAt.None?
      requires forall k :: 0 <= k < |dispatcher.rows| ==> dispatcher.rows[k].eventId != record.eventId
      modifies this, dispatcher`rows
      ensures Valid() && failed == (old(failed) || !created)
      ensures
        || (&& incidents == old(incidents) + {record.incident}
            && dispatcher.rows == old(dispatcher.rows) + [record] && (created || commitFailed))
        || (!created && incidents == old(incidents) && dispatcher.rows == old(dispatcher.rows))
    {
      PairedWithOneMore(incidents, dispatcher.rows, record);
      assert Unique(dispatcher.rows + [record]);
      hide Paired, Unique;
      created := Create(record.incident);
      if created {
        created := Add(record);
      }
      if created {
        assert stagedIncidents == {record.incident} && stagedRows == [record];
        created := Commit();
      }
      if !created {
        Rollback();
      }
    }

    /** Persist an incident and its event in one transaction, then try to publish. The request
        succeeds unless one of the three database calls fails. Then nothing stays staged, and
        nothing is stored either, or both rows are and the commit only seemed to fail. A request that
        succeeds sends its event once, unless another dispatcher was faster. */
    method AnalyzeAndPersist(incident: int, event: int, now: int, heldElsewhere: bool) returns (created: bool)
      requires Valid() && incident !in incidents
      requires forall k :: 0 <= k < |dispatcher.rows| ==> dispatcher.rows[k].eventId != event
      modifies this, dispatcher
      ensures Valid() && (old(failed) ==> failed) && (created || failed)
      ensures created ==> failed == old(failed) && Stored(old(incidents), old(dispatcher.rows), incident)
      ensures created ==>
        var row := dispatcher.rows[|old(dispatcher.rows)|];
        var staged := OutboxRecord(event, incident, 0, now, None);
        && |dispatcher.acks| == |old(dispatcher.acks)| + (if heldElsewhere then 0 else 1)
        && (if heldElsewhere then row == staged
            else SentOnce(staged, row, now)
                 && (row.publishedAt.Some? <==> dispatcher.acks[|old(dispatcher.acks)|]))
      ensures !created ==> dispatcher.log == old(dispatcher.log)
      ensures !created ==>
        || (incidents == old(incidents) && dispatcher.rows == old(dispatcher.rows))
        || (&& commitFailed && Stored(old(incidents), old(dispatcher.rows), incident)
            && dispatcher.rows[|old(dispatcher.rows)|] == OutboxRecord(event, incident, 0, now, None))
    {
      hide RetryDelay, DueAt;
      ghost var before := dispatcher.rows;
      var record := OutboxRecord(event, incident, 0, now, None);
      created := Persist(record);
      if !created {
        return;
      }
      FindLast(before, record);
      ghost var stored := dispatcher.rows;
      var outcome := dispatcher.DispatchEvent(event, now, heldElsewhere);
      StillPaired(incidents, stored, dispatcher.rows);
    }

    /** Both rows were added, and no other was touched. */
    ghost predicate Stored(before: set<int>, rows: seq<OutboxRecord>, incident: int)
      reads this, dispatcher
    {
      && incidents == before + {incident} && |dispatcher.rows| == |rows| + 1
      && dispatcher.rows[..|rows|] == rows
    }
  }

  lemma PairedWithOneMore(incidents: set<int>, rows: seq<OutboxRecord>, r: OutboxRecord)
    requires Paired(incidents, rows) && r.incident !in incidents
    requires forall k :: 0 <= k < |rows| ==> rows[k].eventId != r.eventId
    ensures Paired(incidents + {r.incident}, rows + [r])
  {
    var more := rows + [r];
    forall i | i in incidents + {r.incident} ensures exists k :: 0 <= k < |more| && more[k].incident == i {
      if i == r.incident {
        assert more[|rows|].incident == i;
      } else {
        var k :| 0 <= k < |rows| && rows[k].incident == i;
        assert more[k].incident == i;
      }
    }
  }

  lemma {:induction false} FindLast(rows: seq<OutboxRecord>, r: OutboxRecord)
    requires r.publishedAt.None? && forall k :: 0 <= k < |rows| ==> rows[k].eventId != r.eventId
    ensures Find(rows + [r], r.eventId) == Some(|rows|)
  {
    if rows != [] {
      assert (rows + [r])[1..] == rows[1..] + [r];
      FindLast(rows[1..], r);
    }
  }

  lemma StillPaired(incidents: set<int>, rows: seq<OutboxRecord>, after: seq<OutboxRecord>)
    requires Paired(incidents, rows) && |after| == |rows|
    requires forall k :: 0 <= k < |rows| ==>
      after[k].eventId == rows[k].eventId && after[k].incident == rows[k].incident
    ensures Paired(incidents, after)
  {
    forall i | i in incidents ensures exists k :: 0 <= k < |after| && after[k].incident == i {
      var k :| 0 <= k < |rows| && rows[k].incident == i;
      assert after[k].incident == i;
    }
  }
}
