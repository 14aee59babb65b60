/**
 The worker's claims, statement by statement: each method is one committed
 transaction of the job it is given, its effects together with the job's deletion or
 the advance of its cursor. A crash is a rollback and so no step at all.
 */
module Worker {
  import opened Wrappers
  import opened Keyset
  import opened InboxState
  import opened InboxSteps
  import opened Database

  datatype Outcome = Done | Continue

  // ---------------------------------------------------------------- deliver

  /** The deliver bump's own test, on the row's columns. */
  predicate BumpsUnread(db: Db, c: Counters, s: SubId, row: Row) {
    && row.subscriber == s && row.readAt.None? && (row.unreadAt.Some? || row.visibleAt > c.readWatermark)
    && row.archivedAt.None? && (row.unarchivedAt.Some? || row.visibleAt > c.archiveWatermark)
    && !Muted(db.preferences, s, row.category)
  }

  predicate BumpsUnseen(db: Db, c: Counters, s: SubId, row: Row) {
    row.subscriber == s && row.visibleAt > c.seenWatermark && !Muted(db.preferences, s, row.category)
  }

  /** `UPDATE subscriber_counters ... WHERE subscriber_id IN (...)` of one chunk. */
  function BumpChunk(db: Db, chunk: seq<NotifId>): map<SubId, Counters> {
    map s | s in db.counters ::
      var c := db.counters[s];
      if exists id | id in chunk :: id in db.notifications && db.notifications[id].subscriber == s then
        c.(unread := c.unread + |set id | id in chunk && id in db.notifications && BumpsUnread(db, c, s, db.notifications[id])|,
           unseen := c.unseen + |set id | id in chunk && id in db.notifications && BumpsUnseen(db, c, s, db.notifications[id])|)
      else c
  }

  /** The bump in the handler's columns is the bump of the counted rows. */
  lemma BumpIsOfCountedRows(db: Db, chunk: seq<NotifId>)
    requires RowsHaveCounters(db)
    ensures BumpChunk(db, chunk) == Bumped(db, chunk)
  {
    forall s | s in db.counters ensures BumpChunk(db, chunk)[s] == Bumped(db, chunk)[s] {
      BumpOfOne(db, chunk, s);
    }
  }

  lemma BumpedUnread(db: Db, chunk: seq<NotifId>, s: SubId)
    requires RowsHaveCounters(db) && s in db.counters
    ensures ChunkUnread(db, s, chunk)
         == set id | id in chunk && id in db.notifications && BumpsUnread(db, db.counters[s], s, db.notifications[id])
  {
    hide Muted;
  }

  lemma BumpedUnseen(db: Db, chunk: seq<NotifId>, s: SubId)
    requires RowsHaveCounters(db) && s in db.counters
    ensures ChunkUnseen(db, s, chunk)
         == set id | id in chunk && id in db.notifications && BumpsUnseen(db, db.counters[s], s, db.notifications[id])
  {
    hide Muted;
  }

  lemma BumpOfOne(db: Db, chunk: seq<NotifId>, s: SubId)
    requires RowsHaveCounters(db) && s in db.counters
    ensures BumpChunk(db, chunk)[s] == Bumped(db, chunk)[s]
  {
    BumpedUnread(db, chunk, s);
    BumpedUnseen(db, chunk, s);
    hide Muted, BumpsUnread, BumpsUnseen, CountsUnread, CountsUnseen;
    if !exists id | id in chunk :: id in db.notifications && db.notifications[id].subscriber == s {
      assert ChunkUnread(db, s, chunk) == {} && ChunkUnseen(db, s, chunk) == {};
    }
  }

  method ProcessDeliver(t: Tables, j: JobId) returns (outcome: Outcome)
    requires t.Valid() && j in t.jobs && t.jobs[j].work.Deliver?
    modifies t`counters, t`jobs
    ensures t.Valid()
    ensures outcome == Continue ==> t.State() == RunDeliver(old(t.State()), j)
    ensures outcome == Done ==> t.State().(jobs := t.jobs - {j}) == RunDeliver(old(t.State()), j)
  {
    var Deliver(ids, offset) := t.jobs[j].work;
    var chunk := if offset >= |ids| then [] else ids[offset..offset + Least(DELIVER_CHUNK, |ids| - offset)];
    assert chunk == Chunk(ids, offset);
    assert RowsHaveCounters(t.State()) && NonNegative(t.counters);
    BumpIsOfCountedRows(t.State(), chunk);
    BumpStaysNatural(t.State(), chunk);
    hide Bumped, BumpChunk, NonNegative, Tables.Valid;
    if chunk != [] {
      t.UpdateCounters(BumpChunk(t.State(), chunk));
    } else {
      NothingBumped(t.State());
    }
    var next := offset + |chunk|;
    if next < |ids| {
      t.PutJob(j, t.jobs[j].(work := Deliver(ids, next)));
      return Continue;
    }
    return Done;
  }

  lemma BumpStaysNatural(db: Db, chunk: seq<NotifId>)
    requires NonNegative(db.counters)
    ensures BumpChunk(db, chunk).Keys == db.counters.Keys && NonNegative(BumpChunk(db, chunk))
  {
    hide BumpsUnread, BumpsUnseen;
  }

  lemma NothingBumped(db: Db)
    requires RowsHaveCounters(db)
    ensures Bumped(db, []) == db.counters
  {
  }

  function Least(a: nat, b: nat): nat {
    if a <= b then a else b
  }

  // ---------------------------------------------------------------- recount

  method RecountSubscriber(t: Tables, s: SubId, now: Time)
    requires t.Valid()
    modifies t`counters
    ensures t.Valid() && t.State() == Recount(old(t.State()), s, now)
  {
    hide OwnedIn, Muted;
    if s !in t.counters {
      return;
    }
    var c := t.counters[s];
    var unread := set id | id in t.notifications && t.notifications[id].visibleAt <= now
      && BumpsUnread(t.State(), c, s, t.notifications[id]) && !OwnedIn(t.jobs, id);
    var unseen := set id | id in t.notifications && t.notifications[id].visibleAt <= now
      && BumpsUnseen(t.State(), c, s, t.notifications[id]) && !OwnedIn(t.jobs, id);
    assert unread == RecountedUnread(t.State(), s, now);
    assert unseen == RecountedUnseen(t.State(), s, now);
    hide Tables.Valid, BumpsUnread, BumpsUnseen, CountsUnread, CountsUnseen;
    t.UpdateCounter(s, c.(unread := |unread|, unseen := |unseen|));
  }

  // ---------------------------------------------------------------- archive_read

  method ProcessArchiveRead(t: Tables, j: JobId, now: Time) returns (outcome: Outcome)
    requires t.Valid() && j in t.jobs && t.jobs[j].work.ArchiveRead?
    modifies t`notifications, t`broadcastArchives, t`jobs
    ensures t.Valid()
    ensures outcome == Continue ==> t.State() == RunArchiveRead(old(t.State()), j, now)
    ensures outcome == Done ==> t.State().(jobs := t.jobs - {j}) == RunArchiveRead(old(t.State()), j, now)
  {
    hide ArchiveScan, ArchiveDirectChunk, ArchiveBroadcastChunk, Tables.Valid;
    if t.jobs[j].work.subscriber !in t.counters {
      return Done;
    }
    if t.jobs[j].work.phase == DirectPhase {
      ArchiveDirect(t, j, now);
      return Continue;
    }
    if t.jobs[j].work.subscriber !in t.subscribers {
      return Done;
    }
    outcome := ArchiveBroadcasts(t, j);
  }

  method ArchiveDirect(t: Tables, j: JobId, now: Time)
    requires t.Valid() && j in t.jobs && t.jobs[j].work.ArchiveRead?
    requires t.jobs[j].work.phase == DirectPhase && t.jobs[j].work.subscriber in t.counters
    modifies t`notifications, t`jobs
    ensures t.Valid()
    ensures
      var db := old(t.State());
      t.State() == ArchiveDirectChunk(db, j, ArchiveScan(db, db.jobs[j].work.subscriber, db.jobs[j].work), now)
  {
    hide ArchiveReadRows, ArchiveDirectScan, Ascending;
    var ArchiveRead(s, asOf, _, after) := t.jobs[j].work;
    var rows := SelectAscending(ArchiveDirectScan(t.State(), s, after, asOf), ARCHIVE_CHUNK);
    assert rows == ArchiveScan(t.State(), s, t.jobs[j].work);
    var next: Work;
    if rows != [] {
      var last := rows[|rows| - 1];
      t.notifications := ArchiveReadRows(t.State(), s, after, last, now);
      next := if |rows| == ARCHIVE_CHUNK then ArchiveRead(s, asOf, DirectPhase, last)
              else ArchiveRead(s, asOf, BroadcastPhase, FIRST_KEY);
    } else {
      next := ArchiveRead(s, asOf, BroadcastPhase, FIRST_KEY);
    }
    t.jobs := t.jobs[j := t.jobs[j].(work := next)];
  }

  method ArchiveBroadcasts(t: Tables, j: JobId) returns (outcome: Outcome)
    requires t.Valid() && j in t.jobs && t.jobs[j].work.ArchiveRead?
    requires t.jobs[j].work.phase == BroadcastPhase
    requires t.jobs[j].work.subscriber in t.counters && t.jobs[j].work.subscriber in t.subscribers
    modifies t`broadcastArchives, t`jobs
    ensures t.Valid()
    ensures
      var db := old(t.State());
      var db' := ArchiveBroadcastChunk(db, j, ArchiveScan(db, db.jobs[j].work.subscriber, db.jobs[j].work));
      (if outcome == Continue then t.State() else t.State().(jobs := t.jobs - {j})) == db'
  {
    hide ArchiveReadBroadcasts, ArchiveBroadcastScan, Ascending;
    var ArchiveRead(s, asOf, _, after) := t.jobs[j].work;
    var rows := SelectAscending(ArchiveBroadcastScan(t.State(), s, after, asOf), ARCHIVE_CHUNK);
    assert rows == ArchiveScan(t.State(), s, t.jobs[j].work);
    if rows != [] {
      var last := rows[|rows| - 1];
      t.broadcastArchives := ArchiveReadBroadcasts(t.State(), s, after, last);
      if |rows| == ARCHIVE_CHUNK {
        t.jobs := t.jobs[j := t.jobs[j].(work := ArchiveRead(s, asOf, BroadcastPhase, last))];
        return Continue;
      }
    }
    return Done;
  }

  // ---------------------------------------------------------------- one claim

  /** `process_one` once it has claimed the due job `j`: dispatch, then delete or keep it. */
  method ProcessClaimed(t: Tables, j: JobId, begin: Time)
    requires t.Valid() && j in t.jobs && t.jobs[j].runAt <= begin
    modifies t
    ensures t.Valid() && t.State() == RunJob(old(t.State()), j, begin)
  {
    hide RunDeliver, RunArchiveRead, Recount, ArchiveFrame, Tables.Valid;
    var outcome;
    match t.jobs[j].work {
      case Deliver(_, _) =>
        outcome := ProcessDeliver(t, j);
      case CounterRebuild(s) =>
        RecountSubscriber(t, s, begin);
        outcome := Done;
      case ArchiveRead(_, _, _, _) =>
        outcome := ProcessArchiveRead(t, j, begin);
    }
    if outcome == Done {
      t.DeleteJob(j);
    }
  }

  /** `fail_job`: one update that counts the attempt and backs off, then the parking move. */
  method FailClaimed(t: Tables, j: JobId, backoff: nat, now: Time)
    requires t.Valid()
    modifies t`jobs, t`deadLetters
    ensures t.Valid() && t.State() == FailJob(old(t.State()), j, backoff, now)
  {
    if j !in t.jobs {
      return;
    }
    t.jobs := t.jobs[j := t.jobs[j].(attempts := t.jobs[j].attempts + 1, runAt := now + backoff)];
    if t.jobs[j].attempts >= t.jobs[j].maxAttempts {
      t.deadLetters := t.deadLetters[j := t.jobs[j]];
      t.jobs := t.jobs - {j};
    }
  }
}
