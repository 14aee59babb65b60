/**
 The tables refine the naive inbox: whatever watermarks, overrides and exception rows a
 transaction writes, the flags a reader sees change as the naive effect says, for every
 item of every subscriber, and over every run.
 */
module InboxRefinement {
  import opened Wrappers
  import opened Keyset
  import opened InboxState
  import opened InboxSteps
  import opened InboxInvariant
  import opened WorkerInvariant
  import opened InboxRuns
  import opened NaiveInbox

  // ---------------------------------------------------------------- abstraction

  /** A direct item as the list reports it. */
  function ItemAt(db: Db, id: NotifId): Item
    requires id in db.notifications && db.notifications[id].subscriber in db.counters
  {
    var row := db.notifications[id];
    var c := db.counters[row.subscriber];
    Item(row.subscriber, row.visibleAt, EffectivelyRead(row, c.readWatermark), EffectivelyArchived(row, c.archiveWatermark))
  }

  /** A broadcast as the list reports it to subscriber `s`. */
  function BroadcastAt(db: Db, s: SubId, b: BroadcastId): Item
    requires s in db.counters && b in db.broadcasts
  {
    Item(s, db.broadcasts[b].createdAt, BroadcastRead(db, s, b), BroadcastArchived(db, s, b))
  }

  function DimensionOf(flip: Flip): Dimension {
    if flip == FlipRead || flip == FlipUnread then ReadFlag else ArchivedFlag
  }

  function ValueOf(flip: Flip): bool {
    flip == FlipRead || flip == FlipArchive
  }

  /** The items one archive-read claim covers. */
  ghost function ArchiveEffect(db: Db, work: Work): Effect
    requires work.ArchiveRead?
  {
    var s := work.subscriber;
    if s !in db.counters || (work.phase == BroadcastPhase && s !in db.subscribers) then Nothing
    else
      var rows := ArchiveScan(db, s, work);
      if rows == [] then Nothing
      else
        var last := rows[|rows| - 1];
        if work.phase == DirectPhase
        then ArchiveIfRead(s, set id | id in db.notifications && InRange(work.after, DirectKey(db, id), last), {})
        else ArchiveIfRead(s, {}, set b | b in db.broadcasts && InRange(work.after, Key(db.broadcasts[b].createdAt, b), last))
  }

  /** What an event means to a reader. */
  ghost function EffectOf(db: Db, ev: Event): Effect {
    match ev.op
    case FlipNotification(s, id, flip) =>
      if VisibleTo(db, s, id, ev.begin) then Put(id, DimensionOf(flip), ValueOf(flip)) else Nothing
    case FlipBroadcastItem(s, b, flip) =>
      if BroadcastVisibleTo(db, s, b) then PutBroadcast(s, b, DimensionOf(flip), ValueOf(flip)) else Nothing
    case MarkAllRead(s) => if s in db.counters then SetAll(s, ReadFlag, ev.clock) else Nothing
    case ArchiveEverything(s) => if s in db.counters then SetAll(s, ArchivedFlag, ev.clock) else Nothing
    case MoveNotifications(src, dst, ids) =>
      if MoveHappens(db, src, dst, ids, ev.begin)
      then HandOver((set id | id in db.notifications && Moves(db, src, ids, id, ev.begin)), dst) else Nothing
    case Work(j) =>
      if j in db.jobs && db.jobs[j].runAt <= ev.begin && db.jobs[j].work.ArchiveRead?
      then ArchiveEffect(db, db.jobs[j].work) else Nothing
    case _ => Nothing
  }

  // ---------------------------------------------------------------- exception tables

  predicate OverridesMatch(db: Db, overrides: map<(SubId, BroadcastId), Override>) {
    forall k | k in overrides ::
      k.0 in db.counters && k.1 in db.broadcasts && overrides[k].createdAt == db.broadcasts[k.1].createdAt
  }

  /**
   A `broadcast_reads` row says the opposite of the watermark, or it would not be there.
   `broadcast_archives` may hold rows that only repeat the watermark.
   */
  predicate ReadsAreExceptions(db: Db)
    requires OverridesMatch(db, db.broadcastReads)
  {
    forall k | k in db.broadcastReads ::
      db.broadcastReads[k].flag == (db.broadcastReads[k].createdAt > db.counters[k.0].readWatermark)
  }

  predicate BroadcastsOk(db: Db) {
    && OverridesMatch(db, db.broadcastReads) && OverridesMatch(db, db.broadcastArchives)
    && ReadsAreExceptions(db)
  }

  // ---------------------------------------------------------------- frames

  /** Neither mark a flag depends on moves; new subscribers may appear. */
  predicate SameMarks(db: Db, db': Db) {
    forall s | s in db.counters ::
      && s in db'.counters
      && db'.counters[s].readWatermark == db.counters[s].readWatermark
      && db'.counters[s].archiveWatermark == db.counters[s].archiveWatermark
  }

  predicate SameBroadcasts(db: Db, db': Db) {
    && db'.broadcastReads == db.broadcastReads && db'.broadcastArchives == db.broadcastArchives
    && forall b | b in db.broadcasts :: b in db'.broadcasts && db'.broadcasts[b] == db.broadcasts[b]
  }

  predicate KeepsRows(db: Db, db': Db) {
    forall id | id in db.notifications :: id in db'.notifications && db'.notifications[id] == db.notifications[id]
  }

  /** Every old item, direct or broadcast, changes as the effect says. */
  ghost predicate Refines(db: Db, db': Db, effect: Effect)
    requires RowsHaveCounters(db) && RowsHaveCounters(db')
  {
    && (forall id | id in db.notifications ::
          id in db'.notifications && ItemAt(db', id) == NextItem(id, ItemAt(db, id), effect))
    && (forall s, b | s in db.counters && b in db.broadcasts ::
          s in db'.counters && b in db'.broadcasts && BroadcastAt(db', s, b) == NextBroadcast(b, BroadcastAt(db, s, b), effect))
    && BroadcastsOk(db')
  }

  lemma NothingRefines(db: Db, db': Db)
    requires RowsHaveCounters(db) && RowsHaveCounters(db') && BroadcastsOk(db)
    requires KeepsRows(db, db') && SameMarks(db, db') && SameBroadcasts(db, db')
    ensures Refines(db, db', Nothing)
  {
  }

  lemma JobsDoNotShow(db: Db, db': Db)
    requires RowsHaveCounters(db) && BroadcastsOk(db) && db' == db.(jobs := db'.jobs, deadLetters := db'.deadLetters)
    ensures RowsHaveCounters(db') && Refines(db, db', Nothing)
  {
  }

  // ---------------------------------------------------------------- flips

  lemma FlipRefines(db: Db, s: SubId, id: NotifId, flip: Flip, now: Time)
    requires RowsHaveCounters(db) && BroadcastsOk(db) && VisibleTo(db, s, id, now)
    ensures Refines(db, FlipItem(db, s, id, flip, now), Put(id, DimensionOf(flip), ValueOf(flip)))
  {
    var db' := FlipItem(db, s, id, flip, now);
    assert SameMarks(db, db') && SameBroadcasts(db, db');
    forall s, b | s in db.counters && b in db.broadcasts
      ensures BroadcastAt(db', s, b) == BroadcastAt(db, s, b)
    {
    }
    forall x | x in db.notifications
      ensures ItemAt(db', x) == NextItem(x, ItemAt(db, x), Put(id, DimensionOf(flip), ValueOf(flip)))
    {
      FlipOneItem(db, s, id, flip, now, x);
    }
  }

  lemma FlipOneItem(db: Db, s: SubId, id: NotifId, flip: Flip, now: Time, x: NotifId)
    requires RowsHaveCounters(db) && VisibleTo(db, s, id, now) && x in db.notifications
    ensures
      ItemAt(FlipItem(db, s, id, flip, now), x) == NextItem(x, ItemAt(db, x), Put(id, DimensionOf(flip), ValueOf(flip)))
  {
    hide Quiet, RowsHaveCounters;
  }

  /** One exception row flips one flag, whatever row was there before. */
  lemma SetOverrideSets(overrides: map<(SubId, BroadcastId), Override>, s: SubId, b: BroadcastId,
                        createdAt: Time, watermark: Time, flag: bool)
    ensures
      var overrides' := SetOverride(overrides, s, b, createdAt, watermark, flag);
      && EffectiveFlag(overrides', s, b, createdAt, watermark) == flag
      && (forall k | k != (s, b) :: (k in overrides' <==> k in overrides) && (k in overrides ==> overrides'[k] == overrides[k]))
  {
  }

  lemma FlipBroadcastRefines(db: Db, s: SubId, b: BroadcastId, flip: Flip)
    requires RowsHaveCounters(db) && BroadcastsOk(db) && BroadcastVisibleTo(db, s, b)
    ensures Refines(db, FlipBroadcast(db, s, b, flip), PutBroadcast(s, b, DimensionOf(flip), ValueOf(flip)))
  {
    hide SetOverride, BroadcastsOk, EffectivelyRead, EffectivelyArchived;
    var db' := FlipBroadcast(db, s, b, flip);
    BroadcastFlipKeepsTables(db, s, b, flip);
    forall t, x | t in db.counters && x in db.broadcasts
      ensures BroadcastAt(db', t, x) == NextBroadcast(x, BroadcastAt(db, t, x), PutBroadcast(s, b, DimensionOf(flip), ValueOf(flip)))
    {
      FlipOneBroadcast(db, s, b, flip, t, x);
    }
  }

  lemma FlipOneBroadcast(db: Db, s: SubId, b: BroadcastId, flip: Flip, t: SubId, x: BroadcastId)
    requires BroadcastVisibleTo(db, s, b) && t in db.counters && x in db.broadcasts
    ensures
      BroadcastAt(FlipBroadcast(db, s, b, flip), t, x)
        == NextBroadcast(x, BroadcastAt(db, t, x), PutBroadcast(s, b, DimensionOf(flip), ValueOf(flip)))
  {
    hide SetOverride;
    var c, at := db.counters[s], db.broadcasts[b].createdAt;
    SetOverrideSets(db.broadcastReads, s, b, at, c.readWatermark, ValueOf(flip));
    SetOverrideSets(db.broadcastArchives, s, b, at, c.archiveWatermark, ValueOf(flip));
  }

  lemma SetOverrideMatches(db: Db, overrides: map<(SubId, BroadcastId), Override>, s: SubId, b: BroadcastId,
                           watermark: Time, flag: bool)
    requires OverridesMatch(db, overrides) && s in db.counters && b in db.broadcasts
    ensures OverridesMatch(db, SetOverride(overrides, s, b, db.broadcasts[b].createdAt, watermark, flag))
  {
  }

  lemma BroadcastFlipKeepsTables(db: Db, s: SubId, b: BroadcastId, flip: Flip)
    requires BroadcastsOk(db) && BroadcastVisibleTo(db, s, b)
    ensures BroadcastsOk(FlipBroadcast(db, s, b, flip))
  {
    hide RowsHaveCounters;
    var c := db.counters[s];
    SetOverrideMatches(db, db.broadcastReads, s, b, c.readWatermark, ValueOf(flip));
    SetOverrideMatches(db, db.broadcastArchives, s, b, c.archiveWatermark, ValueOf(flip));
    SetOverrideIsException(db, s, b, ValueOf(flip));
    hide SetOverride;
  }

  lemma SetOverrideIsException(db: Db, s: SubId, b: BroadcastId, flag: bool)
    requires BroadcastsOk(db) && s in db.counters && b in db.broadcasts
    ensures
      var kept := SetOverride(db.broadcastReads, s, b, db.broadcasts[b].createdAt, db.counters[s].readWatermark, flag);
      OverridesMatch(db, kept) && ReadsAreExceptions(db.(broadcastReads := kept))
  {
  }

  // ---------------------------------------------------------------- watermark moves

  /** A watermark that moves forward reads everything at or below it and nothing above it. */
  lemma ReadAllRefines(db: Db, s: SubId, clock: Time)
    requires RowsHaveCounters(db) && BroadcastsOk(db) && s in db.counters && db.counters[s].readWatermark <= clock
    ensures Refines(db, ReadAll(db, s, clock), SetAll(s, ReadFlag, clock))
  {
    var db' := ReadAll(db, s, clock);
    forall id | id in db.notifications
      ensures ItemAt(db', id) == NextItem(id, ItemAt(db, id), SetAll(s, ReadFlag, clock))
    {
    }
    forall t, b | t in db.counters && b in db.broadcasts
      ensures BroadcastAt(db', t, b) == NextBroadcast(b, BroadcastAt(db, t, b), SetAll(s, ReadFlag, clock))
    {
    }
  }

  lemma ArchiveAllRefines(db: Db, s: SubId, clock: Time)
    requires RowsHaveCounters(db) && BroadcastsOk(db) && s in db.counters && db.counters[s].archiveWatermark <= clock
    ensures Refines(db, ArchiveAll(db, s, clock), SetAll(s, ArchivedFlag, clock))
  {
    var db' := ArchiveAll(db, s, clock);
    forall id | id in db.notifications
      ensures ItemAt(db', id) == NextItem(id, ItemAt(db, id), SetAll(s, ArchivedFlag, clock))
    {
    }
    forall t, b | t in db.counters && b in db.broadcasts
      ensures BroadcastAt(db', t, b) == NextBroadcast(b, BroadcastAt(db, t, b), SetAll(s, ArchivedFlag, clock))
    {
    }
  }

  // ---------------------------------------------------------------- moving

  /** Re-encoding a row under the target's watermarks keeps what it says, whatever the four watermarks. */
  lemma MovedRowKeepsItsFlags(row: Row, dst: SubId, from: Counters, to: Counters, now: Time)
    ensures
      var row' := MovedRow(row, dst, from, to, now);
      && row'.subscriber == dst && row'.visibleAt == row.visibleAt
      && EffectivelyRead(row', to.readWatermark) == EffectivelyRead(row, from.readWatermark)
      && EffectivelyArchived(row', to.archiveWatermark) == EffectivelyArchived(row, from.archiveWatermark)
      && RowOk(row', to)
  {
  }

  /** Explicit marks keep their times; one the watermark made is dated by it, and a new one by the move. */
  lemma MovedRowKeepsItsTimes(row: Row, dst: SubId, from: Counters, to: Counters, now: Time)
    ensures
      var row' := MovedRow(row, dst, from, to, now);
      && (row'.readAt.Some? ==> row'.readAt.value == if row.readAt.Some? then row.readAt.value else from.readWatermark)
      && (row'.unreadAt.Some? ==> row'.unreadAt.value == if row.unreadAt.Some? then row.unreadAt.value else now)
      && (row'.archivedAt.Some? ==>
            row'.archivedAt.value == if row.archivedAt.Some? then row.archivedAt.value else from.archiveWatermark)
      && (row'.unarchivedAt.Some? ==>
            row'.unarchivedAt.value == if row.unarchivedAt.Some? then row.unarchivedAt.value else now)
      && row'.category == row.category && row'.deliverAt == row.deliverAt
  {
  }

  lemma MoveRefines(db: Db, src: SubId, dst: SubId, ids: seq<NotifId>, begin: Time)
    requires RowsHaveCounters(db) && BroadcastsOk(db) && MoveHappens(db, src, dst, ids, begin)
    ensures
      Refines(db, Move(db, src, dst, ids, begin),
              HandOver(MovedIds(db, src, ids, begin), dst))
  {
    hide Recount, Moves, Move, Refines, BroadcastsOk, MoveHappens, SameMarks, MovedRows;
    var db1 := Enrol(db, {src, dst}, begin);
    var db2 := MoveRows(db1, src, dst, ids, begin);
    var db' := Move(db, src, dst, ids, begin);
    MoveIsTwoRecounts(db, src, dst, ids, begin);
    MoveKeepsMarks(db, db1, db2, db', src, dst, begin);
    EnrolKeepsMoves(db, src, dst, ids, begin);
    MovedRowsRefine(db, db1, db', src, dst, ids, begin);
  }

  lemma MovedRowsRefine(db: Db, db1: Db, db': Db, src: SubId, dst: SubId, ids: seq<NotifId>, begin: Time)
    requires RowsHaveCounters(db) && BroadcastsOk(db)
    requires db1 == Enrol(db, {src, dst}, begin) && src in db1.counters && dst in db1.counters
    requires forall id | id in db.notifications :: Moves(db1, src, ids, id, begin) == Moves(db, src, ids, id, begin)
    requires db'.notifications == MovedRows(db1, src, dst, ids, begin)
    requires SameMarks(db, db') && SameMarks(db1, db') && RowsHaveCounters(db')
    requires db'.broadcasts == db.broadcasts && SameBroadcasts(db, db')
    ensures
      Refines(db, db', HandOver(MovedIds(db, src, ids, begin), dst))
  {
    hide Moves, MovedRows, Enrol;
    var effect := HandOver(MovedIds(db, src, ids, begin), dst);
    forall id | id in db.notifications
      ensures id in db'.notifications && ItemAt(db', id) == NextItem(id, ItemAt(db, id), effect)
    {
      MoveOneItem(db, db1, db', src, dst, ids, begin, id);
    }
  }

  lemma RecountKeepsMarks(db: Db, s: SubId, now: Time)
    requires RowsHaveCounters(db)
    ensures SameMarks(db, Recount(db, s, now)) && SameMarks(Recount(db, s, now), db)
  {
    hide Owns;
  }

  lemma MoveKeepsMarks(db: Db, db1: Db, db2: Db, db': Db, src: SubId, dst: SubId, begin: Time)
    requires db1 == Enrol(db, {src, dst}, begin) && RowsHaveCounters(db2)
    requires db2 == db1.(notifications := db2.notifications, preferences := db2.preferences)
    requires db' == Recount(Recount(db2, src, begin), dst, begin)
    ensures SameMarks(db, db') && SameMarks(db1, db')
    ensures db' == db2.(counters := db'.counters)
  {
    RecountKeepsMarks(db2, src, begin);
    RecountKeepsMarks(Recount(db2, src, begin), dst, begin);
  }

  lemma MoveOneItem(db: Db, db1: Db, db': Db, src: SubId, dst: SubId, ids: seq<NotifId>, begin: Time, id: NotifId)
    requires RowsHaveCounters(db) && id in db.notifications
    requires db1 == Enrol(db, {src, dst}, begin) && src in db1.counters && dst in db1.counters
    requires Moves(db1, src, ids, id, begin) == Moves(db, src, ids, id, begin)
    requires db'.notifications == MovedRows(db1, src, dst, ids, begin)
    requires SameMarks(db1, db') && RowsHaveCounters(db')
    ensures ItemAt(db', id) == if Moves(db, src, ids, id, begin) then ItemAt(db, id).(subscriber := dst) else ItemAt(db, id)
  {
    if Moves(db, src, ids, id, begin) {
      MovedRowKeepsItsFlags(db.notifications[id], dst, db1.counters[src], db1.counters[dst], begin);
    }
  }

  // ---------------------------------------------------------------- archive_read

  /** A claim dates what it archives by its own `now()`, and touches no other column and no other row. */
  lemma ArchiveReadMarks(db: Db, j: JobId, now: Time, id: NotifId)
    requires RowsHaveCounters(db) && j in db.jobs && db.jobs[j].work.ArchiveRead? && id in db.notifications
    ensures
      var db' := RunArchiveRead(db, j, now);
      var row, c := db.notifications[id], db.counters[db.notifications[id].subscriber];
      && id in db'.notifications
      && (db'.notifications[id] == row
          || (&& db'.notifications[id] == row.(archivedAt := Some(now), unarchivedAt := None)
              && EffectivelyRead(row, c.readWatermark) && !EffectivelyArchived(row, c.archiveWatermark)))
  {
    hide ArchiveScan, ArchiveReadBroadcasts, EffectivelyRead, EffectivelyArchived, InRange, DirectKey;
  }

  lemma ArchiveReadRefines(db: Db, j: JobId, now: Time)
    requires RowsHaveCounters(db) && BroadcastsOk(db) && j in db.jobs && db.jobs[j].work.ArchiveRead?
    ensures RowsHaveCounters(RunArchiveRead(db, j, now))
    ensures Refines(db, RunArchiveRead(db, j, now), ArchiveEffect(db, db.jobs[j].work))
  {
    hide ArchiveScan, ArchiveDirectChunk, ArchiveBroadcastChunk, Refines, BroadcastsOk, ArchiveFrame,
         InRange, DirectKey, RowsHaveCounters;
    var ArchiveRead(s, asOf, phase, after) := db.jobs[j].work;
    if s !in db.counters || (phase == BroadcastPhase && s !in db.subscribers) {
      JobsDoNotShow(db, RunArchiveRead(db, j, now));
    } else {
      var rows := ArchiveScan(db, s, db.jobs[j].work);
      if rows == [] {
        EmptyChunkRefines(db, j, now);
      } else if phase == DirectPhase {
        DirectChunkRefines(db, j, rows, now);
      } else {
        BroadcastChunkRefines(db, j, rows);
      }
    }
  }

  lemma EmptyChunkRefines(db: Db, j: JobId, now: Time)
    requires RowsHaveCounters(db) && BroadcastsOk(db) && j in db.jobs && db.jobs[j].work.ArchiveRead?
    requires db.jobs[j].work.subscriber in db.counters
    ensures
      var direct, broadcast := ArchiveDirectChunk(db, j, [], now), ArchiveBroadcastChunk(db, j, []);
      && RowsHaveCounters(direct) && Refines(db, direct, Nothing)
      && RowsHaveCounters(broadcast) && Refines(db, broadcast, Nothing)
  {
    hide AfterDirect, Refines, BroadcastsOk, RowsHaveCounters;
    JobsDoNotShow(db, ArchiveDirectChunk(db, j, [], now));
    JobsDoNotShow(db, ArchiveBroadcastChunk(db, j, []));
  }

  lemma DirectChunkRefines(db: Db, j: JobId, rows: seq<Key>, now: Time)
    requires RowsHaveCounters(db) && BroadcastsOk(db) && j in db.jobs && db.jobs[j].work.ArchiveRead?
    requires db.jobs[j].work.subscriber in db.counters && rows != []
    ensures
      var db' := ArchiveDirectChunk(db, j, rows, now);
      var work := db.jobs[j].work;
      && RowsHaveCounters(db')
      && Refines(db, db', ArchiveIfRead(work.subscriber,
           set id | id in db.notifications && InRange(work.after, DirectKey(db, id), rows[|rows| - 1]), {}))
  {
    hide InRange, ArchiveReadRows, AfterDirect, Refines, BroadcastsOk, DirectKey, RowsHaveCounters;
    var work := db.jobs[j].work;
    ArchiveRowsRefines(db, ArchiveDirectChunk(db, j, rows, now), work.subscriber, work.after, rows[|rows| - 1], now);
  }

  lemma BroadcastChunkRefines(db: Db, j: JobId, rows: seq<Key>)
    requires RowsHaveCounters(db) && BroadcastsOk(db) && j in db.jobs && db.jobs[j].work.ArchiveRead?
    requires db.jobs[j].work.subscriber in db.counters && rows != []
    ensures
      var db' := ArchiveBroadcastChunk(db, j, rows);
      var work := db.jobs[j].work;
      && RowsHaveCounters(db')
      && Refines(db, db', ArchiveIfRead(work.subscriber, {},
           set b | b in db.broadcasts && InRange(work.after, Key(db.broadcasts[b].createdAt, b), rows[|rows| - 1])))
  {
    hide InRange, ArchiveReadBroadcasts, Refines, BroadcastsOk, RowsHaveCounters;
    var work := db.jobs[j].work;
    ArchiveBroadcastsRefines(db, ArchiveBroadcastChunk(db, j, rows), work.subscriber, work.after, rows[|rows| - 1]);
  }

  lemma ArchiveRowsRefines(db: Db, db': Db, s: SubId, after: Key, last: Key, now: Time)
    requires RowsHaveCounters(db) && BroadcastsOk(db) && s in db.counters
    requires db' == db.(notifications := ArchiveReadRows(db, s, after, last, now), jobs := db'.jobs)
    ensures RowsHaveCounters(db')
    ensures Refines(db, db', ArchiveIfRead(s, set id | id in db.notifications && InRange(after, DirectKey(db, id), last), {}))
  {
    hide DirectKey, InRange;
    forall t, b | t in db.counters && b in db.broadcasts
      ensures BroadcastAt(db', t, b) == BroadcastAt(db, t, b)
    {
    }
    forall id | id in db.notifications
      ensures ItemAt(db', id) == NextItem(id, ItemAt(db, id), ArchiveIfRead(s, set x | x in db.notifications && InRange(after, DirectKey(db, x), last), {}))
    {
      OneRowArchived(db, db', s, after, last, now, id);
    }
    hide BroadcastAt, ItemAt, NextItem;
  }

  lemma OneRowArchived(db: Db, db': Db, s: SubId, after: Key, last: Key, now: Time, id: NotifId)
    requires RowsHaveCounters(db) && s in db.counters && id in db.notifications
    requires db' == db.(notifications := ArchiveReadRows(db, s, after, last, now), jobs := db'.jobs)
    ensures
      var effect := ArchiveIfRead(s, set x | x in db.notifications && InRange(after, DirectKey(db, x), last), {});
      ItemAt(db', id) == NextItem(id, ItemAt(db, id), effect)
  {
    hide DirectKey, InRange;
  }

  lemma ArchiveBroadcastsRefines(db: Db, db': Db, s: SubId, after: Key, last: Key)
    requires RowsHaveCounters(db) && BroadcastsOk(db) && s in db.counters
    requires db' == db.(broadcastArchives := ArchiveReadBroadcasts(db, s, after, last), jobs := db'.jobs)
    ensures RowsHaveCounters(db')
    ensures Refines(db, db', ArchiveIfRead(s, {}, set b | b in db.broadcasts && InRange(after, Key(db.broadcasts[b].createdAt, b), last)))
  {
    var effect := ArchiveIfRead(s, {}, set b | b in db.broadcasts && InRange(after, Key(db.broadcasts[b].createdAt, b), last));
    forall t, b | t in db.counters && b in db.broadcasts
      ensures BroadcastAt(db', t, b) == NextBroadcast(b, BroadcastAt(db, t, b), effect)
    {
      OneBroadcastArchived(db, db', s, after, last, t, b);
    }
    hide BroadcastAt, NextBroadcast, InRange, Upserted;
  }

  lemma OneBroadcastArchived(db: Db, db': Db, s: SubId, after: Key, last: Key, t: SubId, b: BroadcastId)
    requires s in db.counters && t in db.counters && b in db.broadcasts
    requires db' == db.(broadcastArchives := ArchiveReadBroadcasts(db, s, after, last), jobs := db'.jobs)
    ensures
      var effect := ArchiveIfRead(s, {}, set x | x in db.broadcasts && InRange(after, Key(db.broadcasts[x].createdAt, x), last));
      BroadcastAt(db', t, b) == NextBroadcast(b, BroadcastAt(db, t, b), effect)
  {
    hide InRange;
  }
}
