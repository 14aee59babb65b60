/**
 The counters are a cache of a count nobody recomputes. This module says what makes
 the cache right and proves that every transaction keeps it so.
 */
module InboxInvariant {
  import opened Wrappers
  import opened InboxState
  import opened InboxSteps
  import opened Seqs
  import Sets

  // ---------------------------------------------------------------- the invariant

  /** Overrides: never both directions at once, and the negative ones only below their watermark. */
  predicate RowOk(row: Row, c: Counters) {
    && !(row.readAt.Some? && row.unreadAt.Some?)
    && !(row.archivedAt.Some? && row.unarchivedAt.Some?)
    && (row.unreadAt.Some? ==> row.visibleAt <= c.readWatermark)
    && (row.unarchivedAt.Some? ==> row.visibleAt <= c.archiveWatermark)
  }

  predicate RowsOk(db: Db)
    requires RowsHaveCounters(db)
  {
    forall id | id in db.notifications :: RowOk(db.notifications[id], db.counters[db.notifications[id].subscriber])
  }

  predicate CountersOk(db: Db, clock: Time) {
    forall s | s in db.counters ::
      && 0 <= db.counters[s].unread && 0 <= db.counters[s].unseen
      && db.counters[s].readWatermark <= clock
      && db.counters[s].seenWatermark <= clock
      && db.counters[s].archiveWatermark <= clock
  }

  /** A scheduled row comes due no later than its job may first run. */
  function DueBy(job: Job, clock: Time): Time {
    if job.attempts == 0 && job.runAt > clock then job.runAt else clock
  }

  predicate DeliverOk(db: Db, job: Job, due: Time) {
    job.work.Deliver? ==>
      && Distinct(job.work.ids)
      && job.work.offset <= |job.work.ids|
      && forall id | id in job.work.ids ::
           id in db.notifications && (Owns(job, id) ==> db.notifications[id].visibleAt <= due)
  }

  predicate Apart(a: Job, b: Job) {
    a.work.Deliver? && b.work.Deliver? ==> forall id | id in a.work.ids :: id !in b.work.ids
  }

  predicate DeliversOk(db: Db, clock: Time) {
    && (forall j | j in db.jobs :: DeliverOk(db, db.jobs[j], DueBy(db.jobs[j], clock)))
    && (forall j | j in db.deadLetters :: DeliverOk(db, db.deadLetters[j], clock))
  }

  predicate AllApart(db: Db) {
    && (forall j, k | j in db.jobs && k in db.jobs && j != k :: Apart(db.jobs[j], db.jobs[k]))
    && (forall j, k | j in db.deadLetters && k in db.deadLetters && j != k ::
          Apart(db.deadLetters[j], db.deadLetters[k]))
    && (forall j, k | j in db.jobs && k in db.deadLetters :: Apart(db.jobs[j], db.deadLetters[k]))
  }

  predicate JobsOk(db: Db, clock: Time) {
    db.jobs.Keys !! db.deadLetters.Keys && DeliversOk(db, clock) && AllApart(db)
  }

  /** Every row nobody owns is visible: scheduled rows are counted by their job alone. */
  predicate Timely(db: Db, clock: Time) {
    forall id | id in db.notifications && !Owned(db, id) :: db.notifications[id].visibleAt <= clock
  }

  predicate WellFormed(db: Db, clock: Time) {
    && RowsHaveCounters(db) && RowsOk(db) && CountersOk(db, clock) && JobsOk(db, clock) && Timely(db, clock)
  }

  datatype Count = UnreadCount | UnseenCount

  /** The counts that some accident may have left wrong. */
  type Dirt = set<(SubId, Count)>

  /** The two counts of `s` are right, but for those that are dirty. */
  ghost predicate ExactBut(db: Db, s: SubId, dirty: Dirt)
    requires RowsHaveCounters(db) && s in db.counters
  {
    && ((s, UnreadCount) !in dirty ==> UnreadIsExact(db, s))
    && ((s, UnseenCount) !in dirty ==> UnseenIsExact(db, s))
  }

  /** The point of it all: unless a recount is still to come, the cache is right. */
  ghost predicate AllExact(db: Db, dirty: Dirt)
    requires RowsHaveCounters(db)
  {
    forall s | s in db.counters && !Stale(db, s) :: ExactBut(db, s, dirty)
  }

  /** Each count of `t` is right in both or in neither. */
  ghost predicate SameExactness(db: Db, db': Db, t: SubId)
    requires RowsHaveCounters(db) && RowsHaveCounters(db') && t in db.counters && t in db'.counters
  {
    && (UnreadIsExact(db', t) <==> UnreadIsExact(db, t))
    && (UnseenIsExact(db', t) <==> UnseenIsExact(db, t))
  }

  ghost predicate Inv(db: Db, clock: Time, dirty: Dirt) {
    WellFormed(db, clock) && AllExact(db, dirty)
  }

  // ---------------------------------------------------------------- the clock

  lemma LaterClock(db: Db, clock: Time, clock': Time)
    requires WellFormed(db, clock) && clock <= clock'
    ensures WellFormed(db, clock')
  {
  }

  // ---------------------------------------------------------------- frames

  /** No row disappears or changes its time, and the job tables are untouched. */
  predicate KeepsRowsAndJobs(db: Db, db': Db) {
    && db'.jobs == db.jobs && db'.deadLetters == db.deadLetters
    && db'.notifications.Keys == db.notifications.Keys
    && forall id | id in db.notifications :: db'.notifications[id].visibleAt == db.notifications[id].visibleAt
  }

  /** Queued or parked, a job of `after` names the ids the job of that id named before. */
  predicate NamedBefore(before: Db, j: JobId, job: Job) {
    job.work.Deliver? ==>
      || (j in before.jobs && before.jobs[j].work.Deliver? && before.jobs[j].work.ids == job.work.ids)
      || (j in before.deadLetters && before.deadLetters[j].work.Deliver? && before.deadLetters[j].work.ids == job.work.ids)
  }

  /** Jobs stay apart as long as they name what they named, in whichever table they are. */
  lemma StillApart(db: Db, db': Db)
    requires AllApart(db) && db.jobs.Keys !! db.deadLetters.Keys && db'.jobs.Keys !! db'.deadLetters.Keys
    requires forall j | j in db'.jobs :: NamedBefore(db, j, db'.jobs[j])
    requires forall j | j in db'.deadLetters :: NamedBefore(db, j, db'.deadLetters[j])
    ensures AllApart(db')
  {
    forall j, k, a, b | NamedBefore(db, j, a) && NamedBefore(db, k, b) && j != k ensures Apart(a, b) {
      BothNamedBefore(db, j, a, k, b);
    }
  }

  lemma BothNamedBefore(db: Db, j: JobId, a: Job, k: JobId, b: Job)
    requires AllApart(db) && j != k && NamedBefore(db, j, a) && NamedBefore(db, k, b)
    ensures Apart(a, b)
  {
  }

  lemma JobsFrame(db: Db, db': Db, clock: Time)
    requires JobsOk(db, clock) && Timely(db, clock) && KeepsRowsAndJobs(db, db')
    ensures JobsOk(db', clock) && Timely(db', clock)
    ensures forall id :: Owned(db', id) == Owned(db, id)
    ensures forall s :: Stale(db', s) == Stale(db, s)
  {
    assert forall id :: Owned(db', id) == Owned(db, id);
    forall j | j in db.jobs
      ensures DeliverOk(db', db'.jobs[j], DueBy(db'.jobs[j], clock))
    {
      assert DeliverOk(db, db.jobs[j], DueBy(db.jobs[j], clock));
    }
    forall j | j in db.deadLetters
      ensures DeliverOk(db', db'.deadLetters[j], clock)
    {
      assert DeliverOk(db, db.deadLetters[j], clock);
    }
  }

  predicate SameWatermarks(a: Counters, b: Counters) {
    a.readWatermark == b.readWatermark && a.seenWatermark == b.seenWatermark && a.archiveWatermark == b.archiveWatermark
  }

  /** A count depends on rows, watermarks, mutes and ownership, and on nothing else. */
  lemma CountsFrame(db: Db, db': Db, t: SubId)
    requires RowsHaveCounters(db) && RowsHaveCounters(db') && t in db.counters && t in db'.counters
    requires db'.notifications == db.notifications && db'.preferences == db.preferences
    requires SameWatermarks(db.counters[t], db'.counters[t])
    requires forall x :: Owned(db', x) == Owned(db, x)
    ensures UnreadRows(db', t) == UnreadRows(db, t)
    ensures UnseenRows(db', t) == UnseenRows(db, t)
  {
  }

  // ---------------------------------------------------------------- per-item flips

  lemma FlipKeepsWellFormed(db: Db, s: SubId, id: NotifId, flip: Flip, now: Time, clock: Time)
    requires WellFormed(db, clock)
    ensures WellFormed(FlipItem(db, s, id, flip, now), clock)
  {
    hide JobsOk, Timely, OwnedIn, CountsUnread, CountersOk, RowsOk;
    if VisibleTo(db, s, id, now) {
      var db' := FlipItem(db, s, id, flip, now);
      JobsFrame(db, db', clock);
      FlipKeepsTablesOk(db, s, id, flip, now, clock);
    }
  }

  lemma FlipKeepsTablesOk(db: Db, s: SubId, id: NotifId, flip: Flip, now: Time, clock: Time)
    requires RowsHaveCounters(db) && RowsOk(db) && CountersOk(db, clock) && VisibleTo(db, s, id, now)
    ensures
      var db' := FlipItem(db, s, id, flip, now);
      RowsHaveCounters(db') && RowsOk(db') && CountersOk(db', clock)
  {
    hide Pending, CountsUnread;
    var db' := FlipItem(db, s, id, flip, now);
    assert RowOk(db.notifications[id], db.counters[s]);
    assert RowOk(db'.notifications[id], db'.counters[s]);
    hide FlipRow;
  }

  /** A flip moves the unread count of its own subscriber by exactly its own row. */
  lemma FlipMovesOneRow(db: Db, s: SubId, id: NotifId, flip: Flip, now: Time)
    requires RowsHaveCounters(db) && VisibleTo(db, s, id, now) && !Owned(db, id)
    ensures
      var db' := FlipItem(db, s, id, flip, now);
      var before, after := CountsUnread(db, db.notifications[id]), CountsUnread(db', db'.notifications[id]);
      && |UnreadRows(db', s)| == |UnreadRows(db, s)| - (if before then 1 else 0) + (if after then 1 else 0)
      && (before ==> 1 <= |UnreadRows(db, s)|)
  {
    hide RowsHaveCounters;
    var db' := FlipItem(db, s, id, flip, now);
    var before, after := CountsUnread(db, db.notifications[id]), CountsUnread(db', db'.notifications[id]);
    assert forall x | x in db.notifications && x != id && db.notifications[x].subscriber == s ::
        CountsUnread(db', db'.notifications[x]) == CountsUnread(db, db.notifications[x]);
    assert forall x :: Owned(db', x) == Owned(db, x);
    assert UnreadRows(db', s) - {id} == UnreadRows(db, s) - {id};
    Sets.RemoveOne(UnreadRows(db, s), id);
    Sets.RemoveOne(UnreadRows(db', s), id);
    assert id in UnreadRows(db, s) <==> before;
    assert id in UnreadRows(db', s) <==> after;
  }

  lemma FlipLeavesTheRest(db: Db, s: SubId, id: NotifId, flip: Flip, now: Time)
    requires RowsHaveCounters(db) && VisibleTo(db, s, id, now)
    ensures
      var db' := FlipItem(db, s, id, flip, now);
      && (forall t | t in db.counters && (t != s || Owned(db, id)) :: UnreadRows(db', t) == UnreadRows(db, t))
      && (forall t | t in db.counters :: UnseenRows(db', t) == UnseenRows(db, t))
  {
    hide OwnedIn;
    var db' := FlipItem(db, s, id, flip, now);
    assert forall x :: Owned(db', x) == Owned(db, x);
    forall x | x in db.notifications
      ensures db'.notifications[x].subscriber == db.notifications[x].subscriber
      ensures CountsUnseen(db', db'.notifications[x]) == CountsUnseen(db, db.notifications[x])
      ensures x != id ==> CountsUnread(db', db'.notifications[x]) == CountsUnread(db, db.notifications[x])
    {
    }
    hide CountsUnread, CountsUnseen, FlipRow, Adjusted, FlipItem;
  }

  /**
   A flip looks for an owner in `jobs` alone. When the owner sits in `dead_letters`
   the flip adjusts the counter for a row that was never counted.
   */
  predicate FlipDrifts(db: Db, s: SubId, id: NotifId, flip: Flip, now: Time)
    requires RowsHaveCounters(db)
  {
    && VisibleTo(db, s, id, now) && Parked(db, id) && !Pending(db, id)
    && CountsUnread(db, db.notifications[id]) != CountsUnread(db, FlipRow(db.notifications[id], db.counters[s], flip, now))
  }

  /** The drift shows: the clamp at zero does not hide it. */
  predicate FlipBreaks(db: Db, s: SubId, id: NotifId, flip: Flip, now: Time)
    requires RowsHaveCounters(db)
  {
    && FlipDrifts(db, s, id, flip, now)
    && (CountsUnread(db, db.notifications[id]) ==> db.counters[s].unread != 0)
  }

  /** Exactly when a flip leaves an exact counter wrong; the unseen count it never touches. */
  lemma FlipBreaksExactness(db: Db, s: SubId, id: NotifId, flip: Flip, now: Time)
    requires RowsHaveCounters(db) && s in db.counters
    ensures
      var db' := FlipItem(db, s, id, flip, now);
      && RowsHaveCounters(db') && s in db'.counters
      && (UnreadIsExact(db, s) ==> (UnreadIsExact(db', s) <==> !FlipBreaks(db, s, id, flip, now)))
      && (UnseenIsExact(db', s) <==> UnseenIsExact(db, s))
  {
    if VisibleTo(db, s, id, now) {
      FlipLeavesTheRest(db, s, id, flip, now);
      if !Owned(db, id) {
        FlipMovesOneRow(db, s, id, flip, now);
      }
    }
  }

  function FlipDirt(db: Db, s: SubId, id: NotifId, flip: Flip, now: Time, dirty: Dirt): Dirt
    requires RowsHaveCounters(db)
  {
    if FlipBreaks(db, s, id, flip, now) then dirty + {(s, UnreadCount)} else dirty
  }

  lemma FlipKeepsAllExact(db: Db, s: SubId, id: NotifId, flip: Flip, now: Time, dirty: Dirt)
    requires RowsHaveCounters(db) && AllExact(db, dirty)
    ensures AllExact(FlipItem(db, s, id, flip, now), FlipDirt(db, s, id, flip, now, dirty))
  {
    hide FlipRow, Adjusted, Owned, UnreadRows, UnseenRows, FlipBreaks;
    if VisibleTo(db, s, id, now) {
      FlipLeavesTheRest(db, s, id, flip, now);
      FlipBreaksExactness(db, s, id, flip, now);
    } else {
      InvisibleFlip(db, s, id, flip, now);
    }
  }

  lemma InvisibleFlip(db: Db, s: SubId, id: NotifId, flip: Flip, now: Time)
    requires RowsHaveCounters(db) && !VisibleTo(db, s, id, now)
    ensures FlipItem(db, s, id, flip, now) == db && !FlipBreaks(db, s, id, flip, now)
  {
  }

  lemma FlipKeepsInv(db: Db, s: SubId, id: NotifId, flip: Flip, now: Time, clock: Time, dirty: Dirt)
    requires Inv(db, clock, dirty)
    ensures Inv(FlipItem(db, s, id, flip, now), clock, FlipDirt(db, s, id, flip, now, dirty))
  {
    FlipKeepsWellFormed(db, s, id, flip, now, clock);
    FlipKeepsAllExact(db, s, id, flip, now, dirty);
    hide FlipItem, FlipDirt;
  }

  /** In a state the invariant covers, `greatest(0, ...)` never has anything to do. */
  lemma ClampNeverFires(db: Db, s: SubId, id: NotifId, now: Time, clock: Time, dirty: Dirt)
    requires Inv(db, clock, dirty) && VisibleTo(db, s, id, now)
    requires (s, UnreadCount) !in dirty && !Stale(db, s) && !Owned(db, id)
    ensures CountsUnread(db, db.notifications[id]) ==> db.counters[s].unread - 1 >= 0
  {
    FlipMovesOneRow(db, s, id, FlipRead, now);
  }

  // ---------------------------------------------------------------- watermark moves

  /** Everything unowned is visible by `clock`, so a watermark at `clock` covers all of it. */
  lemma ReadAllKeepsWellFormed(db: Db, s: SubId, clock: Time)
    requires WellFormed(db, clock) && s in db.counters
    ensures WellFormed(ReadAll(db, s, clock), clock)
    ensures KeepsRowsAndJobs(db, ReadAll(db, s, clock))
  {
    hide JobsOk;
    var db' := ReadAll(db, s, clock);
    JobsFrame(db, db', clock);
    forall id | id in db'.notifications
      ensures RowOk(db'.notifications[id], db'.counters[db'.notifications[id].subscriber])
    {
      assert RowOk(db.notifications[id], db.counters[db.notifications[id].subscriber]);
    }
  }

  lemma ReadAllKeepsUnseen(db: Db, s: SubId, clock: Time, t: SubId)
    requires RowsHaveCounters(db) && s in db.counters && t in db.counters
    ensures UnseenRows(ReadAll(db, s, clock), t) == UnseenRows(db, t)
  {
    var db' := ReadAll(db, s, clock);
    assert forall id :: Owned(db', id) == Owned(db, id);
    hide Owned, Muted;
  }

  lemma ReadAllLeavesOthers(db: Db, s: SubId, clock: Time, t: SubId)
    requires RowsHaveCounters(db) && s in db.counters && t in db.counters && t != s
    ensures UnreadRows(ReadAll(db, s, clock), t) == UnreadRows(db, t)
  {
    var db' := ReadAll(db, s, clock);
    assert forall id :: Owned(db', id) == Owned(db, id);
    hide Owned, Muted, EffectivelyRead, EffectivelyArchived;
  }

  lemma ReadAllClears(db: Db, s: SubId, clock: Time)
    requires WellFormed(db, clock) && s in db.counters
    ensures UnreadRows(ReadAll(db, s, clock), s) == {}
  {
    hide JobsOk;
    var db' := ReadAll(db, s, clock);
    assert forall id :: Owned(db', id) == Owned(db, id);
    hide Owned, Muted;
    forall id | id in db'.notifications && db'.notifications[id].subscriber == s && !Owned(db', id)
      ensures !CountsUnread(db', db'.notifications[id])
    {
      assert db.notifications[id].visibleAt <= clock;
    }
  }

  lemma ReadAllCounts(db: Db, s: SubId, clock: Time, t: SubId)
    requires WellFormed(db, clock) && s in db.counters && t in db.counters
    ensures
      var db' := ReadAll(db, s, clock);
      && UnseenRows(db', t) == UnseenRows(db, t)
      && UnreadRows(db', t) == if t == s then {} else UnreadRows(db, t)
  {
    ReadAllKeepsUnseen(db, s, clock, t);
    if t == s {
      ReadAllClears(db, s, clock);
    } else {
      ReadAllLeavesOthers(db, s, clock, t);
    }
  }

  lemma ReadAllKeepsInv(db: Db, s: SubId, clock: Time, dirty: Dirt)
    requires Inv(db, clock, dirty)
    ensures Inv(ReadAll(db, s, clock), clock, dirty - {(s, UnreadCount)})
  {
    hide JobsOk, Timely, RowsOk, CountersOk, KeepsRowsAndJobs, Owned, Stale, UnreadRows, UnseenRows;
    if s in db.counters {
      var db' := ReadAll(db, s, clock);
      ReadAllKeepsWellFormed(db, s, clock);
      JobsFrame(db, db', clock);
      forall t | t in db.counters && !Stale(db, t)
        ensures ExactBut(db', t, dirty - {(s, UnreadCount)})
      {
        ReadAllCounts(db, s, clock, t);
      }
    }
  }

  lemma SeenAllKeepsWellFormed(db: Db, s: SubId, clock: Time)
    requires WellFormed(db, clock) && s in db.counters
    ensures WellFormed(SeenAll(db, s, clock), clock)
    ensures KeepsRowsAndJobs(db, SeenAll(db, s, clock))
  {
    hide JobsOk;
    var db' := SeenAll(db, s, clock);
    JobsFrame(db, db', clock);
    forall id | id in db'.notifications
      ensures RowOk(db'.notifications[id], db'.counters[db'.notifications[id].subscriber])
    {
      assert RowOk(db.notifications[id], db.counters[db.notifications[id].subscriber]);
    }
  }

  lemma SeenAllKeepsUnread(db: Db, s: SubId, clock: Time, t: SubId)
    requires RowsHaveCounters(db) && s in db.counters && t in db.counters
    ensures UnreadRows(SeenAll(db, s, clock), t) == UnreadRows(db, t)
  {
    var db' := SeenAll(db, s, clock);
    assert forall id :: Owned(db', id) == Owned(db, id);
    hide Owned, Muted;
  }

  lemma SeenAllLeavesOthers(db: Db, s: SubId, clock: Time, t: SubId)
    requires RowsHaveCounters(db) && s in db.counters && t in db.counters && t != s
    ensures UnseenRows(SeenAll(db, s, clock), t) == UnseenRows(db, t)
  {
    var db' := SeenAll(db, s, clock);
    assert forall id :: Owned(db', id) == Owned(db, id);
    hide Owned, Muted;
  }

  lemma SeenAllClears(db: Db, s: SubId, clock: Time)
    requires WellFormed(db, clock) && s in db.counters
    ensures UnseenRows(SeenAll(db, s, clock), s) == {}
  {
    hide JobsOk;
    var db' := SeenAll(db, s, clock);
    assert forall id :: Owned(db', id) == Owned(db, id);
    hide Owned, Muted;
    forall id | id in db'.notifications && db'.notifications[id].subscriber == s && !Owned(db', id)
      ensures !CountsUnseen(db', db'.notifications[id])
    {
      assert db.notifications[id].visibleAt <= clock;
    }
  }

  lemma SeenAllCounts(db: Db, s: SubId, clock: Time, t: SubId)
    requires WellFormed(db, clock) && s in db.counters && t in db.counters
    ensures
      var db' := SeenAll(db, s, clock);
      && UnreadRows(db', t) == UnreadRows(db, t)
      && UnseenRows(db', t) == if t == s then {} else UnseenRows(db, t)
  {
    SeenAllKeepsUnread(db, s, clock, t);
    if t == s {
      SeenAllClears(db, s, clock);
    } else {
      SeenAllLeavesOthers(db, s, clock, t);
    }
  }

  lemma SeenAllKeepsInv(db: Db, s: SubId, clock: Time, dirty: Dirt)
    requires Inv(db, clock, dirty)
    ensures Inv(SeenAll(db, s, clock), clock, dirty - {(s, UnseenCount)})
  {
    hide JobsOk, Timely, RowsOk, CountersOk, KeepsRowsAndJobs, Owned, Stale, UnreadRows, UnseenRows;
    if s in db.counters {
      var db' := SeenAll(db, s, clock);
      SeenAllKeepsWellFormed(db, s, clock);
      JobsFrame(db, db', clock);
      forall t | t in db.counters && !Stale(db, t)
        ensures ExactBut(db', t, dirty - {(s, UnseenCount)})
      {
        SeenAllCounts(db, s, clock, t);
      }
    }
  }

  lemma ArchiveAllKeepsWellFormed(db: Db, s: SubId, clock: Time)
    requires WellFormed(db, clock) && s in db.counters
    ensures WellFormed(ArchiveAll(db, s, clock), clock)
    ensures KeepsRowsAndJobs(db, ArchiveAll(db, s, clock))
  {
    hide JobsOk;
    var db' := ArchiveAll(db, s, clock);
    JobsFrame(db, db', clock);
    forall id | id in db'.notifications
      ensures RowOk(db'.notifications[id], db'.counters[db'.notifications[id].subscriber])
    {
      assert RowOk(db.notifications[id], db.counters[db.notifications[id].subscriber]);
    }
  }

  lemma ArchiveAllKeepsUnseen(db: Db, s: SubId, clock: Time, t: SubId)
    requires RowsHaveCounters(db) && s in db.counters && t in db.counters
    ensures UnseenRows(ArchiveAll(db, s, clock), t) == UnseenRows(db, t)
  {
    var db' := ArchiveAll(db, s, clock);
    assert forall id :: Owned(db', id) == Owned(db, id);
    hide Owned, Muted;
  }

  lemma ArchiveAllLeavesOthers(db: Db, s: SubId, clock: Time, t: SubId)
    requires RowsHaveCounters(db) && s in db.counters && t in db.counters && t != s
    ensures UnreadRows(ArchiveAll(db, s, clock), t) == UnreadRows(db, t)
  {
    var db' := ArchiveAll(db, s, clock);
    assert forall id :: Owned(db', id) == Owned(db, id);
    hide Owned, Muted, EffectivelyRead, EffectivelyArchived;
  }

  lemma ArchiveAllClears(db: Db, s: SubId, clock: Time)
    requires WellFormed(db, clock) && s in db.counters
    ensures UnreadRows(ArchiveAll(db, s, clock), s) == {}
  {
    hide JobsOk;
    var db' := ArchiveAll(db, s, clock);
    assert forall id :: Owned(db', id) == Owned(db, id);
    hide Owned, Muted;
    forall id | id in db'.notifications && db'.notifications[id].subscriber == s && !Owned(db', id)
      ensures !CountsUnread(db', db'.notifications[id])
    {
      assert db.notifications[id].visibleAt <= clock;
    }
  }

  lemma ArchiveAllCounts(db: Db, s: SubId, clock: Time, t: SubId)
    requires WellFormed(db, clock) && s in db.counters && t in db.counters
    ensures
      var db' := ArchiveAll(db, s, clock);
      && UnseenRows(db', t) == UnseenRows(db, t)
      && UnreadRows(db', t) == if t == s then {} else UnreadRows(db, t)
  {
    ArchiveAllKeepsUnseen(db, s, clock, t);
    if t == s {
      ArchiveAllClears(db, s, clock);
    } else {
      ArchiveAllLeavesOthers(db, s, clock, t);
    }
  }

  lemma ArchiveAllKeepsInv(db: Db, s: SubId, clock: Time, dirty: Dirt)
    requires Inv(db, clock, dirty)
    ensures Inv(ArchiveAll(db, s, clock), clock, dirty - {(s, UnreadCount)})
  {
    hide JobsOk, Timely, RowsOk, CountersOk, KeepsRowsAndJobs, Owned, Stale, UnreadRows, UnseenRows;
    if s in db.counters {
      var db' := ArchiveAll(db, s, clock);
      ArchiveAllKeepsWellFormed(db, s, clock);
      JobsFrame(db, db', clock);
      forall t | t in db.counters && !Stale(db, t)
        ensures ExactBut(db', t, dirty - {(s, UnreadCount)})
      {
        ArchiveAllCounts(db, s, clock, t);
      }
    }
  }

  /** Steps that touch only the broadcast tables do not concern the direct counters. */
  lemma BroadcastTablesAreApart(db: Db, db': Db, clock: Time, dirty: Dirt)
    requires Inv(db, clock, dirty)
    requires db' == db.(broadcasts := db'.broadcasts, broadcastReads := db'.broadcastReads,
                        broadcastArchives := db'.broadcastArchives)
    ensures Inv(db', clock, dirty)
  {
    JobsFrame(db, db', clock);
    forall t | t in db.counters
      ensures UnreadRows(db', t) == UnreadRows(db, t) && UnseenRows(db', t) == UnseenRows(db, t)
    {
    }
  }

  // ---------------------------------------------------------------- creation

  lemma EnrolKeepsInv(db: Db, subs: set<SubId>, begin: Time, clock: Time, dirty: Dirt)
    requires Inv(db, clock, dirty) && EPOCH <= clock
    ensures Inv(Enrol(db, subs, begin), clock, dirty)
  {
    var db' := Enrol(db, subs, begin);
    JobsFrame(db, db', clock);
    forall t | t in db.counters
      ensures UnreadRows(db', t) == UnreadRows(db, t) && UnseenRows(db', t) == UnseenRows(db, t)
    {
    }
    forall t | t in db'.counters && t !in db.counters
      ensures UnreadRows(db', t) == {} && UnseenRows(db', t) == {}
    {
    }
  }

  predicate CreateReady(db: Db, recipients: seq<SubId>, ids: seq<NotifId>, job: JobId) {
    && |ids| == |recipients| && Distinct(recipients) && Distinct(ids)
    && (forall id | id in ids :: id !in db.notifications)
    && job !in db.jobs && job !in db.deadLetters
  }

  /** Fresh rows are in nobody's count and in nobody's job yet. */
  lemma NewRowsKeepJobs(db: Db, recipients: seq<SubId>, ids: seq<NotifId>, category: Category,
                        deliverAt: Option<Time>, begin: Time, clock: Time)
    requires JobsOk(db, clock)
    requires |ids| == |recipients| && forall id | id in ids :: id !in db.notifications
    ensures JobsOk(WithNewRows(db, recipients, ids, category, deliverAt, begin), clock)
    ensures forall id | id in ids :: !Owned(db, id)
  {
    var db' := WithNewRows(db, recipients, ids, category, deliverAt, begin);
    forall j | j in db.jobs
      ensures DeliverOk(db', db'.jobs[j], DueBy(db'.jobs[j], clock))
    {
      assert DeliverOk(db, db.jobs[j], DueBy(db.jobs[j], clock));
    }
    forall j | j in db.deadLetters
      ensures DeliverOk(db', db'.deadLetters[j], clock)
    {
      assert DeliverOk(db, db.deadLetters[j], clock);
    }
  }

  /** What creation does to the rows of one subscriber. */
  lemma NewRowsOf(db: Db, recipients: seq<SubId>, ids: seq<NotifId>, category: Category,
                  deliverAt: Option<Time>, begin: Time, i: nat, x: NotifId)
    requires |ids| == |recipients| && Distinct(recipients) && Distinct(ids) && i < |ids|
    requires forall id | id in ids :: id !in db.notifications
    requires x in ids
    ensures
      var row := WithNewRows(db, recipients, ids, category, deliverAt, begin).notifications[x];
      && (row.subscriber == recipients[i] <==> x == ids[i])
      && row == NewRow(recipients[IndexOf(ids, x)], category, deliverAt, begin)
  {
  }

  /** One new unowned row changes the two counts by what that row counts for. */
  lemma GainsOne(db: Db, db': Db, t: SubId, id: NotifId)
    requires RowsHaveCounters(db) && RowsHaveCounters(db') && t in db.counters && t in db'.counters
    requires SameWatermarks(db.counters[t], db'.counters[t]) && db'.preferences == db.preferences
    requires db'.jobs == db.jobs && db'.deadLetters == db.deadLetters
    requires forall x | x in db.notifications :: x in db'.notifications && db'.notifications[x] == db.notifications[x]
    requires forall x | x in db'.notifications && db'.notifications[x].subscriber == t :: x in db.notifications || x == id
    requires id !in db.notifications && id in db'.notifications && db'.notifications[id].subscriber == t
    requires !Owned(db, id)
    ensures |UnreadRows(db', t)| == |UnreadRows(db, t)| + if CountsUnread(db', db'.notifications[id]) then 1 else 0
    ensures |UnseenRows(db', t)| == |UnseenRows(db, t)| + if CountsUnseen(db', db'.notifications[id]) then 1 else 0
  {
    assert forall x :: Owned(db', x) == Owned(db, x);
    assert UnreadRows(db', t) - {id} == UnreadRows(db, t);
    assert UnseenRows(db', t) - {id} == UnseenRows(db, t);
    Sets.RemoveOne(UnreadRows(db', t), id);
    Sets.RemoveOne(UnseenRows(db', t), id);
  }

  /** Immediate creation: the conditional bump adds exactly the row that the count gained. */
  lemma ImmediateCreateCounts(db: Db, recipients: seq<SubId>, ids: seq<NotifId>, category: Category,
                              job: JobId, begin: Time, clock: Time, i: nat)
    requires WellFormed(db, clock) && CreateReady(db, recipients, ids, job)
    requires forall s | s in recipients :: s in db.counters
    requires i < |recipients|
    ensures
      var db' := CreateRows(db, recipients, ids, category, None, job, begin);
      var t := recipients[i];
      && RowsHaveCounters(db')
      && db'.counters[t].unread - db.counters[t].unread == |UnreadRows(db', t)| - |UnreadRows(db, t)|
      && db'.counters[t].unseen - db.counters[t].unseen == |UnseenRows(db', t)| - |UnseenRows(db, t)|
  {
    hide JobsOk;
    var db' := CreateRows(db, recipients, ids, category, None, job, begin);
    var t, id := recipients[i], ids[i];
    NewRowsKeepJobs(db, recipients, ids, category, None, begin, clock);
    forall x | x in ids ensures db'.notifications[x].subscriber == t <==> x == id {
      NewRowsOf(db, recipients, ids, category, None, begin, i, x);
    }
    IndexIsUnique(ids, i);
    assert db'.notifications[id] == NewRow(t, category, None, begin);
    GainsOne(db, db', t, id);
  }

  lemma ImmediateCreateKeepsRows(db: Db, recipients: seq<SubId>, ids: seq<NotifId>, category: Category,
                                 job: JobId, begin: Time, clock: Time)
    requires WellFormed(db, clock) && CreateReady(db, recipients, ids, job)
    requires forall s | s in recipients :: s in db.counters
    requires begin <= clock
    ensures
      var db' := CreateRows(db, recipients, ids, category, None, job, begin);
      RowsHaveCounters(db') && RowsOk(db') && CountersOk(db', clock)
  {
    hide JobsOk, Timely;
  }

  lemma ImmediateCreateKeepsWellFormed(db: Db, recipients: seq<SubId>, ids: seq<NotifId>, category: Category,
                                       job: JobId, begin: Time, clock: Time)
    requires WellFormed(db, clock) && CreateReady(db, recipients, ids, job)
    requires forall s | s in recipients :: s in db.counters
    requires begin <= clock
    ensures WellFormed(CreateRows(db, recipients, ids, category, None, job, begin), clock)
  {
    hide RowsOk, CountersOk;
    var db' := CreateRows(db, recipients, ids, category, None, job, begin);
    ImmediateCreateKeepsRows(db, recipients, ids, category, job, begin, clock);
    NewRowsKeepJobs(db, recipients, ids, category, None, begin, clock);
    JobsFrame(WithNewRows(db, recipients, ids, category, None, begin), db', clock);
  }

  lemma ImmediateCreateKeepsExact(db: Db, recipients: seq<SubId>, ids: seq<NotifId>, category: Category,
                                  job: JobId, begin: Time, clock: Time, t: SubId)
    requires WellFormed(db, clock) && CreateReady(db, recipients, ids, job)
    requires forall s | s in recipients :: s in db.counters
    requires t in db.counters
    ensures
      var db' := CreateRows(db, recipients, ids, category, None, job, begin);
      RowsHaveCounters(db') && t in db'.counters && SameExactness(db, db', t)
  {
    assert RowsHaveCounters(db);
    hide WellFormed, CreateRows, IndexOf;
    if t in recipients {
      var i :| 0 <= i < |recipients| && recipients[i] == t;
      ImmediateCreateCounts(db, recipients, ids, category, job, begin, clock, i);
    } else {
      ImmediateCreateLeavesOthers(db, recipients, ids, category, job, begin, t);
    }
  }

  lemma ImmediateCreateLeavesOthers(db: Db, recipients: seq<SubId>, ids: seq<NotifId>, category: Category,
                                    job: JobId, begin: Time, t: SubId)
    requires RowsHaveCounters(db) && CreateReady(db, recipients, ids, job)
    requires forall s | s in recipients :: s in db.counters
    requires t in db.counters && t !in recipients
    ensures
      var db' := CreateRows(db, recipients, ids, category, None, job, begin);
      && RowsHaveCounters(db') && t in db'.counters && db'.counters[t] == db.counters[t]
      && UnreadRows(db', t) == UnreadRows(db, t) && UnseenRows(db', t) == UnseenRows(db, t)
  {
    var db' := CreateRows(db, recipients, ids, category, None, job, begin);
    assert forall x :: Owned(db', x) == Owned(db, x);
    hide Owned, Muted, BumpNew, EffectivelyRead, EffectivelyArchived;
  }

  lemma ImmediateCreateKeepsInv(db: Db, recipients: seq<SubId>, ids: seq<NotifId>, category: Category,
                                job: JobId, begin: Time, clock: Time, dirty: Dirt)
    requires Inv(db, clock, dirty) && CreateReady(db, recipients, ids, job)
    requires forall s | s in recipients :: s in db.counters
    requires begin <= clock
    ensures Inv(CreateRows(db, recipients, ids, category, None, job, begin), clock, dirty)
  {
    var db' := CreateRows(db, recipients, ids, category, None, job, begin);
    ImmediateCreateKeepsWellFormed(db, recipients, ids, category, job, begin, clock);
    forall t | t in db'.counters && !Stale(db', t)
      ensures ExactBut(db', t, dirty)
    {
      assert t in db.counters && !Stale(db, t);
      ImmediateCreateKeepsExact(db, recipients, ids, category, job, begin, clock, t);
    }
  }

  /** A scheduled row belongs to its new job, and to no other. */
  lemma ScheduledRowsAreOwned(db: Db, recipients: seq<SubId>, ids: seq<NotifId>, category: Category,
                              deliverAt: Time, job: JobId, begin: Time)
    requires |ids| == |recipients| && job !in db.jobs && job !in db.deadLetters
    ensures
      var db' := CreateRows(db, recipients, ids, category, Some(deliverAt), job, begin);
      && (forall x :: Owned(db', x) <==> Owned(db, x) || x in ids)
      && (forall x | x in ids :: Owns(db'.jobs[job], x))
  {
    var db' := CreateRows(db, recipients, ids, category, Some(deliverAt), job, begin);
    var mine := db'.jobs[job];
    assert mine.work.ids[0..] == ids;
    forall x
      ensures Pending(db', x) <==> Pending(db, x) || x in ids
    {
      if x in ids {
        assert Owns(db'.jobs[job], x);
      }
      if j :| j in db.jobs && Owns(db.jobs[j], x) {
        assert j in db'.jobs && Owns(db'.jobs[j], x);
      }
    }
  }

  /** A deliver job for rows no job names joins the queue. */
  lemma AddingDeliverJob(db: Db, db': Db, j: JobId, job: Job, clock: Time)
    requires JobsOk(db, clock) && j !in db.jobs && j !in db.deadLetters
    requires db'.jobs == db.jobs[j := job] && db'.deadLetters == db.deadLetters && db'.notifications == db.notifications
    requires DeliverOk(db', job, DueBy(job, clock))
    requires forall k | k in db.jobs :: Apart(job, db.jobs[k]) && Apart(db.jobs[k], job)
    requires forall k | k in db.deadLetters :: Apart(job, db.deadLetters[k])
    ensures JobsOk(db', clock)
  {
    hide Apart, Distinct, Owns;
    forall k | k in db'.jobs
      ensures DeliverOk(db', db'.jobs[k], DueBy(db'.jobs[k], clock))
    {
      if k != j {
        assert DeliverOk(db, db.jobs[k], DueBy(db.jobs[k], clock));
      }
    }
    forall k | k in db'.deadLetters
      ensures DeliverOk(db', db'.deadLetters[k], clock)
    {
      assert DeliverOk(db, db.deadLetters[k], clock);
    }
  }

  /** A job names old rows, so none of the new ones. */
  lemma NewIdsAreApart(db: Db, ids: seq<NotifId>, mine: Job, other: Job, due: Time)
    requires DeliverOk(db, other, due) && mine.work == Deliver(ids, 0) && forall id | id in ids :: id !in db.notifications
    ensures Apart(mine, other) && Apart(other, mine)
  {
  }

  lemma NewJobIsOk(db: Db, recipients: seq<SubId>, ids: seq<NotifId>, category: Category,
                   deliverAt: Time, job: JobId, begin: Time, clock: Time)
    requires CreateReady(db, recipients, ids, job)
    ensures
      var db' := CreateRows(db, recipients, ids, category, Some(deliverAt), job, begin);
      && db'.jobs == db.jobs[job := Job(Deliver(ids, 0), deliverAt, 0, MAX_ATTEMPTS)]
      && DeliverOk(db', db'.jobs[job], DueBy(db'.jobs[job], clock))
  {
    hide IndexOf;
  }

  lemma ScheduledCreateKeepsJobs(db: Db, recipients: seq<SubId>, ids: seq<NotifId>, category: Category,
                                 deliverAt: Time, job: JobId, begin: Time, clock: Time)
    requires JobsOk(db, clock) && CreateReady(db, recipients, ids, job)
    ensures JobsOk(CreateRows(db, recipients, ids, category, Some(deliverAt), job, begin), clock)
  {
    var db' := CreateRows(db, recipients, ids, category, Some(deliverAt), job, begin);
    var mid := WithNewRows(db, recipients, ids, category, Some(deliverAt), begin);
    var mine := db'.jobs[job];
    assert mine.work == Deliver(ids, 0);
    NewRowsKeepJobs(db, recipients, ids, category, Some(deliverAt), begin, clock);
    NewJobIsOk(db, recipients, ids, category, deliverAt, job, begin, clock);
    forall k | k in db.jobs ensures Apart(mine, db.jobs[k]) && Apart(db.jobs[k], mine) {
      NewIdsAreApart(db, ids, mine, db.jobs[k], DueBy(db.jobs[k], clock));
    }
    forall k | k in db.deadLetters ensures Apart(mine, db.deadLetters[k]) {
      NewIdsAreApart(db, ids, mine, db.deadLetters[k], clock);
    }
    hide Apart, DeliverOk, JobsOk, IndexOf;
    AddingDeliverJob(mid, db', job, mine, clock);
  }

  lemma ScheduledCreateKeepsInv(db: Db, recipients: seq<SubId>, ids: seq<NotifId>, category: Category,
                                deliverAt: Time, job: JobId, begin: Time, clock: Time, dirty: Dirt)
    requires Inv(db, clock, dirty) && CreateReady(db, recipients, ids, job)
    requires forall s | s in recipients :: s in db.counters
    ensures Inv(CreateRows(db, recipients, ids, category, Some(deliverAt), job, begin), clock, dirty)
  {
    hide JobsOk, AllExact, Stale, OwnedIn;
    var db' := CreateRows(db, recipients, ids, category, Some(deliverAt), job, begin);
    ScheduledRowsAreOwned(db, recipients, ids, category, deliverAt, job, begin);
    ScheduledCreateKeepsJobs(db, recipients, ids, category, deliverAt, job, begin, clock);
    StaleAfterAdding(db, db', job);
    assert WellFormed(db', clock);
    OwnedRowsCountNothing(db, db', dirty);
  }

  /** Rows that arrive owned change no count. */
  lemma OwnedRowsCountNothing(db: Db, db': Db, dirty: Dirt)
    requires RowsHaveCounters(db) && RowsHaveCounters(db') && AllExact(db, dirty)
    requires db'.counters == db.counters && db'.preferences == db.preferences
    requires forall x | x in db.notifications :: x in db'.notifications && db'.notifications[x] == db.notifications[x]
    requires forall x | x in db'.notifications && x !in db.notifications :: Owned(db', x)
    requires forall x | x in db.notifications :: Owned(db', x) == Owned(db, x)
    requires forall t :: Stale(db', t) == Stale(db, t)
    ensures AllExact(db', dirty)
  {
    forall t | t in db.counters
      ensures UnreadRows(db', t) == UnreadRows(db, t) && UnseenRows(db', t) == UnseenRows(db, t)
    {
    }
  }

  /** Adding a job makes at most its own subscriber stale. */
  lemma StaleAfterAdding(db: Db, db': Db, job: JobId)
    requires job !in db.jobs && job in db'.jobs && db'.jobs == db.jobs[job := db'.jobs[job]]
    requires db'.deadLetters == db.deadLetters
    ensures forall t :: Stale(db', t) <==> Stale(db, t) || db'.jobs[job].work == CounterRebuild(t)
  {
    forall t ensures RebuildIn(db'.jobs, t) <==> RebuildIn(db.jobs, t) || db'.jobs[job].work == CounterRebuild(t) {
      if j :| j in db'.jobs && db'.jobs[j].work == CounterRebuild(t) {
        if j != job {
          assert j in db.jobs;
        }
      }
      if j :| j in db.jobs && db.jobs[j].work == CounterRebuild(t) {
        assert j in db'.jobs && db'.jobs[j].work == CounterRebuild(t);
      }
    }
  }

  /** A new job that owns nothing changes no ownership. */
  lemma AddingIdleJob(db: Db, job: JobId, work: Job, clock: Time)
    requires JobsOk(db, clock) && Timely(db, clock)
    requires job !in db.jobs && job !in db.deadLetters && !work.work.Deliver?
    ensures
      var db' := db.(jobs := db.jobs[job := work]);
      JobsOk(db', clock) && Timely(db', clock) && forall x :: Owned(db', x) == Owned(db, x)
  {
    AddingIdleKeepsQueue(db, job, work, clock);
    hide JobsOk;
    var db' := db.(jobs := db.jobs[job := work]);
    forall x ensures Owned(db', x) == Owned(db, x) {
      if j :| j in db.jobs && Owns(db.jobs[j], x) {
        assert j in db'.jobs && Owns(db'.jobs[j], x);
      }
    }
  }

  lemma AddingIdleKeepsQueue(db: Db, job: JobId, work: Job, clock: Time)
    requires JobsOk(db, clock) && job !in db.jobs && job !in db.deadLetters && !work.work.Deliver?
    ensures JobsOk(db.(jobs := db.jobs[job := work]), clock)
  {
    var db' := db.(jobs := db.jobs[job := work]);
    StillApart(db, db');
    hide Distinct, Owns, AllApart;
    forall j | j in db'.jobs
      ensures DeliverOk(db', db'.jobs[j], DueBy(db'.jobs[j], clock))
    {
      if j != job {
        assert DeliverOk(db, db.jobs[j], DueBy(db.jobs[j], clock));
      }
    }
    forall j | j in db.deadLetters
      ensures DeliverOk(db', db'.deadLetters[j], clock)
    {
      assert DeliverOk(db, db.deadLetters[j], clock);
    }
  }

  lemma RequestArchiveReadKeepsInv(db: Db, s: SubId, job: JobId, begin: Time, clock: Time, dirty: Dirt)
    requires Inv(db, clock, dirty) && job !in db.jobs && job !in db.deadLetters
    ensures Inv(RequestArchiveRead(db, s, job, begin, clock), clock, dirty)
  {
    if s in db.counters {
      var db' := RequestArchiveRead(db, s, job, begin, clock);
      AddingIdleJob(db, job, db'.jobs[job], clock);
      StaleAfterAdding(db, db', job);
      forall t | t in db.counters
        ensures UnreadRows(db', t) == UnreadRows(db, t) && UnseenRows(db', t) == UnseenRows(db, t)
      {
      }
    }
  }

  // ---------------------------------------------------------------- preferences

  lemma {:induction false} WriteManyTouchesOnly(preferences: map<(SubId, Category), bool>, s: SubId, entries: seq<Preference>)
    ensures
      var after := WriteMany(preferences, s, entries);
      forall k: (SubId, Category) | k.0 != s :: (k in after <==> k in preferences) && (k in after ==> after[k] == preferences[k])
  {
    if entries != [] {
      WriteManyTouchesOnly(preferences, s, entries[..|entries| - 1]);
    }
  }

  /** The last entry for a category decides it: enabled means no row, disabled means a row that says so. */
  lemma {:induction false} LastEntryDecides(preferences: map<(SubId, Category), bool>, s: SubId, entries: seq<Preference>, i: nat)
    requires i < |entries|
    requires forall j | i < j < |entries| :: entries[j].category != entries[i].category
    ensures
      var after := WriteMany(preferences, s, entries);
      var k := (s, entries[i].category);
      && (if entries[i].enabled then k !in after else k in after && !after[k])
      && Muted(after, s, entries[i].category) == !entries[i].enabled
    decreases |entries|
  {
    var n := |entries| - 1;
    if i < n {
      LastEntryDecides(preferences, s, entries[..n], i);
    }
  }

  /** Unlisted categories are untouched. */
  lemma {:induction false} UnlistedStays(preferences: map<(SubId, Category), bool>, s: SubId, entries: seq<Preference>, category: Category)
    requires forall p | p in entries :: p.category != category
    ensures
      var after := WriteMany(preferences, s, entries);
      var k := (s, category);
      && (k in after <==> k in preferences) && (k in preferences ==> after[k] == preferences[k])
      && Muted(after, s, category) == Muted(preferences, s, category)
  {
    if entries != [] {
      var n := |entries| - 1;
      assert forall p | p in entries[..n] :: p in entries;
      assert entries[n] in entries;
      UnlistedStays(preferences, s, entries[..n], category);
    }
  }

  /** A write that touches no row leaves every mute as it was: no recount is owed. */
  lemma {:induction false} UntouchedMeansUnchanged(preferences: map<(SubId, Category), bool>, s: SubId, entries: seq<Preference>)
    requires !TouchesARow(preferences, s, entries)
    ensures WriteMany(preferences, s, entries) == preferences
  {
    if entries != [] {
      var n := |entries| - 1;
      var init := entries[..n];
      assert forall i | 0 <= i < n :: init[..i] == entries[..i] && init[i] == entries[i];
      UntouchedMeansUnchanged(preferences, s, init);
      assert WriteOne(WriteMany(preferences, s, entries[..n]), s, entries[n]) == WriteMany(preferences, s, entries[..n]);
    }
  }

  /** Mutes are per subscriber: nobody else's counts move. */
  lemma MutesOfOneSubscriber(db: Db, db': Db, s: SubId, dirty: Dirt)
    requires RowsHaveCounters(db) && AllExact(db, dirty)
    requires db'.notifications == db.notifications && db'.counters == db.counters
    requires forall x :: Owned(db', x) == Owned(db, x)
    requires forall k: (SubId, Category) | k.0 != s ::
               (k in db'.preferences <==> k in db.preferences)
               && (k in db'.preferences ==> db'.preferences[k] == db.preferences[k])
    requires forall t :: Stale(db', t) <==> Stale(db, t) || t == s
    ensures AllExact(db', dirty)
  {
    forall t | t in db.counters && t != s
      ensures UnreadRows(db', t) == UnreadRows(db, t) && UnseenRows(db', t) == UnseenRows(db, t)
    {
    }
  }

  lemma PreferenceWriteKeepsWellFormed(db: Db, s: SubId, entries: seq<Preference>, job: JobId, begin: Time, clock: Time)
    requires WellFormed(db, clock) && job !in db.jobs && job !in db.deadLetters
    requires WellFormedWrite(entries) && TouchesARow(db.preferences, s, entries)
    ensures
      var db' := WritePreferences(db, s, entries, job, begin);
      WellFormed(db', clock) && forall x :: Owned(db', x) == Owned(db, x)
  {
    var db' := WritePreferences(db, s, entries, job, begin);
    AddingIdleJob(db, job, db'.jobs[job], clock);
    JobsFrame(db.(jobs := db'.jobs), db', clock);
  }

  lemma PreferenceWriteKeepsExact(db: Db, s: SubId, entries: seq<Preference>, job: JobId, begin: Time, dirty: Dirt)
    requires RowsHaveCounters(db) && AllExact(db, dirty) && job !in db.jobs
    requires WellFormedWrite(entries) && TouchesARow(db.preferences, s, entries)
    requires forall x :: Owned(WritePreferences(db, s, entries, job, begin), x) == Owned(db, x)
    ensures
      var db' := WritePreferences(db, s, entries, job, begin);
      RowsHaveCounters(db') && AllExact(db', dirty)
  {
    var db' := WritePreferences(db, s, entries, job, begin);
    WriteManyTouchesOnly(db.preferences, s, entries);
    StaleAfterAdding(db, db', job);
    MutesOfOneSubscriber(db, db', s, dirty);
  }

  lemma WritePreferencesKeepsInv(db: Db, s: SubId, entries: seq<Preference>, job: JobId, begin: Time, clock: Time, dirty: Dirt)
    requires Inv(db, clock, dirty) && job !in db.jobs && job !in db.deadLetters
    ensures Inv(WritePreferences(db, s, entries, job, begin), clock, dirty)
  {
    if WellFormedWrite(entries) {
      var db' := WritePreferences(db, s, entries, job, begin);
      if TouchesARow(db.preferences, s, entries) {
        PreferenceWriteKeepsWellFormed(db, s, entries, job, begin, clock);
        PreferenceWriteKeepsExact(db, s, entries, job, begin, dirty);
      } else {
        UntouchedMeansUnchanged(db.preferences, s, entries);
        assert db' == db;
      }
    }
  }
}
