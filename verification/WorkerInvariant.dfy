/**
 The worker's transactions, the dead-letter queue and the move of notifications:
 what each does to ownership, and that the counters stay exact through it.
 */
module WorkerInvariant {
  import opened Wrappers
  import opened Keyset
  import opened InboxState
  import opened InboxSteps
  import opened InboxInvariant
  import Sets

  // ---------------------------------------------------------------- deliver

  lemma ChunkIsASlice(ids: seq<NotifId>, offset: nat)
    requires offset <= |ids|
    ensures
      var chunk := Chunk(ids, offset);
      && offset + |chunk| <= |ids|
      && chunk == ids[offset..offset + |chunk|]
      && (offset < |ids| ==> chunk != [])
      && forall x :: x in ids[offset..] <==> x in chunk || x in ids[offset + |chunk|..]
  {
  }

  /** The ids of a chunk are owned by its job, and by nobody else. */
  lemma ChunkIsOwnedOnce(db: Db, j: JobId, clock: Time, x: NotifId)
    requires JobsOk(db, clock) && j in db.jobs && db.jobs[j].work.Deliver?
    requires x in Chunk(db.jobs[j].work.ids, db.jobs[j].work.offset)
    ensures
      var chunk := Chunk(db.jobs[j].work.ids, db.jobs[j].work.offset);
      && Owns(db.jobs[j], x)
      && x !in db.jobs[j].work.ids[db.jobs[j].work.offset + |chunk|..]
      && (forall k | k in db.jobs && k != j :: !Owns(db.jobs[k], x))
      && (forall k | k in db.deadLetters :: !Owns(db.deadLetters[k], x))
  {
    var job := db.jobs[j];
    assert DeliverOk(db, job, DueBy(job, clock));
    ChunkIsASlice(job.work.ids, job.work.offset);
    assert x in job.work.ids;
    forall k | k in db.jobs && k != j ensures !Owns(db.jobs[k], x) {
      ApartMeansNotOwned(job, db.jobs[k], x);
    }
    forall k | k in db.deadLetters ensures !Owns(db.deadLetters[k], x) {
      ApartMeansNotOwned(job, db.deadLetters[k], x);
    }
    hide JobsOk, DeliverOk, Apart;
  }

  lemma ApartMeansNotOwned(job: Job, other: Job, x: NotifId)
    requires job.work.Deliver? && x in job.work.ids && Apart(job, other)
    ensures !Owns(other, x)
  {
  }

  /** A committed chunk gives up exactly its own ids. */
  lemma DeliverReleasesItsChunk(db: Db, j: JobId, clock: Time)
    requires RowsHaveCounters(db) && JobsOk(db, clock) && j in db.jobs && db.jobs[j].work.Deliver?
    ensures
      var db' := RunDeliver(db, j);
      var chunk := Chunk(db.jobs[j].work.ids, db.jobs[j].work.offset);
      && (forall x :: Owned(db', x) <==> Owned(db, x) && x !in chunk)
      && (forall x | x in chunk :: Owns(db.jobs[j], x))
  {
    hide Bumped;
    var db' := RunDeliver(db, j);
    var job := db.jobs[j];
    var chunk := Chunk(job.work.ids, job.work.offset);
    assert DeliverOk(db, job, DueBy(job, clock));
    ChunkIsASlice(job.work.ids, job.work.offset);
    forall x | x in chunk
      ensures Owns(job, x) && !Owned(db', x)
    {
      ChunkIsOwnedOnce(db, j, clock, x);
    }
    forall x | x !in chunk ensures Pending(db', x) == Pending(db, x) {
      if k :| k in db.jobs && Owns(db.jobs[k], x) {
        assert k in db'.jobs && Owns(db'.jobs[k], x);
      }
      if k :| k in db'.jobs && Owns(db'.jobs[k], x) {
        assert k in db.jobs && Owns(db.jobs[k], x);
      }
    }
  }

  /** Rewriting a job without changing the ids it names keeps the queue in order. */
  lemma RewritingJob(db: Db, db': Db, j: JobId, job: Job, clock: Time)
    requires JobsOk(db, clock) && j in db.jobs
    requires job.work.Deliver? == db.jobs[j].work.Deliver? && (job.work.Deliver? ==> job.work.ids == db.jobs[j].work.ids)
    requires db'.jobs == db.jobs[j := job] && db'.deadLetters == db.deadLetters && db'.notifications == db.notifications
    requires DeliverOk(db', job, DueBy(job, clock))
    ensures JobsOk(db', clock)
  {
    StillApart(db, db');
    hide AllApart, Owns;
    forall k | k in db'.jobs && k != j
      ensures DeliverOk(db', db'.jobs[k], DueBy(db'.jobs[k], clock))
    {
      assert DeliverOk(db, db.jobs[k], DueBy(db.jobs[k], clock));
    }
    forall k | k in db'.deadLetters
      ensures DeliverOk(db', db'.deadLetters[k], clock)
    {
      assert DeliverOk(db, db.deadLetters[k], clock);
    }
  }

  lemma RemovingJob(db: Db, db': Db, j: JobId, clock: Time)
    requires JobsOk(db, clock)
    requires db'.jobs == db.jobs - {j} && db'.deadLetters == db.deadLetters && db'.notifications == db.notifications
    ensures JobsOk(db', clock)
  {
    StillApart(db, db');
    hide AllApart, Owns;
    forall k | k in db'.jobs
      ensures DeliverOk(db', db'.jobs[k], DueBy(db'.jobs[k], clock))
    {
      assert DeliverOk(db, db.jobs[k], DueBy(db.jobs[k], clock));
    }
    forall k | k in db'.deadLetters
      ensures DeliverOk(db', db'.deadLetters[k], clock)
    {
      assert DeliverOk(db, db.deadLetters[k], clock);
    }
  }

  lemma DeliverKeepsJobs(db: Db, j: JobId, begin: Time, clock: Time)
    requires RowsHaveCounters(db) && JobsOk(db, clock) && j in db.jobs && db.jobs[j].work.Deliver?
    requires db.jobs[j].runAt <= begin <= clock
    ensures
      var db' := RunDeliver(db, j);
      && JobsOk(db', clock)
      && forall x | x in Chunk(db.jobs[j].work.ids, db.jobs[j].work.offset) ::
           x in db.notifications && db.notifications[x].visibleAt <= clock
  {
    hide JobsOk, Chunk, Bumped;
    var db' := RunDeliver(db, j);
    var job := db.jobs[j];
    var chunk := Chunk(job.work.ids, job.work.offset);
    JobIsOk(db, j, clock);
    ChunkIsASlice(job.work.ids, job.work.offset);
    var next := job.work.offset + |chunk|;
    if next < |job.work.ids| {
      RewritingJob(db, db', j, job.(work := Deliver(job.work.ids, next)), clock);
    } else {
      RemovingJob(db, db', j, clock);
    }
  }

  lemma JobIsOk(db: Db, j: JobId, clock: Time)
    requires JobsOk(db, clock) && j in db.jobs
    ensures DeliverOk(db, db.jobs[j], DueBy(db.jobs[j], clock))
  {
  }

  /** The bump of one chunk is the growth of the two counts, for every subscriber. */
  lemma DeliverCounts(db: Db, j: JobId, clock: Time, t: SubId)
    requires RowsHaveCounters(db) && JobsOk(db, clock) && j in db.jobs && db.jobs[j].work.Deliver?
    requires t in db.counters
    ensures
      var db' := RunDeliver(db, j);
      var chunk := Chunk(db.jobs[j].work.ids, db.jobs[j].work.offset);
      && UnreadRows(db, t) !! ChunkUnread(db, t, chunk)
      && UnreadRows(db', t) == UnreadRows(db, t) + ChunkUnread(db, t, chunk)
      && UnseenRows(db, t) !! ChunkUnseen(db, t, chunk)
      && UnseenRows(db', t) == UnseenRows(db, t) + ChunkUnseen(db, t, chunk)
  {
    hide JobsOk;
    DeliverReleasesItsChunk(db, j, clock);
    var db' := RunDeliver(db, j);
    var chunk := Chunk(db.jobs[j].work.ids, db.jobs[j].work.offset);
    forall x | x in chunk ensures Owned(db, x) {
      assert Owns(db.jobs[j], x);
    }
    assert forall x | x in db.notifications ::
        CountsUnread(db', db'.notifications[x]) == CountsUnread(db, db.notifications[x])
        && CountsUnseen(db', db'.notifications[x]) == CountsUnseen(db, db.notifications[x]);
  }

  lemma DeliverKeepsWellFormed(db: Db, j: JobId, begin: Time, clock: Time)
    requires WellFormed(db, clock) && j in db.jobs && db.jobs[j].work.Deliver?
    requires db.jobs[j].runAt <= begin <= clock
    ensures WellFormed(RunDeliver(db, j), clock)
  {
    hide JobsOk, Chunk, ChunkUnread, ChunkUnseen, Owned;
    DeliverKeepsJobs(db, j, begin, clock);
    DeliverReleasesItsChunk(db, j, clock);
  }

  lemma DeliverKeepsInv(db: Db, j: JobId, begin: Time, clock: Time, dirty: Dirt)
    requires Inv(db, clock, dirty) && j in db.jobs && db.jobs[j].work.Deliver?
    requires db.jobs[j].runAt <= begin <= clock
    ensures Inv(RunDeliver(db, j), clock, dirty)
  {
    hide JobsOk, Timely, RowsOk, CountersOk, Chunk, UnreadRows, UnseenRows, ChunkUnread, ChunkUnseen;
    var db' := RunDeliver(db, j);
    DeliverKeepsWellFormed(db, j, begin, clock);
    StaleAfterChanging(db, db', j);
    forall t | t in db'.counters && !Stale(db', t)
      ensures ExactBut(db', t, dirty)
    {
      DeliverCounts(db, j, clock, t);
    }
  }

  /** Rewriting or deleting a job that is no rebuild makes nobody stale and nobody fresh. */
  lemma StaleAfterChanging(db: Db, db': Db, j: JobId)
    requires j in db.jobs && !db.jobs[j].work.CounterRebuild?
    requires db'.deadLetters == db.deadLetters
    requires forall k | k in db.jobs && k != j :: k in db'.jobs && db'.jobs[k] == db.jobs[k]
    requires forall k | k in db'.jobs && k != j :: k in db.jobs
    requires j in db'.jobs ==> !db'.jobs[j].work.CounterRebuild?
    ensures forall t :: Stale(db', t) == Stale(db, t)
  {
  }

  /** Rewriting or deleting a job that owns nothing leaves ownership alone. */
  lemma ChangingIdleJob(db: Db, db': Db, j: JobId, clock: Time)
    requires JobsOk(db, clock) && Timely(db, clock)
    requires j in db.jobs && !db.jobs[j].work.Deliver?
    requires IdleJobStep(db, db', j)
    requires db' == db.(jobs := db'.jobs)
    ensures JobsOk(db', clock) && Timely(db', clock) && forall x :: Owned(db', x) == Owned(db, x)
  {
    IdleJobOwnsNothing(db, db', j);
    StillApart(db, db');
    hide AllApart, Owns, OwnedIn;
    forall k | k in db'.jobs
      ensures DeliverOk(db', db'.jobs[k], DueBy(db'.jobs[k], clock))
    {
      if k != j {
        assert DeliverOk(db, db.jobs[k], DueBy(db.jobs[k], clock));
      }
    }
    forall k | k in db'.deadLetters
      ensures DeliverOk(db', db'.deadLetters[k], clock)
    {
      assert DeliverOk(db, db.deadLetters[k], clock);
    }
  }

  lemma IdleJobOwnsNothing(db: Db, db': Db, j: JobId)
    requires j in db.jobs && !db.jobs[j].work.Deliver? && IdleJobStep(db, db', j) && db'.deadLetters == db.deadLetters
    ensures forall x :: Owned(db', x) == Owned(db, x)
  {
    forall x ensures Owned(db', x) == Owned(db, x) {
      if k :| k in db.jobs && Owns(db.jobs[k], x) {
        assert k in db'.jobs && Owns(db'.jobs[k], x);
      }
      if k :| k in db'.jobs && Owns(db'.jobs[k], x) {
        assert k in db.jobs && Owns(db.jobs[k], x);
      }
    }
  }

  // ---------------------------------------------------------------- recount

  /** The recount's pinned `now` is past every row it should see, and no row of `s` is parked. */
  predicate RecountSafe(db: Db, s: SubId, now: Time) {
    forall id | id in db.notifications && db.notifications[id].subscriber == s && !Pending(db, id) ::
      db.notifications[id].visibleAt <= now && !Parked(db, id)
  }

  /** Counted rows the pinned `now` is too early to see. */
  ghost function LateUnread(db: Db, s: SubId, now: Time): set<NotifId>
    requires RowsHaveCounters(db)
  {
    set id | id in UnreadRows(db, s) && db.notifications[id].visibleAt > now
  }

  /** Visible rows a parked deliver job still has to bump, which `jobs` alone does not show. */
  ghost function ParkedUnread(db: Db, s: SubId, now: Time): set<NotifId>
    requires RowsHaveCounters(db)
  {
    set id | id in RecountedUnread(db, s, now) && Parked(db, id)
  }

  ghost function LateUnseen(db: Db, s: SubId, now: Time): set<NotifId>
    requires RowsHaveCounters(db)
  {
    set id | id in UnseenRows(db, s) && db.notifications[id].visibleAt > now
  }

  ghost function ParkedUnseen(db: Db, s: SubId, now: Time): set<NotifId>
    requires RowsHaveCounters(db)
  {
    set id | id in RecountedUnseen(db, s, now) && Parked(db, id)
  }

  /** Two counts that agree on all but some rows differ by the sizes of those. */
  lemma CountsDrift(recounted: set<NotifId>, right: set<NotifId>, parked: set<NotifId>, late: set<NotifId>)
    requires parked <= recounted && late <= right && recounted - parked == right - late
    ensures |recounted| - |right| == |parked| - |late|
  {
    Sets.SubsetSize(parked, recounted);
    Sets.SubsetSize(late, right);
  }

  /**
   How far off a recount can land, exactly: up by the parked rows it counts too early,
   down by the late rows it cannot see yet.
   */
  lemma RecountDrift(db: Db, s: SubId, now: Time)
    requires RowsHaveCounters(db) && s in db.counters
    ensures
      var c := Recount(db, s, now).counters[s];
      && c.unread - |UnreadRows(db, s)| == |ParkedUnread(db, s, now)| - |LateUnread(db, s, now)|
      && c.unseen - |UnseenRows(db, s)| == |ParkedUnseen(db, s, now)| - |LateUnseen(db, s, now)|
  {
    hide OwnedIn, CountsUnread, CountsUnseen;
    CountsDrift(RecountedUnread(db, s, now), UnreadRows(db, s), ParkedUnread(db, s, now), LateUnread(db, s, now));
    CountsDrift(RecountedUnseen(db, s, now), UnseenRows(db, s), ParkedUnseen(db, s, now), LateUnseen(db, s, now));
  }

  /** A recount counts as many parked rows too early as it misses late ones. */
  ghost predicate UnreadErrorsCancel(db: Db, s: SubId, now: Time)
    requires RowsHaveCounters(db)
  {
    |ParkedUnread(db, s, now)| == |LateUnread(db, s, now)|
  }

  ghost predicate UnseenErrorsCancel(db: Db, s: SubId, now: Time)
    requires RowsHaveCounters(db)
  {
    |ParkedUnseen(db, s, now)| == |LateUnseen(db, s, now)|
  }

  /** Exactly when a recount lands on the right numbers. */
  lemma RecountIsExactIff(db: Db, s: SubId, now: Time)
    requires RowsHaveCounters(db) && s in db.counters
    ensures
      var db' := Recount(db, s, now);
      && RowsHaveCounters(db')
      && (UnreadIsExact(db', s) <==> UnreadErrorsCancel(db, s, now))
      && (UnseenIsExact(db', s) <==> UnseenErrorsCancel(db, s, now))
  {
    RecountDrift(db, s, now);
    CountsFrame(db, Recount(db, s, now), s);
  }

  /** A recount past every row it should see, with none parked, has no errors to cancel. */
  lemma SafeRecountIsExact(db: Db, s: SubId, now: Time)
    requires RowsHaveCounters(db) && RecountSafe(db, s, now)
    ensures UnreadErrorsCancel(db, s, now) && UnseenErrorsCancel(db, s, now)
  {
    assert ParkedUnread(db, s, now) == {} && LateUnread(db, s, now) == {};
    assert ParkedUnseen(db, s, now) == {} && LateUnseen(db, s, now) == {};
  }

  lemma OneCountersRow(db: Db, db': Db, s: SubId, t: SubId)
    requires RowsHaveCounters(db) && s in db.counters && t in db.counters && t != s
    requires s in db'.counters && db' == db.(counters := db.counters[s := db'.counters[s]])
    ensures RowsHaveCounters(db') && t in db'.counters && SameExactness(db, db', t)
  {
    assert db'.counters[t] == db.counters[t];
    CountsFrame(db, db', t);
  }

  lemma RecountLeavesOthers(db: Db, s: SubId, now: Time, t: SubId)
    requires RowsHaveCounters(db) && t in db.counters && t != s
    ensures RowsHaveCounters(Recount(db, s, now)) && SameExactness(db, Recount(db, s, now), t)
  {
    if s in db.counters {
      OneCountersRow(db, Recount(db, s, now), s, t);
    }
  }

  lemma RecountKeepsWellFormed(db: Db, s: SubId, now: Time, clock: Time)
    requires WellFormed(db, clock)
    ensures WellFormed(Recount(db, s, now), clock)
    ensures forall x :: Owned(Recount(db, s, now), x) == Owned(db, x)
    ensures forall x :: Stale(Recount(db, s, now), x) == Stale(db, x)
  {
    hide RecountedUnread, RecountedUnseen, JobsOk, Timely, OwnedIn, RebuildIn;
    JobsFrame(db, Recount(db, s, now), clock);
  }

  /** A recount clears both marks of its subscriber, and sets those whose errors do not cancel. */
  ghost function RecountDirt(db: Db, s: SubId, now: Time, dirty: Dirt): Dirt
    requires RowsHaveCounters(db)
  {
    dirty - {(s, UnreadCount), (s, UnseenCount)}
      + (if UnreadErrorsCancel(db, s, now) then {} else {(s, UnreadCount)})
      + (if UnseenErrorsCancel(db, s, now) then {} else {(s, UnseenCount)})
  }

  lemma RecountKeepsExactBut(db: Db, s: SubId, now: Time, dirty: Dirt, t: SubId)
    requires RowsHaveCounters(db) && t in db.counters && (t != s ==> ExactBut(db, t, dirty))
    ensures RowsHaveCounters(Recount(db, s, now)) && ExactBut(Recount(db, s, now), t, RecountDirt(db, s, now, dirty))
  {
    hide UnreadErrorsCancel, UnseenErrorsCancel, UnreadIsExact, UnseenIsExact, Recount;
    if t == s {
      RecountIsExactIff(db, s, now);
    } else {
      RecountLeavesOthers(db, s, now, t);
    }
  }

  lemma RebuildKeepsAllExact(db: Db, db': Db, j: JobId, s: SubId, begin: Time, dirty: Dirt)
    requires RowsHaveCounters(db) && AllExact(db, dirty)
    requires j in db.jobs && db.jobs[j].work == CounterRebuild(s)
    requires db' == Recount(db, s, begin).(jobs := db.jobs - {j})
    requires forall x :: Owned(db', x) == Owned(db, x)
    ensures RowsHaveCounters(db') && AllExact(db', RecountDirt(db, s, begin, dirty))
  {
    var mid := Recount(db, s, begin);
    assert forall x :: Owned(mid, x) == Owned(db, x);
    hide Recount, RecountDirt, Owned;
    forall t | t in db'.counters && !Stale(db', t)
      ensures ExactBut(db', t, RecountDirt(db, s, begin, dirty))
    {
      if t != s {
        StaleWithoutRebuild(db, db', j, s, t);
      }
      RecountKeepsExactBut(db, s, begin, dirty, t);
      CountsFrame(mid, db', t);
    }
  }

  lemma RebuildKeepsInv(db: Db, j: JobId, s: SubId, begin: Time, clock: Time, dirty: Dirt)
    requires Inv(db, clock, dirty) && j in db.jobs && db.jobs[j].work == CounterRebuild(s)
    ensures Inv(Recount(db, s, begin).(jobs := db.jobs - {j}), clock, RecountDirt(db, s, begin, dirty))
  {
    hide JobsOk;
    var mid := Recount(db, s, begin);
    var db' := mid.(jobs := db.jobs - {j});
    RecountKeepsWellFormed(db, s, begin, clock);
    ChangingIdleJob(mid, db', j, clock);
    RebuildKeepsAllExact(db, db', j, s, begin, dirty);
  }

  lemma StaleWithoutRebuild(db: Db, db': Db, j: JobId, s: SubId, t: SubId)
    requires j in db.jobs && db.jobs[j].work == CounterRebuild(s) && t != s
    requires db'.jobs == db.jobs - {j} && db'.deadLetters == db.deadLetters
    ensures Stale(db', t) == Stale(db, t)
  {
    if k :| k in db.jobs && db.jobs[k].work == CounterRebuild(t) {
      assert k in db'.jobs && db'.jobs[k].work == CounterRebuild(t);
    }
    if k :| k in db'.jobs && db'.jobs[k].work == CounterRebuild(t) {
      assert k in db.jobs && db.jobs[k].work == CounterRebuild(t);
    }
  }

  // ---------------------------------------------------------------- archive-read chunks

  lemma ArchivingKeepsWellFormed(db: Db, s: SubId, after: Key, last: Key, now: Time, clock: Time)
    requires WellFormed(db, clock) && s in db.counters
    ensures WellFormed(db.(notifications := ArchiveReadRows(db, s, after, last, now)), clock)
  {
    var db' := db.(notifications := ArchiveReadRows(db, s, after, last, now));
    JobsFrame(db, db', clock);
    forall id | id in db'.notifications
      ensures RowOk(db'.notifications[id], db'.counters[db'.notifications[id].subscriber])
    {
      assert RowOk(db.notifications[id], db.counters[db.notifications[id].subscriber]);
    }
  }

  /** Archiving read rows is invisible to the counters: a read row counts for nothing. */
  lemma ArchivingReadRowsCounts(db: Db, s: SubId, after: Key, last: Key, now: Time, t: SubId)
    requires RowsHaveCounters(db) && s in db.counters && t in db.counters
    ensures
      var db' := db.(notifications := ArchiveReadRows(db, s, after, last, now));
      && RowsHaveCounters(db')
      && UnreadRows(db', t) == UnreadRows(db, t) && UnseenRows(db', t) == UnseenRows(db, t)
  {
    var db' := db.(notifications := ArchiveReadRows(db, s, after, last, now));
    assert forall x :: Owned(db', x) == Owned(db, x);
    forall id | id in db.notifications
      ensures CountsUnread(db', db'.notifications[id]) == CountsUnread(db, db.notifications[id])
      ensures CountsUnseen(db', db'.notifications[id]) == CountsUnseen(db, db.notifications[id])
      ensures db'.notifications[id].subscriber == db.notifications[id].subscriber
    {
    }
  }

  lemma ArchivingReadRows(db: Db, s: SubId, after: Key, last: Key, now: Time, clock: Time, dirty: Dirt)
    requires Inv(db, clock, dirty) && s in db.counters
    ensures Inv(db.(notifications := ArchiveReadRows(db, s, after, last, now)), clock, dirty)
  {
    var db' := db.(notifications := ArchiveReadRows(db, s, after, last, now));
    ArchivingKeepsWellFormed(db, s, after, last, now, clock);
    forall t | t in db'.counters && !Stale(db', t)
      ensures ExactBut(db', t, dirty)
    {
      assert !Stale(db, t);
      ArchivingReadRowsCounts(db, s, after, last, now, t);
    }
  }

  /** Only the entry of one job that owns and recounts nothing changes. */
  lemma IdleJobKeepsInv(db: Db, db': Db, j: JobId, clock: Time, dirty: Dirt)
    requires Inv(db, clock, dirty)
    requires j in db.jobs && !db.jobs[j].work.Deliver? && !db.jobs[j].work.CounterRebuild?
    requires IdleJobStep(db, db', j)
    requires db' == db.(jobs := db'.jobs)
    ensures Inv(db', clock, dirty)
  {
    ChangingIdleJob(db, db', j, clock);
    StaleAfterChanging(db, db', j);
    assert WellFormed(db', clock);
    forall t | t in db'.counters && !Stale(db', t)
      ensures ExactBut(db', t, dirty)
    {
      CountsFrame(db, db', t);
    }
  }

  lemma ArchiveDirectKeepsInv(db: Db, j: JobId, now: Time, clock: Time, dirty: Dirt)
    requires Inv(db, clock, dirty) && j in db.jobs && db.jobs[j].work.ArchiveRead?
    requires db.jobs[j].work.phase == DirectPhase && db.jobs[j].work.subscriber in db.counters
    ensures Inv(RunArchiveRead(db, j, now), clock, dirty)
  {
    hide Inv;
    var ArchiveRead(s, asOf, phase, after) := db.jobs[j].work;
    var rows := ArchiveScan(db, s, db.jobs[j].work);
    var db' := ArchiveDirectChunk(db, j, rows, now);
    if rows == [] {
      IdleJobKeepsInv(db, db', j, clock, dirty);
    } else {
      var mid := db.(notifications := ArchiveReadRows(db, s, after, rows[|rows| - 1], now));
      ArchivingReadRows(db, s, after, rows[|rows| - 1], now, clock, dirty);
      IdleJobKeepsInv(mid, db', j, clock, dirty);
    }
  }

  lemma ArchiveBroadcastKeepsInv(db: Db, j: JobId, now: Time, clock: Time, dirty: Dirt)
    requires Inv(db, clock, dirty) && j in db.jobs && db.jobs[j].work.ArchiveRead?
    requires db.jobs[j].work.phase == BroadcastPhase || db.jobs[j].work.subscriber !in db.counters
    ensures Inv(RunArchiveRead(db, j, now), clock, dirty)
  {
    hide WellFormed, JobsOk;
    var db' := RunArchiveRead(db, j, now);
    var mid := db.(broadcastArchives := db'.broadcastArchives);
    BroadcastTablesAreApart(db, mid, clock, dirty);
    assert db' == mid.(jobs := db'.jobs);
    IdleJobKeepsInv(mid, db', j, clock, dirty);
  }

  lemma ArchiveReadKeepsInv(db: Db, j: JobId, now: Time, clock: Time, dirty: Dirt)
    requires Inv(db, clock, dirty) && j in db.jobs && db.jobs[j].work.ArchiveRead?
    ensures Inv(RunArchiveRead(db, j, now), clock, dirty)
  {
    if db.jobs[j].work.phase == DirectPhase && db.jobs[j].work.subscriber in db.counters {
      ArchiveDirectKeepsInv(db, j, now, clock, dirty);
    } else {
      ArchiveBroadcastKeepsInv(db, j, now, clock, dirty);
    }
  }

  // ---------------------------------------------------------------- failure, parking, replay

  /** The work of job `k`, wherever it sits. */
  function WorkAt(db: Db, k: JobId): Option<Work> {
    WorkIn(db.jobs, db.deadLetters, k)
  }

  function WorkIn(jobs: map<JobId, Job>, deadLetters: map<JobId, Job>, k: JobId): Option<Work> {
    if k in jobs then Some(jobs[k].work)
    else if k in deadLetters then Some(deadLetters[k].work)
    else None
  }

  predicate OwnsByWork(w: Option<Work>, x: NotifId) {
    w.Some? && w.value.Deliver? && w.value.offset <= |w.value.ids| && x in w.value.ids[w.value.offset..]
  }

  lemma OwnedMeansHeld(db: Db, x: NotifId)
    requires db.jobs.Keys !! db.deadLetters.Keys
    ensures Owned(db, x) <==> exists k :: OwnsByWork(WorkAt(db, k), x)
  {
    if j :| j in db.jobs && Owns(db.jobs[j], x) {
      assert OwnsByWork(WorkAt(db, j), x);
    }
    if j :| j in db.deadLetters && Owns(db.deadLetters[j], x) {
      assert OwnsByWork(WorkAt(db, j), x);
    }
    if k :| OwnsByWork(WorkAt(db, k), x) {
      if k in db.jobs {
        assert Owns(db.jobs[k], x);
      } else {
        assert Owns(db.deadLetters[k], x);
      }
    }
  }

  lemma StaleMeansHeld(db: Db, s: SubId)
    requires db.jobs.Keys !! db.deadLetters.Keys
    ensures Stale(db, s) <==> exists k :: WorkAt(db, k) == Some(CounterRebuild(s))
  {
    if j :| j in db.jobs && db.jobs[j].work == CounterRebuild(s) {
      assert WorkAt(db, j) == Some(CounterRebuild(s));
    }
    if j :| j in db.deadLetters && db.deadLetters[j].work == CounterRebuild(s) {
      assert WorkAt(db, j) == Some(CounterRebuild(s));
    }
  }

  /** Ownership and owed recounts are a matter of which work is held, not of where or when. */
  lemma TablesHoldTheSameWork(db: Db, db': Db)
    requires db.jobs.Keys !! db.deadLetters.Keys && db'.jobs.Keys !! db'.deadLetters.Keys
    requires forall k :: WorkAt(db', k) == WorkAt(db, k)
    ensures forall x :: Owned(db', x) == Owned(db, x)
    ensures forall s :: Stale(db', s) == Stale(db, s)
  {
    forall x ensures Owned(db', x) == Owned(db, x) {
      OwnedMeansHeld(db, x);
      OwnedMeansHeld(db', x);
    }
    forall s ensures Stale(db', s) == Stale(db, s) {
      StaleMeansHeld(db, s);
      StaleMeansHeld(db', s);
    }
  }

  lemma ParkedWork(jobs: map<JobId, Job>, deadLetters: map<JobId, Job>, j: JobId, job: Job, k: JobId)
    requires j in jobs && j !in deadLetters && job.work == jobs[j].work
    ensures WorkIn(jobs - {j}, deadLetters[j := job], k) == WorkIn(jobs, deadLetters, k)
  {
  }

  lemma RetriedWork(jobs: map<JobId, Job>, deadLetters: map<JobId, Job>, j: JobId, job: Job, k: JobId)
    requires j in jobs && job.work == jobs[j].work
    ensures WorkIn(jobs[j := job], deadLetters, k) == WorkIn(jobs, deadLetters, k)
  {
  }

  /** Parking moves a job with its cursor, and so its rows' ownership, from one table to the other. */
  lemma FailKeepsWork(db: Db, j: JobId, backoff: nat, begin: Time, k: JobId)
    requires j in db.jobs ==> j !in db.deadLetters
    ensures WorkAt(FailJob(db, j, backoff, begin), k) == WorkAt(db, k)
  {
    hide Failed, WorkIn;
    if j in db.jobs {
      var job := Failed(db.jobs[j], backoff, begin);
      ParkedWork(db.jobs, db.deadLetters, j, job, k);
      RetriedWork(db.jobs, db.deadLetters, j, job, k);
    }
  }

  lemma ReplayKeepsWork(db: Db, selected: set<JobId>, begin: Time, k: JobId)
    requires k in db.jobs ==> k !in db.deadLetters
    ensures WorkAt(Replay(db, selected, begin), k) == WorkAt(db, k)
  {
  }

  /** `fail_job` follows a claim, so the job it postpones has come due at least once. */
  predicate WasClaimed(job: Job, begin: Time) {
    job.attempts > 0 || job.runAt <= begin
  }

  lemma FailKeepsJobs(db: Db, j: JobId, backoff: nat, begin: Time, clock: Time)
    requires JobsOk(db, clock) && begin <= clock
    requires j in db.jobs ==> WasClaimed(db.jobs[j], begin)
    ensures JobsOk(FailJob(db, j, backoff, begin), clock)
  {
    if j in db.jobs {
      var db' := FailJob(db, j, backoff, begin);
      var failed := Failed(db.jobs[j], backoff, begin);
      assert DeliverOk(db, db.jobs[j], DueBy(db.jobs[j], clock));
      assert DeliverOk(db', failed, clock);
      if failed.attempts >= failed.maxAttempts {
        ParkKeepsJobs(db, db', j, failed, clock);
      } else {
        RewritingJob(db, db', j, failed, clock);
      }
    }
  }

  lemma ParkKeepsJobs(db: Db, db': Db, j: JobId, failed: Job, clock: Time)
    requires JobsOk(db, clock) && j in db.jobs && failed.work == db.jobs[j].work
    requires db' == db.(jobs := db.jobs - {j}, deadLetters := db.deadLetters[j := failed])
    requires DeliverOk(db', failed, clock)
    ensures JobsOk(db', clock)
  {
    StillApart(db, db');
    hide AllApart, Owns;
    forall k | k in db'.jobs ensures DeliverOk(db', db'.jobs[k], DueBy(db'.jobs[k], clock)) {
      assert DeliverOk(db, db.jobs[k], DueBy(db.jobs[k], clock));
    }
    forall k | k in db'.deadLetters && k != j ensures DeliverOk(db', db'.deadLetters[k], clock) {
      assert DeliverOk(db, db.deadLetters[k], clock);
    }
  }

  lemma SameCountsKeepInv(db: Db, db': Db, clock: Time, dirty: Dirt)
    requires Inv(db, clock, dirty) && JobsOk(db', clock)
    requires db' == db.(jobs := db'.jobs, deadLetters := db'.deadLetters)
    requires forall x :: Owned(db', x) == Owned(db, x)
    requires forall s :: Stale(db', s) == Stale(db, s)
    ensures Inv(db', clock, dirty)
  {
    forall t | t in db'.counters && !Stale(db', t)
      ensures ExactBut(db', t, dirty)
    {
      CountsFrame(db, db', t);
    }
  }

  lemma FailKeepsInv(db: Db, j: JobId, backoff: nat, begin: Time, clock: Time, dirty: Dirt)
    requires Inv(db, clock, dirty) && begin <= clock
    requires j in db.jobs ==> WasClaimed(db.jobs[j], begin)
    ensures Inv(FailJob(db, j, backoff, begin), clock, dirty)
  {
    FailKeepsJobs(db, j, backoff, begin, clock);
    forall k ensures WorkAt(FailJob(db, j, backoff, begin), k) == WorkAt(db, k) {
      FailKeepsWork(db, j, backoff, begin, k);
    }
    TablesHoldTheSameWork(db, FailJob(db, j, backoff, begin));
    SameCountsKeepInv(db, FailJob(db, j, backoff, begin), clock, dirty);
  }

  lemma ReplayKeepsInv(db: Db, selected: set<JobId>, begin: Time, clock: Time, dirty: Dirt)
    requires Inv(db, clock, dirty) && begin <= clock
    ensures Inv(Replay(db, selected, begin), clock, dirty)
  {
    hide Requeued, WorkIn;
    var db' := Replay(db, selected, begin);
    forall k ensures WorkAt(db', k) == WorkAt(db, k) {
      ReplayKeepsWork(db, selected, begin, k);
    }
    TablesHoldTheSameWork(db, db');
    ReplayKeepsJobs(db, selected, begin, clock);
    SameCountsKeepInv(db, db', clock, dirty);
  }

  lemma RevivedJobIsOk(db: Db, db': Db, selected: set<JobId>, begin: Time, clock: Time, k: JobId)
    requires JobsOk(db, clock) && begin <= clock && db' == Replay(db, selected, begin) && k in db'.jobs
    ensures DeliverOk(db', db'.jobs[k], DueBy(db'.jobs[k], clock))
  {
    if k in db.jobs {
      assert DeliverOk(db, db.jobs[k], DueBy(db.jobs[k], clock));
    } else {
      assert DeliverOk(db, db.deadLetters[k], clock);
    }
  }

  /** A job names the same ids wherever it sits. */
  lemma ReplayKeepsJobs(db: Db, selected: set<JobId>, begin: Time, clock: Time)
    requires JobsOk(db, clock) && begin <= clock
    ensures JobsOk(Replay(db, selected, begin), clock)
  {
    hide DueBy, DeliverOk;
    var db' := Replay(db, selected, begin);
    StillApart(db, db');
    hide AllApart;
    forall k | k in db'.jobs
      ensures DeliverOk(db', db'.jobs[k], DueBy(db'.jobs[k], clock))
    {
      RevivedJobIsOk(db, db', selected, begin, clock, k);
    }
    forall k | k in db'.deadLetters
      ensures DeliverOk(db', db'.deadLetters[k], clock)
    {
      StillParkedIsOk(db, db', k, clock);
    }
  }

  lemma StillParkedIsOk(db: Db, db': Db, k: JobId, clock: Time)
    requires DeliversOk(db, clock) && k in db.deadLetters && k in db'.deadLetters
    requires db'.deadLetters[k] == db.deadLetters[k] && db'.notifications == db.notifications
    ensures DeliverOk(db', db'.deadLetters[k], clock)
  {
    assert DeliverOk(db, db.deadLetters[k], clock);
  }

  // ---------------------------------------------------------------- moving notifications

  lemma MoveRowsKeepsWellFormed(db: Db, db': Db, src: SubId, dst: SubId, ids: seq<NotifId>, begin: Time, clock: Time)
    requires WellFormed(db, clock) && src in db.counters && dst in db.counters
    requires db' == db.(notifications := MovedRows(db, src, dst, ids, begin), preferences := db'.preferences)
    ensures WellFormed(db', clock)
    ensures forall x :: Owned(db', x) == Owned(db, x)
    ensures forall x :: Stale(db', x) == Stale(db, x)
  {
    JobsFrame(db, db', clock);
    forall id | id in db'.notifications
      ensures RowOk(db'.notifications[id], db'.counters[db'.notifications[id].subscriber])
    {
      assert RowOk(db.notifications[id], db.counters[db.notifications[id].subscriber]);
    }
  }

  lemma CopyingLeavesOtherMutes(preferences: map<(SubId, Category), bool>, src: SubId, dst: SubId, t: SubId, category: Category)
    requires t != dst
    ensures Muted(CopiedPreferences(preferences, src, dst), t, category) == Muted(preferences, t, category)
  {
  }

  /** The rows of `t` are the same rows in both. */
  predicate SameRowsOf(before: map<NotifId, Row>, after: map<NotifId, Row>, t: SubId) {
    && before.Keys == after.Keys
    && forall id | id in before && (before[id].subscriber == t || after[id].subscriber == t) :: after[id] == before[id]
  }

  lemma MovingLeavesOtherRows(db: Db, src: SubId, dst: SubId, ids: seq<NotifId>, begin: Time, t: SubId)
    requires src in db.counters && dst in db.counters && t != src && t != dst
    ensures SameRowsOf(db.notifications, MovedRows(db, src, dst, ids, begin), t)
  {
    hide MovedRow, Pending;
  }

  /** What a subscriber's own rows, watermarks and mutes and the job tables say is all its counts depend on. */
  lemma OwnRowsDecide(db: Db, db': Db, t: SubId)
    requires RowsHaveCounters(db) && RowsHaveCounters(db') && t in db.counters && t in db'.counters
    requires db'.counters[t] == db.counters[t] && db'.jobs == db.jobs && db'.deadLetters == db.deadLetters
    requires SameRowsOf(db.notifications, db'.notifications, t)
    requires forall c :: Muted(db'.preferences, t, c) == Muted(db.preferences, t, c)
    ensures SameExactness(db, db', t)
  {
    assert forall x :: Owned(db', x) == Owned(db, x);
    hide Owned, Muted;
    assert UnreadRows(db', t) == UnreadRows(db, t);
    assert UnseenRows(db', t) == UnseenRows(db, t);
  }

  /** Nobody but the two subscribers of a move sees their counts change. */
  lemma MoveLeavesOthers(db: Db, db': Db, src: SubId, dst: SubId, ids: seq<NotifId>, begin: Time, t: SubId)
    requires RowsHaveCounters(db) && src in db.counters && dst in db.counters && t in db.counters
    requires t != src && t != dst
    requires db' == db.(notifications := MovedRows(db, src, dst, ids, begin),
                        preferences := CopiedPreferences(db.preferences, src, dst))
    ensures RowsHaveCounters(db') && SameExactness(db, db', t)
  {
    hide MovedRows, CopiedPreferences, Muted, UnreadIsExact, UnseenIsExact, SameRowsOf;
    MovingLeavesOtherRows(db, src, dst, ids, begin, t);
    forall c ensures Muted(db'.preferences, t, c) == Muted(db.preferences, t, c) {
      CopyingLeavesOtherMutes(db.preferences, src, dst, t, c);
    }
    OwnRowsDecide(db, db', t);
  }

  /** The request is served and at least one notification moves. */
  predicate MoveHappens(db: Db, src: SubId, dst: SubId, ids: seq<NotifId>, begin: Time) {
    && src in db.subscribers && src != dst && |ids| <= 100
    && exists id | id in db.notifications :: Moves(db, src, ids, id, begin)
  }

  lemma MoveIsTwoRecounts(db: Db, src: SubId, dst: SubId, ids: seq<NotifId>, begin: Time)
    requires RowsHaveCounters(db) && MoveHappens(db, src, dst, ids, begin)
    ensures
      var db2 := MoveRows(Enrol(db, {src, dst}, begin), src, dst, ids, begin);
      Move(db, src, dst, ids, begin) == Recount(Recount(db2, src, begin), dst, begin)
  {
    hide Recount, MoveRows;
    EnrolKeepsMoves(db, src, dst, ids, begin);
    var id :| id in db.notifications && Moves(db, src, ids, id, begin);
    assert Moves(Enrol(db, {src, dst}, begin), src, ids, id, begin);
  }

  lemma EnrolKeepsMoves(db: Db, src: SubId, dst: SubId, ids: seq<NotifId>, begin: Time)
    ensures forall id | id in db.notifications ::
              Moves(Enrol(db, {src, dst}, begin), src, ids, id, begin) == Moves(db, src, ids, id, begin)
  {
  }

  lemma StayingPut(db: Db, src: SubId, dst: SubId, ids: seq<NotifId>, begin: Time)
    requires RowsHaveCounters(db) && !MoveHappens(db, src, dst, ids, begin)
    ensures Move(db, src, dst, ids, begin) == db || Move(db, src, dst, ids, begin) == Enrol(db, {src, dst}, begin)
  {
  }

  lemma EndsDiffer(db: Db, src: SubId, dst: SubId, ids: seq<NotifId>, begin: Time)
    requires MoveHappens(db, src, dst, ids, begin)
    ensures src != dst
  {
  }

  /** The tables of a move between its re-encoding and its two recounts. */
  function BeforeRecounts(db: Db, src: SubId, dst: SubId, ids: seq<NotifId>, begin: Time): (db': Db)
    ensures RowsHaveCounters(db) ==> RowsHaveCounters(db')
    ensures src in db'.counters && dst in db'.counters
  {
    MoveRows(Enrol(db, {src, dst}, begin), src, dst, ids, begin)
  }

  /** The first recount of a move is not in the way of the second. */
  lemma RecountOfAnother(db: Db, s: SubId, t: SubId, now: Time)
    requires RowsHaveCounters(db) && s in db.counters && t in db.counters && s != t
    ensures
      var db' := Recount(db, t, now);
      && RowsHaveCounters(db') && s in db'.counters
      && (UnreadIsExact(db', s) <==> UnreadIsExact(db, s)) && (UnseenIsExact(db', s) <==> UnseenIsExact(db, s))
      && (UnreadErrorsCancel(db', s, now) <==> UnreadErrorsCancel(db, s, now))
      && (UnseenErrorsCancel(db', s, now) <==> UnseenErrorsCancel(db, s, now))
  {
    var db' := Recount(db, t, now);
    CountsFrame(db, db', s);
    assert forall x :: Pending(db', x) == Pending(db, x);
    assert forall x :: Parked(db', x) == Parked(db, x);
    hide Pending, Parked, Muted;
    assert ParkedUnread(db', s, now) == ParkedUnread(db, s, now) && LateUnread(db', s, now) == LateUnread(db, s, now);
    assert ParkedUnseen(db', s, now) == ParkedUnseen(db, s, now) && LateUnseen(db', s, now) == LateUnseen(db, s, now);
  }

  /** Exactly when a move leaves the four counts of its two subscribers right. */
  lemma MoveIsExactIff(db: Db, src: SubId, dst: SubId, ids: seq<NotifId>, begin: Time)
    requires RowsHaveCounters(db) && MoveHappens(db, src, dst, ids, begin)
    ensures
      var db' := Move(db, src, dst, ids, begin);
      var mid := BeforeRecounts(db, src, dst, ids, begin);
      && src in db'.counters && dst in db'.counters
      && (UnreadIsExact(db', src) <==> UnreadErrorsCancel(mid, src, begin))
      && (UnseenIsExact(db', src) <==> UnseenErrorsCancel(mid, src, begin))
      && (UnreadIsExact(db', dst) <==> UnreadErrorsCancel(mid, dst, begin))
      && (UnseenIsExact(db', dst) <==> UnseenErrorsCancel(mid, dst, begin))
  {
    var mid := BeforeRecounts(db, src, dst, ids, begin);
    EndsDiffer(db, src, dst, ids, begin);
    MoveIsTwoRecounts(db, src, dst, ids, begin);
    hide Recount, BeforeRecounts, Move, MoveHappens, UnreadIsExact, UnseenIsExact, UnreadErrorsCancel, UnseenErrorsCancel;
    var first := Recount(mid, src, begin);
    RecountIsExactIff(mid, src, begin);
    RecountOfAnother(mid, dst, src, begin);
    RecountIsExactIff(first, dst, begin);
    RecountOfAnother(first, src, dst, begin);
  }

  /** Each end of a move is recounted after its rows were re-encoded, and is marked on its own. */
  ghost function MoveDirt(db: Db, src: SubId, dst: SubId, ids: seq<NotifId>, begin: Time, dirty: Dirt): Dirt
    requires RowsHaveCounters(db)
  {
    if !MoveHappens(db, src, dst, ids, begin) then dirty
    else
      var mid := BeforeRecounts(db, src, dst, ids, begin);
      RecountDirt(mid, dst, begin, RecountDirt(mid, src, begin, dirty))
  }

  lemma SameDirtAfter(db: Db, src: SubId, dst: SubId, begin: Time, dirty: Dirt)
    requires RowsHaveCounters(db) && src in db.counters && dst in db.counters && src != dst
    ensures
      var mid := Recount(db, src, begin);
      RowsHaveCounters(mid) && dst in mid.counters && RecountDirt(mid, dst, begin, dirty) == RecountDirt(db, dst, begin, dirty)
  {
    RecountOfAnother(db, dst, src, begin);
    hide Recount, UnreadErrorsCancel, UnseenErrorsCancel;
  }

  /** Two recounts one after the other, whatever the counts of their subscribers were before. */
  lemma TwoRecounts(db: Db, src: SubId, dst: SubId, begin: Time, clock: Time, dirty: Dirt)
    requires WellFormed(db, clock) && src in db.counters && dst in db.counters && src != dst
    requires forall t | t in db.counters && t != src && t != dst && !Stale(db, t) :: ExactBut(db, t, dirty)
    ensures Inv(Recount(Recount(db, src, begin), dst, begin), clock,
                RecountDirt(db, dst, begin, RecountDirt(db, src, begin, dirty)))
  {
    var mid := Recount(db, src, begin);
    var db' := Recount(mid, dst, begin);
    var first := RecountDirt(db, src, begin, dirty);
    RecountKeepsWellFormed(db, src, begin, clock);
    RecountKeepsWellFormed(mid, dst, begin, clock);
    SameDirtAfter(db, src, dst, begin, first);
    hide Recount, RecountDirt, WellFormed, ExactBut;
    forall t | t in db'.counters && !Stale(db', t)
      ensures ExactBut(db', t, RecountDirt(db, dst, begin, first))
    {
      if t != dst {
        RecountKeepsExactBut(db, src, begin, dirty, t);
      }
      RecountKeepsExactBut(mid, dst, begin, first, t);
    }
  }

  lemma OthersStayExact(db: Db, mid: Db, src: SubId, dst: SubId, ids: seq<NotifId>, begin: Time, dirty: Dirt)
    requires RowsHaveCounters(db) && AllExact(db, dirty) && src in db.counters && dst in db.counters
    requires mid == MoveRows(db, src, dst, ids, begin) && forall x :: Stale(mid, x) == Stale(db, x)
    ensures forall t | t in mid.counters && t != src && t != dst && !Stale(mid, t) ::
              RowsHaveCounters(mid) && ExactBut(mid, t, dirty)
  {
    hide MovedRows, CopiedPreferences;
    forall t | t in mid.counters && t != src && t != dst && !Stale(mid, t)
      ensures RowsHaveCounters(mid) && ExactBut(mid, t, dirty)
    {
      MoveLeavesOthers(db, mid, src, dst, ids, begin, t);
      assert ExactBut(db, t, dirty);
    }
  }

  lemma MovedKeepsInv(db: Db, src: SubId, dst: SubId, ids: seq<NotifId>, begin: Time, clock: Time, dirty: Dirt)
    requires Inv(db, clock, dirty) && src in db.counters && dst in db.counters && src != dst
    ensures
      var mid := MoveRows(db, src, dst, ids, begin);
      Inv(Recount(Recount(mid, src, begin), dst, begin), clock,
          RecountDirt(mid, dst, begin, RecountDirt(mid, src, begin, dirty)))
  {
    hide MovedRows, CopiedPreferences, JobsOk, Timely, RowsOk, CountersOk, Recount, RecountDirt;
    var mid := MoveRows(db, src, dst, ids, begin);
    MoveRowsKeepsWellFormed(db, mid, src, dst, ids, begin, clock);
    OthersStayExact(db, mid, src, dst, ids, begin, dirty);
    TwoRecounts(mid, src, dst, begin, clock, dirty);
  }

  lemma MoveKeepsInv(db: Db, src: SubId, dst: SubId, ids: seq<NotifId>, begin: Time, clock: Time, dirty: Dirt)
    requires Inv(db, clock, dirty) && EPOCH <= clock
    ensures Inv(Move(db, src, dst, ids, begin), clock, MoveDirt(db, src, dst, ids, begin, dirty))
  {
    assert RowsHaveCounters(db);
    hide Move, MoveHappens, Inv, Enrol, RecountDirt, Recount;
    EnrolKeepsInv(db, {src, dst}, begin, clock, dirty);
    if !MoveHappens(db, src, dst, ids, begin) {
      StayingPut(db, src, dst, ids, begin);
    } else {
      EndsDiffer(db, src, dst, ids, begin);
      MoveIsTwoRecounts(db, src, dst, ids, begin);
      MovedKeepsInv(Enrol(db, {src, dst}, begin), src, dst, ids, begin, clock, dirty);
    }
  }
}
