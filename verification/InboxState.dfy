/**
 The tables one environment's inbox lives in, as values: one map per table, keyed
 by the table's primary key without the environment column.

 Timestamps are integers (microseconds), uuids are natural numbers compared as the
 database compares them. A nullable timestamp column is an `Option<Time>`.
 */
module InboxState {
  import opened Wrappers
  import opened Keyset

  type Time = int
  type SubId = nat
  type NotifId = nat
  type BroadcastId = nat
  type JobId = nat
  type Category = string

  /** `timestamptz 'epoch'`, the default of every watermark. */
  const EPOCH: Time := 0

  /** Rows per deliver chunk (and per archive-read chunk) transaction. */
  const DELIVER_CHUNK: nat := 500
  const ARCHIVE_CHUNK: nat := 500

  /** One row of `notifications`. `deliverAt` is null for an immediate row. */
  datatype Row = Row(
    subscriber: SubId,
    category: Category,
    deliverAt: Option<Time>,
    visibleAt: Time,
    readAt: Option<Time>,
    unreadAt: Option<Time>,
    archivedAt: Option<Time>,
    unarchivedAt: Option<Time>)

  /** One row of `subscriber_counters`: the cached counts and the three watermarks. */
  datatype Counters = Counters(
    unread: int,
    unseen: int,
    readWatermark: Time,
    seenWatermark: Time,
    archiveWatermark: Time)

  const FRESH_COUNTERS := Counters(0, 0, EPOCH, EPOCH, EPOCH)

  datatype Broadcast = Broadcast(category: Category, createdAt: Time)

  /** A row of `broadcast_reads` or `broadcast_archives`: an override of the watermark. */
  datatype Override = Override(createdAt: Time, flag: bool)

  /** Where every ascending keyset scan starts: `(UNIX_EPOCH, nil)`. */
  const FIRST_KEY := Key(EPOCH, 0)

  datatype Phase = DirectPhase | BroadcastPhase

  /** What a queued job does, with its progress cursor. */
  datatype Work =
    | Deliver(ids: seq<NotifId>, offset: nat)
    | CounterRebuild(subscriber: SubId)
    | ArchiveRead(subscriber: SubId, asOf: Time, phase: Phase, after: Key)

  datatype Job = Job(work: Work, runAt: Time, attempts: nat, maxAttempts: nat)

  /** Column default of `jobs.max_attempts`. */
  const MAX_ATTEMPTS: nat := 10

  datatype Db = Db(
    subscribers: map<SubId, Time>,
    notifications: map<NotifId, Row>,
    counters: map<SubId, Counters>,
    preferences: map<(SubId, Category), bool>,
    broadcasts: map<BroadcastId, Broadcast>,
    broadcastReads: map<(SubId, BroadcastId), Override>,
    broadcastArchives: map<(SubId, BroadcastId), Override>,
    jobs: map<JobId, Job>,
    deadLetters: map<JobId, Job>)

  const EMPTY_DB := Db(map[], map[], map[], map[], map[], map[], map[], map[], map[])

  // ---------------------------------------------------------------- effective state

  /** The `read` column of the merged list for a direct row. */
  predicate EffectivelyRead(row: Row, readWatermark: Time) {
    row.readAt.Some? || (row.unreadAt.None? && row.visibleAt <= readWatermark)
  }

  /** The `archived` column of the merged list for a direct row. */
  predicate EffectivelyArchived(row: Row, archiveWatermark: Time) {
    row.archivedAt.Some? || (row.unarchivedAt.None? && row.visibleAt <= archiveWatermark)
  }

  predicate Muted(preferences: map<(SubId, Category), bool>, s: SubId, category: Category) {
    (s, category) in preferences && !preferences[(s, category)]
  }

  /** `COALESCE(override, created_at <= watermark)`, for reads and for archives. */
  predicate EffectiveFlag(overrides: map<(SubId, BroadcastId), Override>, s: SubId, b: BroadcastId,
                          createdAt: Time, watermark: Time) {
    if (s, b) in overrides then overrides[(s, b)].flag else createdAt <= watermark
  }

  // ---------------------------------------------------------------- ownership

  /** The ids at or above a deliver job's offset: the ones whose bump has not run. */
  predicate Owns(job: Job, id: NotifId) {
    job.work.Deliver? && job.work.offset <= |job.work.ids| && id in job.work.ids[job.work.offset..]
  }

  predicate OwnedIn(jobs: map<JobId, Job>, id: NotifId) {
    exists j | j in jobs :: Owns(jobs[j], id)
  }

  /** What `pending_deliver` answers: it looks at `jobs` only. */
  predicate Pending(db: Db, id: NotifId) {
    OwnedIn(db.jobs, id)
  }

  /** Owned by a deliver job that gave up and sits in `dead_letters`. */
  predicate Parked(db: Db, id: NotifId) {
    OwnedIn(db.deadLetters, id)
  }

  predicate Owned(db: Db, id: NotifId) {
    Pending(db, id) || Parked(db, id)
  }

  predicate RebuildIn(jobs: map<JobId, Job>, s: SubId) {
    exists j | j in jobs :: jobs[j].work == CounterRebuild(s)
  }

  /** A recount of `s` is still to come (queued or parked). */
  predicate Stale(db: Db, s: SubId) {
    RebuildIn(db.jobs, s) || RebuildIn(db.deadLetters, s)
  }

  // ---------------------------------------------------------------- what the counters cache

  /** Unread, unarchived and unmuted: what the unread counter is meant to count. */
  predicate CountsUnread(db: Db, row: Row)
    requires row.subscriber in db.counters
  {
    var c := db.counters[row.subscriber];
    && !EffectivelyRead(row, c.readWatermark)
    && !EffectivelyArchived(row, c.archiveWatermark)
    && !Muted(db.preferences, row.subscriber, row.category)
  }

  predicate CountsUnseen(db: Db, row: Row)
    requires row.subscriber in db.counters
  {
    row.visibleAt > db.counters[row.subscriber].seenWatermark && !Muted(db.preferences, row.subscriber, row.category)
  }

  predicate RowsHaveCounters(db: Db) {
    forall id | id in db.notifications :: db.notifications[id].subscriber in db.counters
  }

  /** The rows the unread counter of `s` stands for. */
  ghost function UnreadRows(db: Db, s: SubId): set<NotifId>
    requires RowsHaveCounters(db)
  {
    set id | id in db.notifications && db.notifications[id].subscriber == s
             && CountsUnread(db, db.notifications[id]) && !Owned(db, id)
  }

  ghost function UnseenRows(db: Db, s: SubId): set<NotifId>
    requires RowsHaveCounters(db)
  {
    set id | id in db.notifications && db.notifications[id].subscriber == s
             && CountsUnseen(db, db.notifications[id]) && !Owned(db, id)
  }

  ghost predicate UnreadIsExact(db: Db, s: SubId)
    requires RowsHaveCounters(db) && s in db.counters
  {
    db.counters[s].unread == |UnreadRows(db, s)|
  }

  ghost predicate UnseenIsExact(db: Db, s: SubId)
    requires RowsHaveCounters(db) && s in db.counters
  {
    db.counters[s].unseen == |UnseenRows(db, s)|
  }

  ghost predicate Exact(db: Db, s: SubId)
    requires RowsHaveCounters(db) && s in db.counters
  {
    UnreadIsExact(db, s) && UnseenIsExact(db, s)
  }
}
