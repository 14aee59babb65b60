/**
 What each transaction of the inbox commits, as a function from the tables before
 to the tables after.

 A transaction sees two clocks: `begin`, the `now()` pinned when it began, and
 `clock`, a `clock_timestamp()` it reads while it holds the subscriber's counters
 row. The counters lock makes every commit one atomic step, so these functions
 are total: a transaction that answers "not found" leaves the tables as they are.
 */
module InboxSteps {
  import opened Wrappers
  import opened Keyset
  import opened InboxState
  import opened Seqs

  /** The frame of most transactions: the job tables and the rows' schedules stay as they are. */
  predicate Quiet(db: Db, db': Db) {
    && db'.jobs == db.jobs && db'.deadLetters == db.deadLetters
    && SameSchedules(db, db')
  }

  predicate SameSchedules(db: Db, db': Db) {
    && db'.notifications.Keys == db.notifications.Keys
    && forall id | id in db.notifications :: db'.notifications[id].deliverAt == db.notifications[id].deliverAt
  }

  // ---------------------------------------------------------------- per-item flips

  datatype Flip = FlipRead | FlipUnread | FlipArchive | FlipUnarchive

  /** A scheduled row is invisible to its subscriber until `visibleAt`. */
  predicate VisibleTo(db: Db, s: SubId, id: NotifId, now: Time) {
    && id in db.notifications && s in db.counters
    && db.notifications[id].subscriber == s && db.notifications[id].visibleAt <= now
  }

  /** The row after a flip. Overrides are kept only at or below the watermark they outrank. */
  function FlipRow(row: Row, c: Counters, flip: Flip, now: Time): Row {
    match flip
    case FlipRead =>
      if row.readAt.Some? then row
      else row.(readAt := Some(now), unreadAt := None)
    case FlipUnread =>
      if !EffectivelyRead(row, c.readWatermark) then row
      else row.(readAt := None, unreadAt := if row.visibleAt <= c.readWatermark then Some(now) else None)
    case FlipArchive =>
      if EffectivelyArchived(row, c.archiveWatermark) then row
      else row.(archivedAt := Some(now), unarchivedAt := None)
    case FlipUnarchive =>
      if !EffectivelyArchived(row, c.archiveWatermark) then row
      else row.(archivedAt := None,
                unarchivedAt := if row.visibleAt <= c.archiveWatermark then Some(now) else None)
  }

  /** `greatest(0, n - 1)` when a counted row stops counting, `n + 1` when one starts. */
  function Adjusted(n: int, before: bool, after: bool): int {
    if before && !after then (if n - 1 < 0 then 0 else n - 1)
    else if after && !before then n + 1
    else n
  }

  function FlipItem(db: Db, s: SubId, id: NotifId, flip: Flip, now: Time): (db': Db)
    ensures RowsHaveCounters(db) ==> RowsHaveCounters(db')
    ensures Quiet(db, db')
  {
    if !VisibleTo(db, s, id, now) then db
    else
      var row := db.notifications[id];
      var c := db.counters[s];
      var row' := FlipRow(row, c, flip, now);
      var bookkept := !Pending(db, id);
      db.(notifications := db.notifications[id := row'],
          counters := db.counters[s := c.(unread :=
            Adjusted(c.unread, bookkept && CountsUnread(db, row), bookkept && CountsUnread(db, row')))])
  }

  // ---------------------------------------------------------------- watermark moves

  predicate SameRowFrame(rows: map<NotifId, Row>, rows': map<NotifId, Row>) {
    && rows'.Keys == rows.Keys
    && forall id | id in rows ::
         rows'[id].subscriber == rows[id].subscriber && rows'[id].deliverAt == rows[id].deliverAt
  }

  /** The override GC of `mark_all_read`, bound to the watermark just installed. */
  function WithoutUnreadOverrides(rows: map<NotifId, Row>, s: SubId, watermark: Time): (rows': map<NotifId, Row>)
    ensures SameRowFrame(rows, rows')
  {
    map id | id in rows ::
      if rows[id].subscriber == s && rows[id].visibleAt <= watermark then rows[id].(unreadAt := None) else rows[id]
  }

  /** The override GC of `archive_all`. */
  function WithoutArchiveOverrides(rows: map<NotifId, Row>, s: SubId, watermark: Time): (rows': map<NotifId, Row>)
    ensures SameRowFrame(rows, rows')
  {
    map id | id in rows ::
      if rows[id].subscriber == s && rows[id].visibleAt <= watermark
      then rows[id].(archivedAt := None, unarchivedAt := None) else rows[id]
  }

  /** The exception GC of both: rows at or below the new watermark are redundant. */
  function WithoutExceptions(overrides: map<(SubId, BroadcastId), Override>, s: SubId, watermark: Time)
    : map<(SubId, BroadcastId), Override>
  {
    map k | k in overrides && !(k.0 == s && overrides[k].createdAt <= watermark) :: overrides[k]
  }

  /** `mark_all_read`: one watermark, a zeroed count, and the now redundant exceptions dropped. */
  function ReadAll(db: Db, s: SubId, clock: Time): (db': Db)
    ensures RowsHaveCounters(db) ==> RowsHaveCounters(db')
    ensures Quiet(db, db')
  {
    hide WithoutUnreadOverrides, WithoutExceptions;
    if s !in db.counters then db
    else
      db.(counters := db.counters[s := db.counters[s].(readWatermark := clock, unread := 0)],
          notifications := WithoutUnreadOverrides(db.notifications, s, clock),
          broadcastReads := WithoutExceptions(db.broadcastReads, s, clock))
  }

  function SeenAll(db: Db, s: SubId, clock: Time): (db': Db)
    ensures RowsHaveCounters(db) ==> RowsHaveCounters(db')
    ensures Quiet(db, db')
  {
    if s !in db.counters then db
    else
      db.(counters := db.counters[s := db.counters[s].(seenWatermark := clock, unseen := 0)])
  }

  function ArchiveAll(db: Db, s: SubId, clock: Time): (db': Db)
    ensures RowsHaveCounters(db) ==> RowsHaveCounters(db')
    ensures Quiet(db, db')
  {
    hide WithoutArchiveOverrides, WithoutExceptions;
    if s !in db.counters then db
    else
      db.(counters := db.counters[s := db.counters[s].(archiveWatermark := clock, unread := 0)],
          notifications := WithoutArchiveOverrides(db.notifications, s, clock),
          broadcastArchives := WithoutExceptions(db.broadcastArchives, s, clock))
  }

  // ---------------------------------------------------------------- broadcast flips

  /** `INSERT ... ON CONFLICT DO UPDATE SET flag`: the denormalised timestamp of a row never changes. */
  function Upserted(overrides: map<(SubId, BroadcastId), Override>, s: SubId, b: BroadcastId,
                    createdAt: Time, flag: bool): Override
  {
    if (s, b) in overrides then overrides[(s, b)].(flag := flag) else Override(createdAt, flag)
  }

  function SetOverride(overrides: map<(SubId, BroadcastId), Override>, s: SubId, b: BroadcastId,
                       createdAt: Time, watermark: Time, flag: bool): map<(SubId, BroadcastId), Override>
  {
    if flag == (createdAt > watermark) then
      // The watermark says the opposite: an explicit row decides.
      overrides[(s, b) := Upserted(overrides, s, b, createdAt, flag)]
    else if (s, b) in overrides && overrides[(s, b)].flag != flag then
      // The watermark already says it: only the contrary row has to go.
      overrides - {(s, b)}
    else overrides
  }

  predicate BroadcastVisibleTo(db: Db, s: SubId, b: BroadcastId) {
    && s in db.counters && s in db.subscribers && b in db.broadcasts
    && db.broadcasts[b].createdAt >= db.subscribers[s]
  }

  function FlipBroadcast(db: Db, s: SubId, b: BroadcastId, flip: Flip): (db': Db)
    ensures RowsHaveCounters(db) ==> RowsHaveCounters(db')
    ensures Quiet(db, db')
  {
    if !BroadcastVisibleTo(db, s, b) then db
    else
      var at := db.broadcasts[b].createdAt;
      var c := db.counters[s];
      match flip
      case FlipRead => db.(broadcastReads := SetOverride(db.broadcastReads, s, b, at, c.readWatermark, true))
      case FlipUnread => db.(broadcastReads := SetOverride(db.broadcastReads, s, b, at, c.readWatermark, false))
      case FlipArchive => db.(broadcastArchives := SetOverride(db.broadcastArchives, s, b, at, c.archiveWatermark, true))
      case FlipUnarchive => db.(broadcastArchives := SetOverride(db.broadcastArchives, s, b, at, c.archiveWatermark, false))
  }

  // ---------------------------------------------------------------- creation

  /** Lazy upsert of subscribers and their counters rows. */
  function Enrol(db: Db, subs: set<SubId>, begin: Time): (db': Db)
    ensures subs <= db'.counters.Keys
    ensures RowsHaveCounters(db) ==> RowsHaveCounters(db')
    ensures Quiet(db, db')
  {
    db.(subscribers := map s | s in db.subscribers.Keys + subs ::
          if s in db.subscribers then db.subscribers[s] else begin,
        counters := map s | s in db.counters.Keys + subs ::
          if s in db.counters then db.counters[s] else FRESH_COUNTERS)
  }

  function NewRow(s: SubId, category: Category, deliverAt: Option<Time>, begin: Time): Row {
    Row(s, category, deliverAt, if deliverAt.Some? then deliverAt.value else begin, None, None, None, None)
  }

  function WithNewRows(db: Db, recipients: seq<SubId>, ids: seq<NotifId>, category: Category,
                       deliverAt: Option<Time>, begin: Time): Db
    requires |ids| == |recipients|
  {
    db.(notifications := map id | id in db.notifications.Keys + (set x | x in ids) ::
          if id in db.notifications then db.notifications[id]
          else NewRow(recipients[IndexOf(ids, id)], category, deliverAt, begin))
  }

  function BumpNew(db: Db, c: Counters, s: SubId, category: Category, at: Time): Counters {
    var muted := Muted(db.preferences, s, category);
    c.(unread := c.unread + (if at > c.readWatermark && at > c.archiveWatermark && !muted then 1 else 0),
       unseen := c.unseen + (if at > c.seenWatermark && !muted then 1 else 0))
  }

  /** The rows, and either their bump (immediate) or the deliver job that owns them (scheduled). */
  function CreateRows(db: Db, recipients: seq<SubId>, ids: seq<NotifId>, category: Category,
                      deliverAt: Option<Time>, job: JobId, begin: Time): (db': Db)
    requires |ids| == |recipients|
    ensures RowsHaveCounters(db) && (forall s | s in recipients :: s in db.counters) ==> RowsHaveCounters(db')
  {
    var db1 := WithNewRows(db, recipients, ids, category, deliverAt, begin);
    if deliverAt.None? then
      db1.(counters := map s | s in db.counters ::
             if s in recipients then BumpNew(db, db.counters[s], s, category, begin) else db.counters[s])
    else
      db1.(jobs := db.jobs[job := Job(Deliver(ids, 0), deliverAt.value, 0, MAX_ATTEMPTS)])
  }

  /** `create_notifications_txn`. */
  function Create(db: Db, recipients: seq<SubId>, ids: seq<NotifId>, category: Category,
                  deliverAt: Option<Time>, job: JobId, begin: Time): (db': Db)
    requires |ids| == |recipients|
    ensures RowsHaveCounters(db) ==> RowsHaveCounters(db')
  {
    hide Enrol, CreateRows;
    CreateRows(Enrol(db, (set s | s in recipients), begin), recipients, ids, category, deliverAt, job, begin)
  }

  function CreateBroadcast(db: Db, b: BroadcastId, category: Category, begin: Time): (db': Db)
    ensures RowsHaveCounters(db) ==> RowsHaveCounters(db')
    ensures Quiet(db, db')
  {
    db.(broadcasts := db.broadcasts[b := Broadcast(category, begin)])
  }

  // ---------------------------------------------------------------- preferences

  datatype Preference = Preference(category: Category, channel: string, enabled: bool)

  /** The bytes of a string in UTF-8, which is how the server measures lengths. */
  function Utf8Length(s: string): nat {
    if s == "" then 0
    else
      var code := s[|s| - 1] as int;
      Utf8Length(s[..|s| - 1])
        + (if code < 0x80 then 1 else if code < 0x800 then 2 else if code < 0x1_0000 then 3 else 4)
  }

  predicate WellFormedWrite(entries: seq<Preference>) {
    && 1 <= |entries| <= 100
    && forall p | p in entries :: 1 <= Utf8Length(p.category) <= 255 && p.channel == "in_app"
  }

  /** One entry: `enabled` deletes the explicit row, otherwise the row says false. */
  function WriteOne(preferences: map<(SubId, Category), bool>, s: SubId, p: Preference): map<(SubId, Category), bool> {
    if p.enabled then preferences - {(s, p.category)} else preferences[(s, p.category) := false]
  }

  function WriteMany(preferences: map<(SubId, Category), bool>, s: SubId, entries: seq<Preference>)
    : map<(SubId, Category), bool>
  {
    if entries == [] then preferences
    else WriteOne(WriteMany(preferences, s, entries[..|entries| - 1]), s, entries[|entries| - 1])
  }

  /** Whether some entry of the loop touched a row. */
  predicate TouchesARow(preferences: map<(SubId, Category), bool>, s: SubId, entries: seq<Preference>) {
    exists i | 0 <= i < |entries| ::
      var before := WriteMany(preferences, s, entries[..i]);
      WriteOne(before, s, entries[i]) != before
  }

  function WritePreferences(db: Db, s: SubId, entries: seq<Preference>, job: JobId, begin: Time): (db': Db)
    ensures db' == db.(preferences := db'.preferences, jobs := db'.jobs)
    ensures RowsHaveCounters(db) ==> RowsHaveCounters(db')
  {
    hide WellFormedWrite, WriteMany, TouchesARow;
    if !WellFormedWrite(entries) then db
    else
      var db1 := db.(preferences := WriteMany(db.preferences, s, entries));
      if TouchesARow(db.preferences, s, entries) then
        db1.(jobs := db1.jobs[job := Job(CounterRebuild(s), begin, 0, MAX_ATTEMPTS)])
      else db1
  }

  // ---------------------------------------------------------------- worker chunks

  function Chunk(ids: seq<NotifId>, offset: nat): seq<NotifId> {
    if offset >= |ids| then []
    else if |ids| - offset <= DELIVER_CHUNK then ids[offset..]
    else ids[offset..offset + DELIVER_CHUNK]
  }

  ghost function ChunkUnread(db: Db, s: SubId, chunk: seq<NotifId>): set<NotifId>
    requires RowsHaveCounters(db)
  {
    set id | id in chunk && id in db.notifications && db.notifications[id].subscriber == s
             && CountsUnread(db, db.notifications[id])
  }

  ghost function ChunkUnseen(db: Db, s: SubId, chunk: seq<NotifId>): set<NotifId>
    requires RowsHaveCounters(db)
  {
    set id | id in chunk && id in db.notifications && db.notifications[id].subscriber == s
             && CountsUnseen(db, db.notifications[id])
  }

  /** The counter bumps of one deliver chunk. */
  ghost function Bumped(db: Db, chunk: seq<NotifId>): map<SubId, Counters>
    requires RowsHaveCounters(db)
  {
    map s | s in db.counters ::
      db.counters[s].(unread := db.counters[s].unread + |ChunkUnread(db, s, chunk)|,
                      unseen := db.counters[s].unseen + |ChunkUnseen(db, s, chunk)|)
  }

  ghost function RunDeliver(db: Db, j: JobId): (db': Db)
    requires RowsHaveCounters(db) && j in db.jobs && db.jobs[j].work.Deliver?
    ensures RowsHaveCounters(db) ==> RowsHaveCounters(db')
  {
    var job := db.jobs[j];
    var chunk := Chunk(job.work.ids, job.work.offset);
    var next := job.work.offset + |chunk|;
    db.(counters := Bumped(db, chunk),
        jobs := if next < |job.work.ids| then db.jobs[j := job.(work := Deliver(job.work.ids, next))]
                else db.jobs - {j})
  }

  /** What `recount_subscriber` counts: visible at the pinned `now`, pending by `jobs` alone. */
  ghost function RecountedUnread(db: Db, s: SubId, now: Time): set<NotifId>
    requires RowsHaveCounters(db)
  {
    set id | id in db.notifications && db.notifications[id].subscriber == s
             && db.notifications[id].visibleAt <= now
             && CountsUnread(db, db.notifications[id]) && !Pending(db, id)
  }

  ghost function RecountedUnseen(db: Db, s: SubId, now: Time): set<NotifId>
    requires RowsHaveCounters(db)
  {
    set id | id in db.notifications && db.notifications[id].subscriber == s
             && db.notifications[id].visibleAt <= now
             && CountsUnseen(db, db.notifications[id]) && !Pending(db, id)
  }

  ghost function Recount(db: Db, s: SubId, now: Time): (db': Db)
    requires RowsHaveCounters(db)
    ensures db' == db.(counters := db'.counters) && db'.counters.Keys == db.counters.Keys
  {
    if s !in db.counters then db
    else
      db.(counters := db.counters[s := db.counters[s].(
            unread := |RecountedUnread(db, s, now)|, unseen := |RecountedUnseen(db, s, now)|)])
  }

  function DirectKey(db: Db, id: NotifId): Key
    requires id in db.notifications
  {
    Key(db.notifications[id].visibleAt, id)
  }

  /** The direct scan of an archive-read chunk, before its LIMIT. */
  function ArchiveDirectScan(db: Db, s: SubId, after: Key, asOf: Time): set<Key> {
    set id | id in db.notifications && db.notifications[id].subscriber == s
             && Below(after, DirectKey(db, id)) && db.notifications[id].visibleAt <= asOf
        :: DirectKey(db, id)
  }

  /** The broadcast scan of an archive-read chunk, before its LIMIT. */
  function ArchiveBroadcastScan(db: Db, s: SubId, after: Key, asOf: Time): set<Key>
    requires s in db.subscribers
  {
    set b | b in db.broadcasts && db.subscribers[s] <= db.broadcasts[b].createdAt <= asOf
            && Below(after, Key(db.broadcasts[b].createdAt, b))
        :: Key(db.broadcasts[b].createdAt, b)
  }

  predicate InRange(after: Key, k: Key, last: Key) {
    Below(after, k) && AtOrBelow(k, last)
  }

  /** Archive the read, unarchived rows of `s` with a key in `(after, last]`. */
  function ArchiveReadRows(db: Db, s: SubId, after: Key, last: Key, now: Time): (rows: map<NotifId, Row>)
    requires s in db.counters
    ensures SameRowFrame(db.notifications, rows)
  {
    var c := db.counters[s];
    map id | id in db.notifications ::
      var row := db.notifications[id];
      if && row.subscriber == s && InRange(after, DirectKey(db, id), last)
         && EffectivelyRead(row, c.readWatermark) && !EffectivelyArchived(row, c.archiveWatermark)
      then row.(archivedAt := Some(now), unarchivedAt := None)
      else row
  }

  predicate BroadcastRead(db: Db, s: SubId, b: BroadcastId)
    requires s in db.counters && b in db.broadcasts
  {
    EffectiveFlag(db.broadcastReads, s, b, db.broadcasts[b].createdAt, db.counters[s].readWatermark)
  }

  predicate BroadcastArchived(db: Db, s: SubId, b: BroadcastId)
    requires s in db.counters && b in db.broadcasts
  {
    EffectiveFlag(db.broadcastArchives, s, b, db.broadcasts[b].createdAt, db.counters[s].archiveWatermark)
  }

  /** Upsert `archived = true` for the read, unarchived broadcasts with a key in `(after, last]`. */
  function ArchiveReadBroadcasts(db: Db, s: SubId, after: Key, last: Key): map<(SubId, BroadcastId), Override>
    requires s in db.counters
  {
    var hits := set b | b in db.broadcasts && InRange(after, Key(db.broadcasts[b].createdAt, b), last)
                        && BroadcastRead(db, s, b) && !BroadcastArchived(db, s, b);
    map k | k in db.broadcastArchives.Keys + (set b | b in hits :: (s, b)) ::
      if k.0 == s && k.1 in hits then Upserted(db.broadcastArchives, s, k.1, db.broadcasts[k.1].createdAt, true)
      else db.broadcastArchives[k]
  }

  /** One job that owns and recounts nothing is rewritten or deleted. */
  predicate IdleJobStep(db: Db, db': Db, j: JobId) {
    && db'.jobs == (if j in db'.jobs then db.jobs[j := db'.jobs[j]] else db.jobs - {j})
    && (j in db'.jobs ==> !db'.jobs[j].work.Deliver? && !db'.jobs[j].work.CounterRebuild?)
  }

  /** All an archive-read claim may change: archive state, and its own job. */
  predicate ArchiveFrame(db: Db, db': Db, j: JobId) {
    && db' == db.(notifications := db'.notifications, broadcastArchives := db'.broadcastArchives, jobs := db'.jobs)
    && SameRowFrame(db.notifications, db'.notifications)
    && IdleJobStep(db, db', j)
  }

  /** The cursor after a direct chunk: the next direct key, or the start of the broadcasts. */
  function AfterDirect(s: SubId, asOf: Time, rows: seq<Key>): Work {
    if |rows| == ARCHIVE_CHUNK then ArchiveRead(s, asOf, DirectPhase, rows[|rows| - 1])
    else ArchiveRead(s, asOf, BroadcastPhase, FIRST_KEY)
  }

  /** The direct phase of one claim: archive one keyset chunk and advance the cursor. */
  function ArchiveDirectChunk(db: Db, j: JobId, rows: seq<Key>, now: Time): Db
    requires j in db.jobs && db.jobs[j].work.ArchiveRead? && db.jobs[j].work.subscriber in db.counters
  {
    var ArchiveRead(s, asOf, _, after) := db.jobs[j].work;
    db.(notifications := if rows == [] then db.notifications
                         else ArchiveReadRows(db, s, after, rows[|rows| - 1], now),
        jobs := db.jobs[j := db.jobs[j].(work := AfterDirect(s, asOf, rows))])
  }

  /** The broadcast phase of one claim: the job ends with the first short chunk. */
  function ArchiveBroadcastChunk(db: Db, j: JobId, rows: seq<Key>): Db
    requires j in db.jobs && db.jobs[j].work.ArchiveRead? && db.jobs[j].work.subscriber in db.counters
  {
    var ArchiveRead(s, asOf, _, after) := db.jobs[j].work;
    db.(broadcastArchives := if rows == [] then db.broadcastArchives
                             else ArchiveReadBroadcasts(db, s, after, rows[|rows| - 1]),
        jobs := if |rows| == ARCHIVE_CHUNK
                then db.jobs[j := db.jobs[j].(work := ArchiveRead(s, asOf, BroadcastPhase, rows[|rows| - 1]))]
                else db.jobs - {j})
  }

  lemma DirectChunkFrame(db: Db, j: JobId, rows: seq<Key>, now: Time)
    requires j in db.jobs && db.jobs[j].work.ArchiveRead? && db.jobs[j].work.subscriber in db.counters
    ensures ArchiveFrame(db, ArchiveDirectChunk(db, j, rows, now), j)
  {
  }

  lemma BroadcastChunkFrame(db: Db, j: JobId, rows: seq<Key>)
    requires j in db.jobs && db.jobs[j].work.ArchiveRead? && db.jobs[j].work.subscriber in db.counters
    ensures ArchiveFrame(db, ArchiveBroadcastChunk(db, j, rows), j)
  {
  }

  /** The keys one claim scans: its LIMIT, in key order. */
  ghost function ArchiveScan(db: Db, s: SubId, work: Work): seq<Key>
    requires work.ArchiveRead? && (work.phase == BroadcastPhase ==> s in db.subscribers)
  {
    Take(Ascending(if work.phase == DirectPhase then ArchiveDirectScan(db, s, work.after, work.asOf)
                   else ArchiveBroadcastScan(db, s, work.after, work.asOf)), ARCHIVE_CHUNK)
  }

  /** One claim of an archive-read job. */
  ghost function RunArchiveRead(db: Db, j: JobId, now: Time): (db': Db)
    requires j in db.jobs && db.jobs[j].work.ArchiveRead?
    ensures ArchiveFrame(db, db', j)
  {
    hide ArchiveScan, ArchiveDirectChunk, ArchiveBroadcastChunk;
    var work := db.jobs[j].work;
    var s := work.subscriber;
    if s !in db.counters || (work.phase == BroadcastPhase && s !in db.subscribers) then
      db.(jobs := db.jobs - {j})
    else
      var rows := ArchiveScan(db, s, work);
      DirectChunkFrame(db, j, rows, now);
      BroadcastChunkFrame(db, j, rows);
      if work.phase == DirectPhase then ArchiveDirectChunk(db, j, rows, now) else ArchiveBroadcastChunk(db, j, rows)
  }

  function RequestArchiveRead(db: Db, s: SubId, job: JobId, begin: Time, clock: Time): (db': Db)
    ensures RowsHaveCounters(db) ==> RowsHaveCounters(db')
  {
    if s !in db.counters then db
    else db.(jobs := db.jobs[job := Job(ArchiveRead(s, clock, DirectPhase, FIRST_KEY), begin, 0, MAX_ATTEMPTS)])
  }

  /** One committed claim of job `j`: its effects together with its deletion or cursor advance. */
  ghost function RunJob(db: Db, j: JobId, begin: Time): (db': Db)
    requires RowsHaveCounters(db)
    ensures RowsHaveCounters(db) ==> RowsHaveCounters(db')
  {
    if j !in db.jobs || db.jobs[j].runAt > begin then db
    else
      match db.jobs[j].work
      case Deliver(_, _) => RunDeliver(db, j)
      case CounterRebuild(s) => Recount(db, s, begin).(jobs := db.jobs - {j})
      case ArchiveRead(_, _, _, _) => RunArchiveRead(db, j, begin)
  }

  // ---------------------------------------------------------------- failure, parking, replay

  /** One more attempt counted, and the next one backed off. */
  function Failed(job: Job, backoff: nat, begin: Time): (r: Job)
    ensures r.work == job.work && r.maxAttempts == job.maxAttempts
    ensures r.attempts == job.attempts + 1 && r.runAt == begin + backoff
  {
    job.(attempts := job.attempts + 1, runAt := begin + backoff)
  }

  /** `fail_job`: back off, or park in `dead_letters` once the attempts are used up. */
  function FailJob(db: Db, j: JobId, backoff: nat, begin: Time): (db': Db)
    ensures db' == db.(jobs := db'.jobs, deadLetters := db'.deadLetters)
  {
    if j !in db.jobs then db
    else
      var job := Failed(db.jobs[j], backoff, begin);
      if job.attempts >= job.maxAttempts
      then db.(jobs := db.jobs - {j}, deadLetters := db.deadLetters[j := job])
      else db.(jobs := db.jobs[j := job])
  }

  /** The queue with the revived jobs in it: due at once, with a fresh attempt budget. */
  function Requeued(jobs: map<JobId, Job>, deadLetters: map<JobId, Job>, revived: set<JobId>, begin: Time): (r: map<JobId, Job>)
    requires revived <= deadLetters.Keys
    ensures r.Keys == jobs.Keys + revived
  {
    map j | j in jobs.Keys + revived ::
      if j in revived then deadLetters[j].(runAt := begin, attempts := 0) else jobs[j]
  }

  /** `replay_where`: every selected dead letter goes back to the queue with its cursor kept. */
  function Replay(db: Db, selected: set<JobId>, begin: Time): (db': Db)
    ensures db' == db.(jobs := db'.jobs, deadLetters := db'.deadLetters)
  {
    hide Requeued;
    var revived := selected * db.deadLetters.Keys;
    db.(jobs := Requeued(db.jobs, db.deadLetters, revived, begin), deadLetters := db.deadLetters - revived)
  }

  // ---------------------------------------------------------------- moving notifications

  predicate Moves(db: Db, src: SubId, ids: seq<NotifId>, id: NotifId, now: Time) {
    && id in ids && id in db.notifications && db.notifications[id].subscriber == src
    && db.notifications[id].visibleAt <= now && !Pending(db, id)
  }

  function MovedIds(db: Db, src: SubId, ids: seq<NotifId>, now: Time): set<NotifId> {
    set id | id in db.notifications && Moves(db, src, ids, id, now)
  }

  /** The row re-encoded under the target's watermarks. */
  function MovedRow(row: Row, dst: SubId, from: Counters, to: Counters, now: Time): Row {
    row.(subscriber := dst,
         readAt := if row.readAt.Some? || (row.unreadAt.None? && row.visibleAt <= from.readWatermark)
                   then Some(if row.readAt.Some? then row.readAt.value else from.readWatermark) else None,
         unreadAt := if && row.readAt.None? && (row.unreadAt.Some? || row.visibleAt > from.readWatermark)
                        && row.visibleAt <= to.readWatermark
                     then Some(if row.unreadAt.Some? then row.unreadAt.value else now) else None,
         archivedAt := if row.archivedAt.Some? || (row.unarchivedAt.None? && row.visibleAt <= from.archiveWatermark)
                       then Some(if row.archivedAt.Some? then row.archivedAt.value else from.archiveWatermark) else None,
         unarchivedAt := if && row.archivedAt.None? && (row.unarchivedAt.Some? || row.visibleAt > from.archiveWatermark)
                            && row.visibleAt <= to.archiveWatermark
                         then Some(if row.unarchivedAt.Some? then row.unarchivedAt.value else now) else None)
  }

  function MovedRows(db: Db, src: SubId, dst: SubId, ids: seq<NotifId>, now: Time): (rows: map<NotifId, Row>)
    requires src in db.counters && dst in db.counters
    ensures rows.Keys == db.notifications.Keys
    ensures forall id | id in rows ::
              && (rows[id].subscriber == dst || rows[id].subscriber == db.notifications[id].subscriber)
              && rows[id].deliverAt == db.notifications[id].deliverAt
  {
    map id | id in db.notifications ::
      if Moves(db, src, ids, id, now)
      then MovedRow(db.notifications[id], dst, db.counters[src], db.counters[dst], now)
      else db.notifications[id]
  }

  /** `INSERT ... SELECT ... ON CONFLICT DO NOTHING`: the target's own rows win. */
  function CopiedPreferences(preferences: map<(SubId, Category), bool>, src: SubId, dst: SubId)
    : map<(SubId, Category), bool>
  {
    var copied := map k | k in preferences && k.0 == src :: k.1 := preferences[k];
    map k | k in preferences.Keys + (set c | c in copied :: (dst, c)) ::
      if k in preferences then preferences[k] else copied[k.1]
  }

  function MoveRows(db: Db, src: SubId, dst: SubId, ids: seq<NotifId>, begin: Time): (db': Db)
    requires src in db.counters && dst in db.counters
    ensures RowsHaveCounters(db) ==> RowsHaveCounters(db')
    ensures Quiet(db, db')
  {
    db.(notifications := MovedRows(db, src, dst, ids, begin),
        preferences := CopiedPreferences(db.preferences, src, dst))
  }

  ghost function Move(db: Db, src: SubId, dst: SubId, ids: seq<NotifId>, begin: Time): (db': Db)
    requires RowsHaveCounters(db)
    ensures RowsHaveCounters(db) ==> RowsHaveCounters(db')
    ensures Quiet(db, db')
  {
    hide Enrol, MoveRows, Moves, Recount;
    if src !in db.subscribers || src == dst || ids == [] || |ids| > 100 then db
    else
      var db1 := Enrol(db, {src, dst}, begin);
      if forall id | id in db1.notifications :: !Moves(db1, src, ids, id, begin) then db1
      else Recount(Recount(MoveRows(db1, src, dst, ids, begin), src, begin), dst, begin)
  }
}
