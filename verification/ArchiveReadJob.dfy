/**
 The archive-read job run to completion. However its claims are cut into chunks, and
 whatever crashes repeat them, it does what one pass over the read items would do.
 */
module ArchiveReadJob {
  import opened Keyset
  import opened Chunks
  import opened InboxState
  import opened InboxSteps
  import opened InboxRuns
  import opened NaiveInbox
  import opened InboxRefinement

  // ---------------------------------------------------------------- specification

  /** Every key after the epoch with the nil uuid, up to the horizon. */
  predicate WithinHorizon(k: Key, asOf: Time) {
    Below(Key(0, 0), k) && k.ts <= asOf
  }

  /** One pass: every read item of `s` that existed at `asOf`, all at once. */
  function OnePass(db: Db, s: SubId, asOf: Time): Effect
    requires s in db.subscribers
  {
    ArchiveIfRead(s,
      set id | id in db.notifications && WithinHorizon(DirectKey(db, id), asOf),
      set b | b in db.broadcasts && db.subscribers[s] <= db.broadcasts[b].createdAt
              && WithinHorizon(Key(db.broadcasts[b].createdAt, b), asOf))
  }

  /** Nothing but archive state and the job tables differs, and no counter does. */
  predicate OnlyArchives(db0: Db, db: Db) {
    db == db0.(notifications := db.notifications, broadcastArchives := db.broadcastArchives, jobs := db.jobs)
  }

  /** The pass is done, for every notification and every broadcast the subscriber can see. */
  ghost predicate Finished(db0: Db, db: Db, s: SubId, asOf: Time)
    requires RowsHaveCounters(db0) && s in db0.subscribers
  {
    && OnlyArchives(db0, db) && RowsHaveCounters(db)
    && (forall id | id in db0.notifications ::
          id in db.notifications && ItemAt(db, id) == NextItem(id, ItemAt(db0, id), OnePass(db0, s, asOf)))
    && (forall t, b | t in db0.counters && b in db0.broadcasts && (t != s || BroadcastVisibleTo(db0, s, b)) ::
          BroadcastAt(db, t, b) == NextBroadcast(b, BroadcastAt(db0, t, b), OnePass(db0, s, asOf)))
  }

  // ---------------------------------------------------------------- progress

  /** What the cursor says is behind it. */
  predicate CoversRow(w: Work, k: Key)
    requires w.ArchiveRead?
  {
    WithinHorizon(k, w.asOf) && (w.phase == DirectPhase ==> AtOrBelow(k, w.after))
  }

  predicate CoversBroadcast(w: Work, k: Key)
    requires w.ArchiveRead?
  {
    w.phase == BroadcastPhase && InRange(FIRST_KEY, k, w.after)
  }

  predicate CursorOk(w: Work) {
    w.ArchiveRead? && (w.after == FIRST_KEY || (Below(FIRST_KEY, w.after) && w.after.ts <= w.asOf))
  }

  function ArchivedIf(item: Item, covered: bool): Item {
    if covered && item.read then item.(archived := true) else item
  }

  ghost predicate RowProgress(db0: Db, db: Db, w: Work)
    requires RowsHaveCounters(db0) && RowsHaveCounters(db) && w.ArchiveRead?
  {
    forall id | id in db0.notifications ::
      && id in db.notifications
      && ItemAt(db, id) == ArchivedIf(ItemAt(db0, id),
           db0.notifications[id].subscriber == w.subscriber && CoversRow(w, DirectKey(db0, id)))
  }

  ghost predicate BroadcastProgress(db0: Db, db: Db, w: Work)
    requires OnlyArchives(db0, db) && w.ArchiveRead?
  {
    forall t, b | t in db0.counters && b in db0.broadcasts ::
      BroadcastAt(db, t, b) == ArchivedIf(BroadcastAt(db0, t, b),
        t == w.subscriber && CoversBroadcast(w, Key(db0.broadcasts[b].createdAt, b)))
  }

  /** Between any two claims: exactly what the committed cursor covers has been archived. */
  ghost predicate Progress(db0: Db, db: Db, w: Work) {
    && RowsHaveCounters(db0) && RowsHaveCounters(db) && BroadcastsOk(db) && OnlyArchives(db0, db)
    && CursorOk(w) && w.subscriber in db0.counters && w.subscriber in db0.subscribers
    && db.notifications.Keys == db0.notifications.Keys
    && RowProgress(db0, db, w) && BroadcastProgress(db0, db, w)
  }

  // ---------------------------------------------------------------- one claim

  lemma ScanBounds(db: Db, w: Work)
    requires CursorOk(w) && w.subscriber in db.subscribers
    ensures forall k | k in ArchiveDirectScan(db, w.subscriber, w.after, w.asOf) ::
              Below(w.after, k) && WithinHorizon(k, w.asOf)
    ensures forall k | k in ArchiveBroadcastScan(db, w.subscriber, w.after, w.asOf) ::
              Below(w.after, k) && WithinHorizon(k, w.asOf)
  {
  }

  /** A direct chunk up to `last` moves the covered region from `after` to `last`. */
  lemma DirectChunkCovers(w: Work, last: Key, k: Key)
    requires CursorOk(w) && w.phase == DirectPhase && Below(w.after, last) && last.ts <= w.asOf
    ensures CoversRow(w.(after := last), k) <==> CoversRow(w, k) || InRange(w.after, k, last)
  {
  }

  lemma BroadcastChunkCovers(w: Work, last: Key, k: Key)
    requires CursorOk(w) && w.phase == BroadcastPhase && Below(w.after, last)
    ensures CoversBroadcast(w.(after := last), k) <==> CoversBroadcast(w, k) || InRange(w.after, k, last)
  {
  }

  /** The two halves of refinement. */
  ghost predicate RefinesRows(db: Db, db': Db, effect: Effect)
    requires RowsHaveCounters(db) && RowsHaveCounters(db')
  {
    forall id | id in db.notifications ::
      id in db'.notifications && ItemAt(db', id) == NextItem(id, ItemAt(db, id), effect)
  }

  ghost predicate RefinesBroadcasts(db: Db, db': Db, effect: Effect) {
    forall s, b | s in db.counters && b in db.broadcasts ::
      s in db'.counters && b in db'.broadcasts && BroadcastAt(db', s, b) == NextBroadcast(b, BroadcastAt(db, s, b), effect)
  }

  lemma ComposeRow(db0: Db, db: Db, db': Db, w: Work, w': Work, ids: set<NotifId>)
    requires RowsHaveCounters(db0) && RowsHaveCounters(db) && RowsHaveCounters(db')
    requires w.ArchiveRead? && w'.ArchiveRead? && w'.subscriber == w.subscriber
    requires db.notifications.Keys == db0.notifications.Keys && RowProgress(db0, db, w)
    requires RefinesRows(db, db', ArchiveIfRead(w.subscriber, ids, {}))
    requires forall id | id in db0.notifications && db0.notifications[id].subscriber == w.subscriber ::
               CoversRow(w', DirectKey(db0, id)) <==> CoversRow(w, DirectKey(db0, id)) || id in ids
    ensures RowProgress(db0, db', w')
  {
    forall id | id in db0.notifications
      ensures id in db'.notifications
      ensures ItemAt(db', id) == ArchivedIf(ItemAt(db0, id),
                db0.notifications[id].subscriber == w.subscriber && CoversRow(w', DirectKey(db0, id)))
    {
      assert ItemAt(db, id) == ArchivedIf(ItemAt(db0, id),
               db0.notifications[id].subscriber == w.subscriber && CoversRow(w, DirectKey(db0, id)));
    }
  }

  lemma SameDirectKeys(db0: Db, db: Db, w: Work, id: NotifId)
    requires Progress(db0, db, w) && id in db0.notifications
    ensures DirectKey(db, id) == DirectKey(db0, id)
    ensures db.notifications[id].subscriber == db0.notifications[id].subscriber
  {
  }

  lemma ComposeBroadcast(db0: Db, db: Db, db': Db, w: Work, w': Work, bs: set<BroadcastId>)
    requires OnlyArchives(db0, db) && OnlyArchives(db0, db') && RowsHaveCounters(db) && RowsHaveCounters(db')
    requires w.ArchiveRead? && w'.ArchiveRead? && w'.subscriber == w.subscriber && BroadcastProgress(db0, db, w)
    requires RefinesBroadcasts(db, db', ArchiveIfRead(w.subscriber, {}, bs))
    requires forall b | b in db0.broadcasts ::
               var k := Key(db0.broadcasts[b].createdAt, b);
               CoversBroadcast(w', k) <==> (CoversBroadcast(w, k) || b in bs)
    ensures BroadcastProgress(db0, db', w')
  {
  }

  /** One claim, from progress to progress, given which items it archived. */
  lemma ComposeClaim(db0: Db, db: Db, db': Db, w: Work, w': Work, ids: set<NotifId>, bs: set<BroadcastId>)
    requires Progress(db0, db, w) && CursorOk(w') && w'.subscriber == w.subscriber
    requires RowsHaveCounters(db') && OnlyArchives(db, db') && db'.notifications.Keys == db.notifications.Keys
    requires Refines(db, db', ArchiveIfRead(w.subscriber, ids, bs))
    requires forall id | id in db0.notifications && db0.notifications[id].subscriber == w.subscriber ::
               CoversRow(w', DirectKey(db0, id)) <==> CoversRow(w, DirectKey(db0, id)) || id in ids
    requires forall b | b in db0.broadcasts ::
               var k := Key(db0.broadcasts[b].createdAt, b);
               CoversBroadcast(w', k) <==> (CoversBroadcast(w, k) || b in bs)
    ensures Progress(db0, db', w')
  {
    hide RowProgress, BroadcastProgress, Refines, RefinesRows, RefinesBroadcasts, CoversRow, CoversBroadcast;
    RowsOnly(db, db', w.subscriber, ids, bs);
    ComposeRow(db0, db, db', w, w', ids);
    ComposeBroadcast(db0, db, db', w, w', bs);
  }

  lemma RowsOnly(db: Db, db': Db, s: SubId, ids: set<NotifId>, bs: set<BroadcastId>)
    requires RowsHaveCounters(db) && RowsHaveCounters(db') && Refines(db, db', ArchiveIfRead(s, ids, bs))
    ensures RefinesRows(db, db', ArchiveIfRead(s, ids, {}))
    ensures RefinesBroadcasts(db, db', ArchiveIfRead(s, {}, bs))
    ensures BroadcastsOk(db')
  {
  }

  // ---------------------------------------------------------------- how many claims are left

  ghost function ClaimsFor(keys: nat): nat {
    keys / ARCHIVE_CHUNK + 1
  }

  /** The exact number of claims the job still takes. */
  ghost function ClaimsLeft(db: Db, w: Work): nat
    requires w.ArchiveRead? && w.subscriber in db.subscribers
  {
    if w.phase == DirectPhase then
      ClaimsFor(|ArchiveDirectScan(db, w.subscriber, w.after, w.asOf)|)
        + ClaimsFor(|ArchiveBroadcastScan(db, w.subscriber, FIRST_KEY, w.asOf)|)
    else ClaimsFor(|ArchiveBroadcastScan(db, w.subscriber, w.after, w.asOf)|)
  }

  lemma NextDirectScan(db: Db, s: SubId, after: Key, last: Key, asOf: Time)
    requires Below(after, last)
    ensures ArchiveDirectScan(db, s, last, asOf) == Above(ArchiveDirectScan(db, s, after, asOf), last)
  {
  }

  lemma NextBroadcastScan(db: Db, s: SubId, after: Key, last: Key, asOf: Time)
    requires Below(after, last) && s in db.subscribers
    ensures ArchiveBroadcastScan(db, s, last, asOf) == Above(ArchiveBroadcastScan(db, s, after, asOf), last)
  {
  }

  /** A scan depends on which rows there are and when they became visible. */
  lemma SameDirectScan(db0: Db, db: Db, db': Db, w: Work, w': Work, x: Work)
    requires Progress(db0, db, w) && Progress(db0, db', w') && x.ArchiveRead?
    ensures ArchiveDirectScan(db', x.subscriber, x.after, x.asOf) == ArchiveDirectScan(db, x.subscriber, x.after, x.asOf)
  {
    hide Below, RowProgress, BroadcastProgress;
    forall id | id in db0.notifications
      ensures DirectKey(db, id) == DirectKey(db', id) && db.notifications[id].subscriber == db'.notifications[id].subscriber
    {
      SameDirectKeys(db0, db, w, id);
      SameDirectKeys(db0, db', w', id);
    }
    forall k ensures k in ArchiveDirectScan(db', x.subscriber, x.after, x.asOf)
               <==> k in ArchiveDirectScan(db, x.subscriber, x.after, x.asOf)
    {
      assert k in ArchiveDirectScan(db', x.subscriber, x.after, x.asOf)
        <==> k.id in db'.notifications && db'.notifications[k.id].subscriber == x.subscriber
             && DirectKey(db', k.id) == k && Below(x.after, k) && k.ts <= x.asOf;
      assert k in ArchiveDirectScan(db, x.subscriber, x.after, x.asOf)
        <==> k.id in db.notifications && db.notifications[k.id].subscriber == x.subscriber
             && DirectKey(db, k.id) == k && Below(x.after, k) && k.ts <= x.asOf;
    }
  }

  /** What a direct chunk covers, whether full or short. */
  lemma DirectChunkRegion(db: Db, w: Work, id: NotifId)
    requires CursorOk(w) && w.phase == DirectPhase && w.subscriber in db.subscribers
    requires id in db.notifications && db.notifications[id].subscriber == w.subscriber
    ensures
      var rows := ArchiveScan(db, w.subscriber, w);
      var w' := AfterDirect(w.subscriber, w.asOf, rows);
      var k := DirectKey(db, id);
      && CursorOk(w')
      && (CoversRow(w', k) <==> (CoversRow(w, k) || (rows != [] && InRange(w.after, k, rows[|rows| - 1]))))
  {
    hide Ascending, Take;
    var keys := ArchiveDirectScan(db, w.subscriber, w.after, w.asOf);
    var k := DirectKey(db, id);
    ScanBounds(db, w);
    if |keys| >= ARCHIVE_CHUNK {
      FullChunk(keys, ARCHIVE_CHUNK);
      DirectChunkCovers(w, Ascending(keys)[ARCHIVE_CHUNK - 1], k);
    } else {
      ShortChunk(keys, ARCHIVE_CHUNK);
      assert k in keys <==> Below(w.after, k) && k.ts <= w.asOf;
    }
  }

  lemma BroadcastChunkRegion(db: Db, w: Work, b: BroadcastId)
    requires CursorOk(w) && w.phase == BroadcastPhase && w.subscriber in db.subscribers && b in db.broadcasts
    ensures
      var rows := ArchiveScan(db, w.subscriber, w);
      var k := Key(db.broadcasts[b].createdAt, b);
      var w' := if rows == [] then w else w.(after := rows[|rows| - 1]);
      && CursorOk(w')
      && (CoversBroadcast(w', k) <==> (CoversBroadcast(w, k) || (rows != [] && InRange(w.after, k, rows[|rows| - 1]))))
      && (|rows| < ARCHIVE_CHUNK && db.subscribers[w.subscriber] <= k.ts ==>
            (CoversBroadcast(w', k) <==> WithinHorizon(k, w.asOf)))
  {
    hide Ascending, Take;
    var keys := ArchiveBroadcastScan(db, w.subscriber, w.after, w.asOf);
    var k := Key(db.broadcasts[b].createdAt, b);
    ScanBounds(db, w);
    if |keys| >= ARCHIVE_CHUNK {
      FullChunk(keys, ARCHIVE_CHUNK);
      BroadcastChunkCovers(w, Ascending(keys)[ARCHIVE_CHUNK - 1], k);
    } else {
      ShortChunk(keys, ARCHIVE_CHUNK);
      assert k in keys <==> Below(w.after, k) && db.subscribers[w.subscriber] <= k.ts <= w.asOf;
    }
  }

  // ---------------------------------------------------------------- one claim, put together

  ghost function RowsReached(db: Db, w: Work): set<NotifId>
    requires w.ArchiveRead? && w.subscriber in db.subscribers
  {
    var rows := ArchiveScan(db, w.subscriber, w);
    if rows == [] then {}
    else set id | id in db.notifications && InRange(w.after, DirectKey(db, id), rows[|rows| - 1])
  }

  ghost function BroadcastsReached(db: Db, w: Work): set<BroadcastId>
    requires w.ArchiveRead? && w.subscriber in db.subscribers
  {
    var rows := ArchiveScan(db, w.subscriber, w);
    if rows == [] then {}
    else set b | b in db.broadcasts && InRange(w.after, Key(db.broadcasts[b].createdAt, b), rows[|rows| - 1])
  }

  /** An empty chunk is an effect on no item. */
  lemma ClaimReaches(db: Db, j: JobId, now: Time)
    requires RowsHaveCounters(db) && BroadcastsOk(db) && j in db.jobs && db.jobs[j].work.ArchiveRead?
    requires db.jobs[j].work.subscriber in db.counters && db.jobs[j].work.subscriber in db.subscribers
    ensures
      var w := db.jobs[j].work;
      var db' := RunArchiveRead(db, j, now);
      && RowsHaveCounters(db')
      && Refines(db, db', if w.phase == DirectPhase then ArchiveIfRead(w.subscriber, RowsReached(db, w), {})
                          else ArchiveIfRead(w.subscriber, {}, BroadcastsReached(db, w)))
  {
    hide ArchiveScan, RunArchiveRead, InRange;
    ArchiveReadRefines(db, j, now);
  }

  lemma DirectClaim(db0: Db, db: Db, j: JobId, now: Time)
    requires j in db.jobs && Progress(db0, db, db.jobs[j].work) && db.jobs[j].work.phase == DirectPhase
    ensures
      var w := db.jobs[j].work;
      var db' := RunArchiveRead(db, j, now);
      var w' := AfterDirect(w.subscriber, w.asOf, ArchiveScan(db, w.subscriber, w));
      && j in db'.jobs && db'.jobs[j].work == w'
      && Progress(db0, db', w')
  {
    hide ArchiveScan, ArchiveReadRows, RowProgress, BroadcastProgress, Refines, BroadcastsOk, InRange, CoversRow;
    var w := db.jobs[j].work;
    var db' := RunArchiveRead(db, j, now);
    var rows := ArchiveScan(db, w.subscriber, w);
    var w' := AfterDirect(w.subscriber, w.asOf, rows);
    ClaimReaches(db, j, now);
    CursorAfterDirect(db, w);
    forall id | id in db0.notifications && db0.notifications[id].subscriber == w.subscriber
      ensures CoversRow(w', DirectKey(db0, id)) <==> (CoversRow(w, DirectKey(db0, id)) || id in RowsReached(db, w))
    {
      SameDirectKeys(db0, db, w, id);
      DirectChunkRegion(db, w, id);
    }
    NoBroadcastBehind(w, w');
    ComposeClaim(db0, db, db', w, w', RowsReached(db, w), {});
  }

  lemma CursorAfterDirect(db: Db, w: Work)
    requires CursorOk(w) && w.phase == DirectPhase && w.subscriber in db.subscribers
    ensures CursorOk(AfterDirect(w.subscriber, w.asOf, ArchiveScan(db, w.subscriber, w)))
  {
    hide Ascending, Take;
    var keys := ArchiveDirectScan(db, w.subscriber, w.after, w.asOf);
    ScanBounds(db, w);
    if |keys| >= ARCHIVE_CHUNK {
      FullChunk(keys, ARCHIVE_CHUNK);
    } else {
      ShortChunk(keys, ARCHIVE_CHUNK);
    }
  }

  lemma NoBroadcastBehind(w: Work, w': Work)
    requires w.ArchiveRead? && w'.ArchiveRead? && w.phase == DirectPhase
    requires w'.phase == DirectPhase || w'.after == FIRST_KEY
    ensures forall k :: !CoversBroadcast(w, k) && !CoversBroadcast(w', k)
  {
  }

  /** The cursor a broadcast claim reaches, committed or not. */
  ghost function AfterBroadcast(db: Db, w: Work): Work
    requires w.ArchiveRead? && w.subscriber in db.subscribers
  {
    var rows := ArchiveScan(db, w.subscriber, w);
    if rows == [] then w else w.(after := rows[|rows| - 1])
  }

  lemma BroadcastClaim(db0: Db, db: Db, j: JobId, now: Time)
    requires j in db.jobs && Progress(db0, db, db.jobs[j].work) && db.jobs[j].work.phase == BroadcastPhase
    ensures
      var w := db.jobs[j].work;
      var db' := RunArchiveRead(db, j, now);
      && Progress(db0, db', AfterBroadcast(db, w))
      && (if |ArchiveScan(db, w.subscriber, w)| == ARCHIVE_CHUNK
          then j in db'.jobs && db'.jobs[j].work == AfterBroadcast(db, w) else j !in db'.jobs)
  {
    hide ArchiveScan, ArchiveReadBroadcasts, RowProgress, BroadcastProgress, Refines, BroadcastsOk, InRange, CoversBroadcast;
    var w := db.jobs[j].work;
    var db' := RunArchiveRead(db, j, now);
    var w' := AfterBroadcast(db, w);
    ClaimReaches(db, j, now);
    CursorAfterBroadcast(db, w);
    forall b | b in db0.broadcasts
      ensures
        var k := Key(db0.broadcasts[b].createdAt, b);
        CoversBroadcast(w', k) <==> (CoversBroadcast(w, k) || b in BroadcastsReached(db, w))
    {
      BroadcastChunkRegion(db, w, b);
    }
    ComposeClaim(db0, db, db', w, w', {}, BroadcastsReached(db, w));
  }

  lemma CursorAfterBroadcast(db: Db, w: Work)
    requires CursorOk(w) && w.phase == BroadcastPhase && w.subscriber in db.subscribers
    ensures CursorOk(AfterBroadcast(db, w))
  {
    hide Ascending, Take;
    var keys := ArchiveBroadcastScan(db, w.subscriber, w.after, w.asOf);
    ScanBounds(db, w);
    if |keys| >= ARCHIVE_CHUNK {
      FullChunk(keys, ARCHIVE_CHUNK);
    } else {
      ShortChunk(keys, ARCHIVE_CHUNK);
    }
  }

  // ---------------------------------------------------------------- the whole job

  /** Claims of the job at the given times, as long as it exists. A crash in between is no claim. */
  ghost function Drain(db: Db, j: JobId, times: seq<Time>): Db
    requires j in db.jobs ==> db.jobs[j].work.ArchiveRead?
    decreases |times|
  {
    if j !in db.jobs || times == [] then db
    else Drain(RunArchiveRead(db, j, times[0]), j, times[1..])
  }

  lemma DirectClaimCounts(db0: Db, db: Db, j: JobId, now: Time)
    requires j in db.jobs && Progress(db0, db, db.jobs[j].work) && db.jobs[j].work.phase == DirectPhase
    ensures
      var db' := RunArchiveRead(db, j, now);
      && j in db'.jobs && Progress(db0, db', db'.jobs[j].work)
      && ClaimsLeft(db', db'.jobs[j].work) == ClaimsLeft(db, db.jobs[j].work) - 1
  {
    hide Ascending, Take, RowProgress, BroadcastProgress, Refines, BroadcastsOk, ArchiveDirectScan, ArchiveBroadcastScan, RunArchiveRead;
    var w := db.jobs[j].work;
    var db' := RunArchiveRead(db, j, now);
    DirectClaim(db0, db, j, now);
    var keys := ArchiveDirectScan(db, w.subscriber, w.after, w.asOf);
    SameDirectScan(db0, db, db', w, db'.jobs[j].work, db'.jobs[j].work);
    SameBroadcastScan(db, db');
    if |keys| >= ARCHIVE_CHUNK {
      FullChunk(keys, ARCHIVE_CHUNK);
      ScanBounds(db, w);
      NextDirectScan(db, w.subscriber, w.after, db'.jobs[j].work.after, w.asOf);
    } else {
      ShortChunk(keys, ARCHIVE_CHUNK);
    }
  }

  lemma SameBroadcastScan(db: Db, db': Db)
    requires db'.broadcasts == db.broadcasts && db'.subscribers == db.subscribers
    ensures forall s, after, asOf | s in db.subscribers ::
              ArchiveBroadcastScan(db', s, after, asOf) == ArchiveBroadcastScan(db, s, after, asOf)
  {
  }

  lemma BroadcastClaimCounts(db0: Db, db: Db, j: JobId, now: Time)
    requires j in db.jobs && Progress(db0, db, db.jobs[j].work) && db.jobs[j].work.phase == BroadcastPhase
    ensures
      var w := db.jobs[j].work;
      var db' := RunArchiveRead(db, j, now);
      if j in db'.jobs
      then Progress(db0, db', db'.jobs[j].work) && ClaimsLeft(db', db'.jobs[j].work) == ClaimsLeft(db, w) - 1
      else ClaimsLeft(db, w) == 1 && Finished(db0, db', w.subscriber, w.asOf)
  {
    hide Ascending, Take, RowProgress, BroadcastProgress, Refines, BroadcastsOk, ArchiveBroadcastScan, RunArchiveRead, Finished;
    var w := db.jobs[j].work;
    var db' := RunArchiveRead(db, j, now);
    BroadcastClaim(db0, db, j, now);
    var keys := ArchiveBroadcastScan(db, w.subscriber, w.after, w.asOf);
    SameBroadcastScan(db, db');
    if |keys| >= ARCHIVE_CHUNK {
      FullChunk(keys, ARCHIVE_CHUNK);
      ScanBounds(db, w);
      NextBroadcastScan(db, w.subscriber, w.after, db'.jobs[j].work.after, w.asOf);
    } else {
      ShortChunk(keys, ARCHIVE_CHUNK);
      ProgressIsFinished(db0, db, db', w);
    }
  }

  /** After the last, short chunk everything within the horizon is behind the cursor. */
  lemma ProgressIsFinished(db0: Db, db: Db, db': Db, w: Work)
    requires Progress(db0, db, w) && w.phase == BroadcastPhase && |ArchiveScan(db, w.subscriber, w)| < ARCHIVE_CHUNK
    requires Progress(db0, db', AfterBroadcast(db, w))
    ensures Finished(db0, db', w.subscriber, w.asOf)
  {
    hide ArchiveScan, BroadcastsOk, BroadcastRead, BroadcastArchived, InRange;
    var w' := AfterBroadcast(db, w);
    forall id | id in db0.notifications
      ensures ItemAt(db', id) == NextItem(id, ItemAt(db0, id), OnePass(db0, w.subscriber, w.asOf))
    {
      assert CoversRow(w', DirectKey(db0, id)) <==> WithinHorizon(DirectKey(db0, id), w.asOf);
    }
    forall t, b | t in db0.counters && b in db0.broadcasts && (t != w.subscriber || BroadcastVisibleTo(db0, w.subscriber, b))
      ensures BroadcastAt(db', t, b) == NextBroadcast(b, BroadcastAt(db0, t, b), OnePass(db0, w.subscriber, w.asOf))
    {
      BroadcastChunkRegion(db, w, b);
    }
  }

  /** From any committed cursor, after exactly the claims that are left, the job is gone and the pass is done. */
  lemma {:induction false} DrainFrom(db0: Db, db: Db, j: JobId, times: seq<Time>)
    requires j in db.jobs && Progress(db0, db, db.jobs[j].work)
    requires |times| == ClaimsLeft(db, db.jobs[j].work)
    ensures j !in Drain(db, j, times).jobs
    ensures Finished(db0, Drain(db, j, times), db.jobs[j].work.subscriber, db.jobs[j].work.asOf)
    decreases |times|
  {
    hide Progress, Finished, ClaimsLeft, RunArchiveRead;
    var w := db.jobs[j].work;
    ProgressIsOfArchiveRead(db0, db, w);
    var db' := RunArchiveRead(db, j, times[0]);
    if w.phase == DirectPhase {
      DirectClaimCounts(db0, db, j, times[0]);
      DirectClaim(db0, db, j, times[0]);
      ProgressIsOfArchiveRead(db0, db', db'.jobs[j].work);
      DrainFrom(db0, db', j, times[1..]);
    } else {
      BroadcastClaimCounts(db0, db, j, times[0]);
      BroadcastClaim(db0, db, j, times[0]);
      if j in db'.jobs {
        ProgressIsOfArchiveRead(db0, db', db'.jobs[j].work);
        DrainFrom(db0, db', j, times[1..]);
      }
    }
  }

  lemma ProgressIsOfArchiveRead(db0: Db, db: Db, w: Work)
    requires Progress(db0, db, w)
    ensures w.ArchiveRead? && RowsHaveCounters(db0) && w.subscriber in db0.subscribers && w.subscriber in db.subscribers
    ensures ClaimsLeft(db, w) > 0
  {
  }

  lemma FreshJobProgress(db: Db, s: SubId, asOf: Time)
    requires RowsHaveCounters(db) && BroadcastsOk(db) && s in db.counters && s in db.subscribers
    ensures Progress(db, db, ArchiveRead(s, asOf, DirectPhase, FIRST_KEY))
  {
  }

  /**
   The job a request enqueues takes exactly as many claims as its scans have chunks, at
   whatever times they happen, and then has done the one pass: every read item that
   existed at `asOf` is archived, nothing later is, and no counter has moved.
   */
  lemma ArchiveReadIsOnePass(db: Db, j: JobId, s: SubId, asOf: Time, times: seq<Time>)
    requires RowsHaveCounters(db) && BroadcastsOk(db) && s in db.counters && s in db.subscribers
    requires j in db.jobs && db.jobs[j].work == ArchiveRead(s, asOf, DirectPhase, FIRST_KEY)
    requires |times| == |ArchiveDirectScan(db, s, FIRST_KEY, asOf)| / 500
                      + |ArchiveBroadcastScan(db, s, FIRST_KEY, asOf)| / 500 + 2
    ensures j !in Drain(db, j, times).jobs
    ensures Finished(db, Drain(db, j, times), s, asOf)
    ensures Drain(db, j, times).counters == db.counters
  {
    hide Drain;
    FreshJobProgress(db, s, asOf);
    DrainFrom(db, db, j, times);
  }

  // ---------------------------------------------------------------- from the request to the end

  /** A claim of a due job at `now`, and what it leaves of the job. */
  lemma DueClaim(db: Db, j: JobId, now: Time)
    requires RowsHaveCounters(db) && j in db.jobs && db.jobs[j].work.ArchiveRead? && db.jobs[j].runAt <= now
    ensures
      var db' := RunArchiveRead(db, j, now);
      && Apply(db, Event(now, now, Work(j))) == db'
      && (j in db'.jobs ==> db'.jobs[j].work.ArchiveRead? && db'.jobs[j].runAt == db.jobs[j].runAt)
  {
    KeepsItsDueTime(db, j, now);
    hide RunArchiveRead, RunDeliver, Recount;
  }

  lemma KeepsItsDueTime(db: Db, j: JobId, now: Time)
    requires j in db.jobs && db.jobs[j].work.ArchiveRead?
    ensures
      var db' := RunArchiveRead(db, j, now);
      j in db'.jobs ==> db'.jobs[j].work.ArchiveRead? && db'.jobs[j].runAt == db.jobs[j].runAt
  {
    hide ArchiveScan, ArchiveReadRows, ArchiveReadBroadcasts, SameRowFrame;
  }

  lemma {:induction false} ClaimsAreADrain(db: Db, j: JobId, times: seq<Time>, due: Time)
    requires RowsHaveCounters(db) && (j in db.jobs ==> db.jobs[j].work.ArchiveRead? && db.jobs[j].runAt <= due)
    requires forall t | t in times :: due <= t
    ensures ClaimedAt(db, j, times) == Drain(db, j, times)
    decreases |times|
  {
    hide RunArchiveRead, Apply;
    if j !in db.jobs {
      GoneForGood(db, j, times);
    } else if times != [] {
      assert times[0] in times && forall t | t in times[1..] :: t in times;
      DueClaim(db, j, times[0]);
      ClaimsAreADrain(RunArchiveRead(db, j, times[0]), j, times[1..], due);
    }
  }

  /** What a request leaves behind, as far as the job is concerned. */
  lemma RequestedJob(db: Db, ev: Event)
    requires RowsHaveCounters(db) && ev.op.ArchiveReadItems? && ev.op.s in db.counters
    ensures
      var db1 := Apply(db, ev);
      && db1 == db.(jobs := db1.jobs) && ev.op.job in db1.jobs && db1.jobs[ev.op.job].runAt <= ev.begin
      && db1.jobs[ev.op.job].work == ArchiveRead(ev.op.s, ev.clock, DirectPhase, FIRST_KEY)
  {
  }

  /** The pass a job does is one over the tables as the request found them. */
  lemma SamePass(db: Db, db1: Db, done: Db, s: SubId, asOf: Time)
    requires RowsHaveCounters(db) && s in db.subscribers && db1 == db.(jobs := db1.jobs)
    requires Finished(db1, done, s, asOf)
    ensures Finished(db, done, s, asOf)
  {
    assert OnePass(db1, s, asOf) == OnePass(db, s, asOf);
    hide EffectivelyRead, EffectivelyArchived, EffectiveFlag, NextItem, NextBroadcast;
    forall id | id in db.notifications ensures ItemAt(db1, id) == ItemAt(db, id) {
    }
    forall t, b | t in db.counters && b in db.broadcasts ensures BroadcastAt(db1, t, b) == BroadcastAt(db, t, b) {
    }
    hide OnePass;
  }

  /**
   From the request on: whenever the worker comes for the job at or after the request's
   `now()`, exactly as many claims as the scans have chunks of 500, and one more for each,
   end it, and every read item of the subscriber that existed at the clock read under the
   lock is archived, and nothing else.
   */
  lemma RequestIsOnePass(db: Db, ev: Event, times: seq<Time>)
    requires RowsHaveCounters(db) && BroadcastsOk(db) && ev.op.ArchiveReadItems? && FreshJob(db, ev.op.job)
    requires ev.op.s in db.counters && ev.op.s in db.subscribers
    requires forall t | t in times :: ev.begin <= t
    requires |times| == |ArchiveDirectScan(db, ev.op.s, FIRST_KEY, ev.clock)| / 500
                      + |ArchiveBroadcastScan(db, ev.op.s, FIRST_KEY, ev.clock)| / 500 + 2
    ensures
      var done := ClaimedAt(Apply(db, ev), ev.op.job, times);
      && ev.op.job !in done.jobs && Finished(db, done, ev.op.s, ev.clock) && done.counters == db.counters
  {
    hide Apply, Drain, ClaimedAt, Finished, ArchiveDirectScan, ArchiveBroadcastScan;
    var db1 := Apply(db, ev);
    RequestedJob(db, ev);
    SameScans(db, db1, ev.op.s, ev.clock);
    ArchiveReadIsOnePass(db1, ev.op.job, ev.op.s, ev.clock, times);
    ClaimsAreADrain(db1, ev.op.job, times, ev.begin);
    SamePass(db, db1, Drain(db1, ev.op.job, times), ev.op.s, ev.clock);
  }

  lemma SameScans(db: Db, db1: Db, s: SubId, asOf: Time)
    requires db1 == db.(jobs := db1.jobs) && s in db.subscribers
    ensures ArchiveDirectScan(db1, s, FIRST_KEY, asOf) == ArchiveDirectScan(db, s, FIRST_KEY, asOf)
    ensures ArchiveBroadcastScan(db1, s, FIRST_KEY, asOf) == ArchiveBroadcastScan(db, s, FIRST_KEY, asOf)
  {
  }
}
