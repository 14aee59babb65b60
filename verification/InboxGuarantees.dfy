/**
 What the run theorem means for a reader of the counters, and where the unrestricted
 claim stops being true.
 */
module InboxGuarantees {
  import opened Wrappers
  import opened InboxState
  import opened InboxSteps
  import opened Seqs
  import opened InboxInvariant
  import opened WorkerInvariant
  import opened InboxRuns
  import opened NaiveInbox
  import opened InboxRefinement
  import InboxApi
  import Sets

  predicate NothingParked(db: Db, s: SubId) {
    forall id | id in db.notifications && db.notifications[id].subscriber == s :: !Parked(db, id)
  }

  /**
   Read without the bookkeeping: with no recount owed, no parked deliver job and no
   past accident, the maintained counters are what the code's own recount would
   compute now, so recounting changes nothing at all.
   */
  lemma RecountWouldChangeNothing(evs: seq<Event>, s: SubId, now: Time)
    requires IsRun(evs) && ClockAfter(evs) <= now
    requires s in After(evs).counters && (s, UnreadCount) !in Dirty(evs) && (s, UnseenCount) !in Dirty(evs)
    requires !Stale(After(evs), s) && NothingParked(After(evs), s)
    ensures Recount(After(evs), s, now) == After(evs)
  {
    hide After, Enabled;
    var db := After(evs);
    CountersAreExact(evs);
    assert Timely(db, ClockAfter(evs));
    forall id | id in db.notifications && db.notifications[id].subscriber == s
      ensures Owned(db, id) == Pending(db, id)
      ensures !Owned(db, id) ==> db.notifications[id].visibleAt <= now
    {
    }
    assert UnreadRows(db, s) == RecountedUnread(db, s, now);
    assert UnseenRows(db, s) == RecountedUnseen(db, s, now);
    assert db.counters[s := db.counters[s]] == db.counters;
  }

  // ---------------------------------------------------------------- repeating and undoing

  /** A flip done again, then or later, does nothing: neither to the rows nor to the count. */
  lemma RepeatedFlipDoesNothing(db: Db, s: SubId, id: NotifId, flip: Flip, now: Time, later: Time)
    requires VisibleTo(db, s, id, now) && now <= later
    ensures FlipItem(FlipItem(db, s, id, flip, now), s, id, flip, later) == FlipItem(db, s, id, flip, now)
  {
    hide CountsUnread, Pending;
    InboxApi.UnflippedItem(FlipItem(db, s, id, flip, now), s, id, flip, later);
  }

  function Opposite(flip: Flip): Flip {
    match flip
    case FlipRead => FlipUnread
    case FlipUnread => FlipRead
    case FlipArchive => FlipUnarchive
    case FlipUnarchive => FlipArchive
  }

  function FlagOf(item: Item, dimension: Dimension): bool {
    match dimension
    case ReadFlag => item.read
    case ArchivedFlag => item.archived
  }

  /** A flip that changed its item is undone by its opposite: every flag and every count as before. */
  lemma OppositeFlipRestores(db: Db, s: SubId, id: NotifId, flip: Flip, now: Time, later: Time)
    requires RowsHaveCounters(db) && VisibleTo(db, s, id, now) && now <= later
    requires FlagOf(ItemAt(db, id), DimensionOf(flip)) != ValueOf(flip)
    requires (if CountsUnread(db, db.notifications[id]) then 1 else 0) <= db.counters[s].unread
    ensures
      var db' := FlipItem(FlipItem(db, s, id, flip, now), s, id, Opposite(flip), later);
      && db'.counters == db.counters
      && forall x | x in db.notifications :: x in db'.notifications && ItemAt(db', x) == ItemAt(db, x)
  {
    hide FlipItem, CountsUnread, ItemAt, SameSchedules;
    var mid := FlipItem(db, s, id, flip, now);
    var db' := FlipItem(mid, s, id, Opposite(flip), later);
    FlipKeepsTheRest(db, s, id, flip, now, later);
    FlipKeepsTheRest(mid, s, id, Opposite(flip), later, later);
    forall x | x in db.notifications ensures ItemAt(db', x) == ItemAt(db, x) {
      FlipOneItem(db, s, id, flip, now, x);
      FlipOneItem(mid, s, id, Opposite(flip), later, x);
    }
    FlagsDecideTheCount(db, db', id);
    CountMovesBack(db, s, id, flip, now, later);
  }

  lemma FlipKeepsTheRest(db: Db, s: SubId, id: NotifId, flip: Flip, now: Time, later: Time)
    requires RowsHaveCounters(db) && VisibleTo(db, s, id, now) && now <= later
    ensures
      var db' := FlipItem(db, s, id, flip, now);
      && VisibleTo(db', s, id, later) && db'.preferences == db.preferences
      && db'.notifications.Keys == db.notifications.Keys
      && db'.notifications[id].category == db.notifications[id].category
  {
  }

  /** Whether a row counts is a matter of its flags and its mute. */
  lemma FlagsDecideTheCount(db: Db, db': Db, id: NotifId)
    requires id in db.notifications && db.notifications[id].subscriber in db.counters
    requires id in db'.notifications && db'.notifications[id].subscriber in db'.counters
    requires ItemAt(db', id) == ItemAt(db, id) && db'.preferences == db.preferences
    requires db'.notifications[id].category == db.notifications[id].category
    ensures CountsUnread(db', db'.notifications[id]) == CountsUnread(db, db.notifications[id])
  {
  }

  lemma CountMovesBack(db: Db, s: SubId, id: NotifId, flip: Flip, now: Time, later: Time)
    requires RowsHaveCounters(db) && VisibleTo(db, s, id, now) && now <= later
    requires (if CountsUnread(db, db.notifications[id]) then 1 else 0) <= db.counters[s].unread
    requires
      var db' := FlipItem(FlipItem(db, s, id, flip, now), s, id, Opposite(flip), later);
      && id in db'.notifications && db'.notifications[id].subscriber in db'.counters
      && CountsUnread(db', db'.notifications[id]) == CountsUnread(db, db.notifications[id])
    ensures FlipItem(FlipItem(db, s, id, flip, now), s, id, Opposite(flip), later).counters == db.counters
  {
    hide SameSchedules;
    var mid := FlipItem(db, s, id, flip, now);
    assert VisibleTo(mid, s, id, later);
    hide FlipRow, EffectivelyRead, EffectivelyArchived, OwnedIn, Muted, VisibleTo;
    var db' := FlipItem(mid, s, id, Opposite(flip), later);
    assert Pending(mid, id) == Pending(db, id);
    assert db'.counters[s] == db.counters[s];
  }

  // ---------------------------------------------------------------- creation

  /**
   What a create leaves behind for recipient `i`: its own row, unread and unarchived
   unless a watermark already covers it, invisible until it is due.
   */
  lemma CreatedNotification(db: Db, ev: Event, i: nat)
    requires RowsHaveCounters(db) && ev.op.CreateNotifications?
    requires CreateReady(db, ev.op.recipients, ev.op.ids, ev.op.job) && i < |ev.op.ids|
    ensures
      var db' := Apply(db, ev);
      var id, s, at := ev.op.ids[i], ev.op.recipients[i], if ev.op.deliverAt.Some? then ev.op.deliverAt.value else ev.begin;
      && id in db'.notifications && s in db'.counters
      && ItemAt(db', id) == Item(s, at, at <= db'.counters[s].readWatermark, at <= db'.counters[s].archiveWatermark)
      && db'.notifications[id].category == ev.op.category
      && forall now, t :: VisibleTo(db', t, id, now) <==> t == s && at <= now
  {
    hide Create, NewRow, ItemAt, VisibleTo;
    var CreateNotifications(recipients, ids, category, deliverAt, job) := ev.op;
    CreatedRow(db, recipients, ids, category, deliverAt, job, ev.begin, i);
    NewItem(Create(db, recipients, ids, category, deliverAt, job, ev.begin), recipients[i], ids[i], category, deliverAt, ev.begin);
  }

  lemma CreatedRow(db: Db, recipients: seq<SubId>, ids: seq<NotifId>, category: Category,
                   deliverAt: Option<Time>, job: JobId, begin: Time, i: nat)
    requires CreateReady(db, recipients, ids, job) && i < |ids|
    ensures
      var db' := Create(db, recipients, ids, category, deliverAt, job, begin);
      && ids[i] in db'.notifications && recipients[i] in db'.counters
      && db'.notifications[ids[i]] == NewRow(recipients[i], category, deliverAt, begin)
  {
    var enrolled := Enrol(db, (set s | s in recipients), begin);
    assert recipients[i] in (set s | s in recipients);
    assert ids[i] !in enrolled.notifications;
    NewRowAt(enrolled, recipients, ids, category, deliverAt, begin, i);
    CreateRowsFrame(enrolled, recipients, ids, category, deliverAt, job, begin);
    hide Enrol, CreateRows, WithNewRows, NewRow;
  }

  lemma NewItem(db: Db, s: SubId, id: NotifId, category: Category, deliverAt: Option<Time>, begin: Time)
    requires s in db.counters && id in db.notifications && db.notifications[id] == NewRow(s, category, deliverAt, begin)
    ensures
      var at := if deliverAt.Some? then deliverAt.value else begin;
      && ItemAt(db, id) == Item(s, at, at <= db.counters[s].readWatermark, at <= db.counters[s].archiveWatermark)
      && db.notifications[id].category == category
      && forall now, t :: VisibleTo(db, t, id, now) <==> t == s && at <= now
  {
  }

  lemma NewRowAt(db: Db, recipients: seq<SubId>, ids: seq<NotifId>, category: Category,
                 deliverAt: Option<Time>, begin: Time, i: nat)
    requires |ids| == |recipients| && Distinct(ids) && i < |ids| && ids[i] !in db.notifications
    ensures
      var db' := WithNewRows(db, recipients, ids, category, deliverAt, begin);
      && ids[i] in db'.notifications
      && db'.notifications[ids[i]] == NewRow(recipients[i], category, deliverAt, begin)
  {
    IndexIsUnique(ids, i);
  }

  lemma CreateRowsFrame(db: Db, recipients: seq<SubId>, ids: seq<NotifId>, category: Category,
                        deliverAt: Option<Time>, job: JobId, begin: Time)
    requires |ids| == |recipients|
    ensures
      var db' := CreateRows(db, recipients, ids, category, deliverAt, job, begin);
      && db'.notifications == WithNewRows(db, recipients, ids, category, deliverAt, begin).notifications
      && db'.counters.Keys == db.counters.Keys
  {
    hide Muted, IndexOf;
  }

  /** A new subscriber starts with nothing set and sees the broadcasts from its enrolment on; old ones stay as they are. */
  lemma EnrolledSubscriber(db: Db, subs: set<SubId>, begin: Time, s: SubId)
    requires s in subs
    ensures
      var db' := Enrol(db, subs, begin);
      && s in db'.subscribers && s in db'.counters
      && db'.subscribers[s] == (if s in db.subscribers then db.subscribers[s] else begin)
      && db'.counters[s] == (if s in db.counters then db.counters[s] else Counters(0, 0, EPOCH, EPOCH, EPOCH))
      && (s !in db.subscribers ==>
            forall b | b in db.broadcasts :: BroadcastVisibleTo(db', s, b) <==> begin <= db.broadcasts[b].createdAt)
  {
  }

  /** An imported subscriber may be dated back; one that is known keeps its date. */
  lemma ImportedSubscriber(db: Db, ev: Event)
    requires RowsHaveCounters(db) && ev.op.UpsertSubscriber?
    ensures
      var s, db' := ev.op.s, Apply(db, ev);
      && s in db'.subscribers
      && db'.subscribers[s] == (if s in db.subscribers then db.subscribers[s] else ev.op.createdAt)
      && (forall t | t in db.subscribers :: t in db'.subscribers && db'.subscribers[t] == db.subscribers[t])
  {
  }

  /** A broadcast belongs to everybody enrolled by then, unread and unarchived but for a watermark past it. */
  lemma CreatedBroadcast(db: Db, ev: Event, s: SubId)
    requires RowsHaveCounters(db) && BroadcastsOk(db)
    requires ev.op.NewBroadcast? && ev.op.b !in db.broadcasts && s in db.counters && s in db.subscribers
    ensures
      var b, at, db' := ev.op.b, ev.begin, Apply(db, ev);
      && b in db'.broadcasts && db'.broadcasts[b].category == ev.op.category
      && BroadcastAt(db', s, b) == Item(s, at, at <= db.counters[s].readWatermark, at <= db.counters[s].archiveWatermark)
      && (BroadcastVisibleTo(db', s, b) <==> db.subscribers[s] <= at)
  {
  }

  // ---------------------------------------------------------------- what a watermark makes redundant

  /** After read-all no unread override and no exception is left at or below the new watermark. */
  lemma ReadAllLeavesNoOverrides(db: Db, s: SubId, clock: Time)
    requires s in db.counters
    ensures
      var db' := ReadAll(db, s, clock);
      && (forall id | id in db'.notifications && db'.notifications[id].subscriber == s && db'.notifications[id].visibleAt <= clock ::
            db'.notifications[id].unreadAt.None? && db'.notifications[id].readAt == db.notifications[id].readAt)
      && (forall k | k in db'.broadcastReads :: k.0 != s || db'.broadcastReads[k].createdAt > clock)
      && (forall id | id in db.notifications && (db.notifications[id].subscriber != s || db.notifications[id].visibleAt > clock) ::
            db'.notifications[id] == db.notifications[id])
      && (forall k | k in db.broadcastReads && (k.0 != s || db.broadcastReads[k].createdAt > clock) ::
            k in db'.broadcastReads && db'.broadcastReads[k] == db.broadcastReads[k])
  {
  }

  lemma ArchiveAllLeavesNoOverrides(db: Db, s: SubId, clock: Time)
    requires s in db.counters
    ensures
      var db' := ArchiveAll(db, s, clock);
      && (forall id | id in db'.notifications && db'.notifications[id].subscriber == s && db'.notifications[id].visibleAt <= clock ::
            db'.notifications[id].archivedAt.None? && db'.notifications[id].unarchivedAt.None?)
      && (forall k | k in db'.broadcastArchives :: k.0 != s || db'.broadcastArchives[k].createdAt > clock)
      && (forall id | id in db.notifications && (db.notifications[id].subscriber != s || db.notifications[id].visibleAt > clock) ::
            db'.notifications[id] == db.notifications[id])
      && (forall k | k in db.broadcastArchives && (k.0 != s || db.broadcastArchives[k].createdAt > clock) ::
            k in db'.broadcastArchives && db'.broadcastArchives[k] == db.broadcastArchives[k])
  {
  }

  // ---------------------------------------------------------------- moving

  function RowsOf(db: Db, s: SubId): set<NotifId> {
    set id | id in db.notifications && db.notifications[id].subscriber == s
  }

  /** The rows a served request moves: named, the source's, visible, and with no queued bump to come. */
  function ToMove(db: Db, src: SubId, ids: seq<NotifId>, begin: Time): set<NotifId> {
    set id | id in ids && id in db.notifications && db.notifications[id].subscriber == src
             && db.notifications[id].visibleAt <= begin && !Pending(db, id)
  }

  /** A move hands exactly those rows over and loses none: the two inboxes together hold what they held. */
  lemma MoveConservesRows(db: Db, src: SubId, dst: SubId, ids: seq<NotifId>, begin: Time)
    requires RowsHaveCounters(db) && BroadcastsOk(db) && MoveHappens(db, src, dst, ids, begin)
    ensures
      var db' := Move(db, src, dst, ids, begin);
      && RowsOf(db', src) == RowsOf(db, src) - ToMove(db, src, ids, begin)
      && ToMove(db, src, ids, begin) <= RowsOf(db', dst)
      && RowsOf(db', src) + RowsOf(db', dst) == RowsOf(db, src) + RowsOf(db, dst)
      && |RowsOf(db', src)| + |RowsOf(db', dst)| == |RowsOf(db, src)| + |RowsOf(db, dst)|
      && forall t | t != src && t != dst :: RowsOf(db', t) == RowsOf(db, t)
  {
    assert ToMove(db, src, ids, begin) == MovedIds(db, src, ids, begin);
    hide Move, Moves, MoveHappens, BroadcastsOk;
    var moved := MovedIds(db, src, ids, begin);
    MoveRefines(db, src, dst, ids, begin);
    MovedComeFromTheSource(db, src, dst, ids, begin);
    HandedOver(db, Move(db, src, dst, ids, begin), src, dst, moved);
  }

  lemma HandedOver(db: Db, db': Db, src: SubId, dst: SubId, moved: set<NotifId>)
    requires RowsHaveCounters(db) && RowsHaveCounters(db') && Refines(db, db', HandOver(moved, dst))
    requires db'.notifications.Keys == db.notifications.Keys && src != dst && moved <= RowsOf(db, src)
    ensures RowsOf(db', src) == RowsOf(db, src) - moved && moved <= RowsOf(db', dst)
    ensures RowsOf(db', src) + RowsOf(db', dst) == RowsOf(db, src) + RowsOf(db, dst)
    ensures |RowsOf(db', src)| + |RowsOf(db', dst)| == |RowsOf(db, src)| + |RowsOf(db, dst)|
    ensures forall t | t != src && t != dst :: RowsOf(db', t) == RowsOf(db, t)
  {
    hide Refines, RowsHaveCounters;
    forall id | id in db.notifications
      ensures db'.notifications[id].subscriber == if id in moved then dst else db.notifications[id].subscriber
    {
      OwnerAfter(db, db', dst, moved, id);
    }
    var a, b := RowsOf(db, src), RowsOf(db, dst);
    assert RowsOf(db', src) == a - moved && RowsOf(db', dst) == b + moved && a !! b;
    hide RowsOf;
    Sets.DisjointUnion(a - moved, b + moved);
    Sets.DisjointUnion(a, b);
    assert (a - moved) + (b + moved) == a + b;
  }

  lemma OwnerAfter(db: Db, db': Db, dst: SubId, moved: set<NotifId>, id: NotifId)
    requires RowsHaveCounters(db) && RowsHaveCounters(db') && Refines(db, db', HandOver(moved, dst))
    requires id in db.notifications && id in db'.notifications
    ensures db'.notifications[id].subscriber == if id in moved then dst else db.notifications[id].subscriber
  {
    hide EffectivelyRead, EffectivelyArchived, BroadcastAt, NextBroadcast;
    assert ItemAt(db', id).subscriber == NextItem(id, ItemAt(db, id), HandOver(moved, dst)).subscriber;
  }

  lemma MovedComeFromTheSource(db: Db, src: SubId, dst: SubId, ids: seq<NotifId>, begin: Time)
    requires MoveHappens(db, src, dst, ids, begin)
    ensures src != dst
    ensures forall id | id in db.notifications && Moves(db, src, ids, id, begin) :: db.notifications[id].subscriber == src
  {
  }

  /** The target keeps every preference it had; the source's answer for the categories it had none for. */
  lemma MoveCopiesMutes(db: Db, src: SubId, dst: SubId, ids: seq<NotifId>, begin: Time, category: Category)
    requires RowsHaveCounters(db) && MoveHappens(db, src, dst, ids, begin)
    ensures
      var before, after := db.preferences, Move(db, src, dst, ids, begin).preferences;
      && Muted(after, dst, category) == (if (dst, category) in before then !before[(dst, category)]
                                         else Muted(before, src, category))
      && (forall k | k in before :: k in after && after[k] == before[k])
      && (forall k | k in after && k !in before :: k.0 == dst && (src, k.1) in before && after[k] == before[(src, k.1)])
  {
    MoveIsTwoRecounts(db, src, dst, ids, begin);
    hide Move, MoveHappens, MovedRows, Recount;
    MutesAreCopied(db.preferences, src, dst, category);
  }

  lemma MutesAreCopied(before: map<(SubId, Category), bool>, src: SubId, dst: SubId, category: Category)
    ensures
      var after := CopiedPreferences(before, src, dst);
      && Muted(after, dst, category) == (if (dst, category) in before then !before[(dst, category)]
                                         else Muted(before, src, category))
      && (forall k | k in before :: k in after && after[k] == before[k])
      && (forall k | k in after && k !in before :: k.0 == dst && (src, k.1) in before && after[k] == before[(src, k.1)])
  {
    var after := CopiedPreferences(before, src, dst);
    if (src, category) in before {
      var copied := map k | k in before && k.0 == src :: k.1 := before[k];
      assert category in copied;
      assert (dst, category) in after;
    }
  }

  // ---------------------------------------------------------------- the watermark's clock

  /** Rows a read-all at time `at` zeroes out of the counter without covering them. */
  ghost function Missed(db: Db, s: SubId, at: Time): set<NotifId>
    requires RowsHaveCounters(db) && s in db.counters
  {
    set id | id in db.notifications && db.notifications[id].subscriber == s && !Owned(db, id)
             && db.notifications[id].visibleAt > at && db.notifications[id].readAt.None?
             && !EffectivelyArchived(db.notifications[id], db.counters[s].archiveWatermark)
             && !Muted(db.preferences, s, db.notifications[id].category)
  }

  /** A read-all at any instant is right exactly when no unread row lies above that instant. */
  lemma ReadAllIsExactIff(db: Db, s: SubId, at: Time)
    requires RowsHaveCounters(db) && s in db.counters
    ensures
      var db' := ReadAll(db, s, at);
      db'.counters[s].unread == |UnreadRows(db', s)| <==> Missed(db, s, at) == {}
  {
    var db' := ReadAll(db, s, at);
    assert forall x :: Owned(db', x) == Owned(db, x);
    assert UnreadRows(db', s) == Missed(db, s, at);
  }

  /** Rows a seen-all at time `at` zeroes out without covering them. */
  ghost function MissedUnseen(db: Db, s: SubId, at: Time): set<NotifId>
    requires RowsHaveCounters(db) && s in db.counters
  {
    set id | id in db.notifications && db.notifications[id].subscriber == s && !Owned(db, id)
             && db.notifications[id].visibleAt > at && !Muted(db.preferences, s, db.notifications[id].category)
  }

  lemma SeenAllIsExactIff(db: Db, s: SubId, at: Time)
    requires RowsHaveCounters(db) && s in db.counters
    ensures
      var db' := SeenAll(db, s, at);
      db'.counters[s].unseen == |UnseenRows(db', s)| <==> MissedUnseen(db, s, at) == {}
  {
    var db' := SeenAll(db, s, at);
    assert forall x :: Owned(db', x) == Owned(db, x);
    assert UnseenRows(db', s) == MissedUnseen(db, s, at);
  }

  /** Rows an archive-all at time `at` zeroes out without covering them. */
  ghost function MissedUnarchived(db: Db, s: SubId, at: Time): set<NotifId>
    requires RowsHaveCounters(db) && s in db.counters
  {
    set id | id in db.notifications && db.notifications[id].subscriber == s && !Owned(db, id)
             && db.notifications[id].visibleAt > at && db.notifications[id].archivedAt.None?
             && !EffectivelyRead(db.notifications[id], db.counters[s].readWatermark)
             && !Muted(db.preferences, s, db.notifications[id].category)
  }

  lemma ArchiveAllIsExactIff(db: Db, s: SubId, at: Time)
    requires RowsHaveCounters(db) && s in db.counters
    ensures
      var db' := ArchiveAll(db, s, at);
      db'.counters[s].unread == |UnreadRows(db', s)| <==> MissedUnarchived(db, s, at) == {}
  {
    var db' := ArchiveAll(db, s, at);
    assert forall x :: Owned(db', x) == Owned(db, x);
    assert UnreadRows(db', s) == MissedUnarchived(db, s, at);
  }

  /** With the clock read under the lock nothing is ever missed. */
  lemma LockedClockMissesNothing(db: Db, s: SubId, clock: Time)
    requires WellFormed(db, clock) && s in db.counters
    ensures Missed(db, s, clock) == {} && MissedUnseen(db, s, clock) == {} && MissedUnarchived(db, s, clock) == {}
  {
  }

  /** One unread notification, created at time 5. */
  const ONE_ROW_DB := EMPTY_DB.(
    subscribers := map[0 := 0],
    counters := map[0 := FRESH_COUNTERS.(unread := 1, unseen := 1)],
    notifications := map[1 := NewRow(0, "c", None, 5)])

  lemma OneRowDbIsFine()
    ensures Inv(ONE_ROW_DB, 5, {}) && !Stale(ONE_ROW_DB, 0)
    ensures UnreadRows(ONE_ROW_DB, 0) == {1} && UnseenRows(ONE_ROW_DB, 0) == {1}
  {
    assert UnreadRows(ONE_ROW_DB, 0) == {1} && UnseenRows(ONE_ROW_DB, 0) == {1};
  }

  /**
   With `now()` pinned at BEGIN it would not do: a create that began later (at 5)
   but committed first is zeroed out of the counter by a read-all that began at 3,
   and stays unread.
   */
  lemma PinnedWatermarkLosesARow()
    ensures Inv(ONE_ROW_DB, 5, {}) && !Stale(ONE_ROW_DB, 0)
    ensures !Exact(ReadAll(ONE_ROW_DB, 0, 3), 0) && Exact(ReadAll(ONE_ROW_DB, 0, 5), 0)
  {
    OneRowDbIsFine();
    ReadAllIsExactIff(ONE_ROW_DB, 0, 3);
    assert 1 in Missed(ONE_ROW_DB, 0, 3);
    ReadAllCounts(ONE_ROW_DB, 0, 5, 0);
    assert UnseenRows(ReadAll(ONE_ROW_DB, 0, 5), 0) == {1};
  }
}
