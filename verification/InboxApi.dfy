/**
 The subscriber plane's transactions, statement by statement. Each repeats its own
 version of "was this row counted?", in its own columns; the contracts say that all
 of them are the one step function of the model.
 */
module InboxApi {
  import opened Wrappers
  import opened InboxState
  import opened InboxSteps
  import opened Database

  function IntOf(b: bool): int {
    if b then 1 else 0
  }

  /** The tables after one row and one count are written. */
  function Wrote(db: Db, s: SubId, id: NotifId, row: Row, unread: int): Db
    requires s in db.counters
  {
    db.(notifications := db.notifications[id := row], counters := db.counters[s := db.counters[s].(unread := unread)])
  }

  /** Each handler's guard, in its own columns, is the change of the one counted predicate. */
  lemma ReadFlip(db: Db, s: SubId, id: NotifId, now: Time)
    requires VisibleTo(db, s, id, now) && db.notifications[id].readAt.None? && 0 <= db.counters[s].unread
    ensures
      var row, c := db.notifications[id], db.counters[s];
      var counted :=
        && (row.visibleAt > c.readWatermark || row.unreadAt.Some?) && !Pending(db, id)
        && !(row.archivedAt.Some? || (!row.unarchivedAt.Some? && row.visibleAt <= c.archiveWatermark))
        && !Muted(db.preferences, s, row.category);
      FlipItem(db, s, id, FlipRead, now)
        == Wrote(db, s, id, row.(readAt := Some(now), unreadAt := None), Greatest(0, c.unread - IntOf(counted)))
  {
    hide Pending, Muted;
  }

  lemma UnreadFlip(db: Db, s: SubId, id: NotifId, now: Time)
    requires VisibleTo(db, s, id, now) && EffectivelyRead(db.notifications[id], db.counters[s].readWatermark)
    ensures
      var row, c := db.notifications[id], db.counters[s];
      var counted :=
        && !Pending(db, id)
        && !(row.archivedAt.Some? || (!row.unarchivedAt.Some? && row.visibleAt <= c.archiveWatermark))
        && !Muted(db.preferences, s, row.category);
      FlipItem(db, s, id, FlipUnread, now)
        == Wrote(db, s, id, row.(readAt := None, unreadAt := if row.visibleAt <= c.readWatermark then Some(now) else None),
                 c.unread + IntOf(counted))
  {
    hide Pending, Muted;
  }

  lemma ArchiveFlip(db: Db, s: SubId, id: NotifId, now: Time)
    requires VisibleTo(db, s, id, now) && 0 <= db.counters[s].unread
    requires !EffectivelyArchived(db.notifications[id], db.counters[s].archiveWatermark)
    ensures
      var row, c := db.notifications[id], db.counters[s];
      var counted :=
        && row.readAt.None? && (row.unreadAt.Some? || row.visibleAt > c.readWatermark)
        && !Pending(db, id) && !Muted(db.preferences, s, row.category);
      FlipItem(db, s, id, FlipArchive, now)
        == Wrote(db, s, id, row.(archivedAt := Some(now), unarchivedAt := None), Greatest(0, c.unread - IntOf(counted)))
  {
    hide Pending, Muted;
  }

  lemma UnarchiveFlip(db: Db, s: SubId, id: NotifId, now: Time)
    requires VisibleTo(db, s, id, now)
    requires EffectivelyArchived(db.notifications[id], db.counters[s].archiveWatermark)
    ensures
      var row, c := db.notifications[id], db.counters[s];
      var counted :=
        && row.readAt.None? && (row.unreadAt.Some? || row.visibleAt > c.readWatermark)
        && !Pending(db, id) && !Muted(db.preferences, s, row.category);
      FlipItem(db, s, id, FlipUnarchive, now)
        == Wrote(db, s, id,
                 row.(archivedAt := None, unarchivedAt := if row.visibleAt <= c.archiveWatermark then Some(now) else None),
                 c.unread + IntOf(counted))
  {
    hide Pending, Muted;
  }

  lemma InvisibleItem(db: Db, s: SubId, id: NotifId, flip: Flip, now: Time)
    requires !VisibleTo(db, s, id, now)
    ensures FlipItem(db, s, id, flip, now) == db
  {
  }

  /** A flip that finds the item already as asked changes nothing. */
  lemma UnflippedItem(db: Db, s: SubId, id: NotifId, flip: Flip, now: Time)
    requires VisibleTo(db, s, id, now)
    requires
      var row, c := db.notifications[id], db.counters[s];
      match flip
      case FlipRead => row.readAt.Some?
      case FlipUnread => !EffectivelyRead(row, c.readWatermark)
      case FlipArchive => EffectivelyArchived(row, c.archiveWatermark)
      case FlipUnarchive => !EffectivelyArchived(row, c.archiveWatermark)
    ensures FlipItem(db, s, id, flip, now) == db
  {
  }

  method MarkNotificationRead(t: Tables, s: SubId, id: NotifId, now: Time) returns (reply: Reply)
    requires t.Valid()
    modifies t
    ensures t.Valid() && t.State() == FlipItem(old(t.State()), s, id, FlipRead, now)
    ensures reply == if s !in old(t.counters) then Failed
                     else if VisibleTo(old(t.State()), s, id, now) then NoContent else NotFound
    ensures reply != NoContent ==> t.State() == old(t.State())
  {
    hide FlipItem, FlipRow, OwnedIn, Muted, CursorsInRange, Quiet;
    if s !in t.counters {
      InvisibleItem(t.State(), s, id, FlipRead, now);
      return Failed;
    }
    if id !in t.notifications || t.notifications[id].subscriber != s || t.notifications[id].visibleAt > now {
      InvisibleItem(t.State(), s, id, FlipRead, now);
      return NotFound;
    }
    assert 0 <= t.counters[s].unread;
    hide Tables.Valid;
    var row := t.notifications[id];
    if row.readAt.None? {
      ReadFlip(t.State(), s, id, now);
      t.UpdateRow(id, row.(readAt := Some(now), unreadAt := None));
      var pending := t.PendingDeliver(id);
      var c := t.counters[s];
      var counted :=
        && (row.visibleAt > c.readWatermark || row.unreadAt.Some?) && !pending
        && !(row.archivedAt.Some? || (!row.unarchivedAt.Some? && row.visibleAt <= c.archiveWatermark))
        && !Muted(t.preferences, s, row.category);
      t.UpdateUnread(s, Greatest(0, c.unread - IntOf(counted)));
    } else {
      UnflippedItem(t.State(), s, id, FlipRead, now);
    }
    return NoContent;
  }

  method MarkNotificationUnread(t: Tables, s: SubId, id: NotifId, now: Time) returns (reply: Reply)
    requires t.Valid()
    modifies t
    ensures t.Valid() && t.State() == FlipItem(old(t.State()), s, id, FlipUnread, now)
    ensures reply == if s !in old(t.counters) then Failed
                     else if VisibleTo(old(t.State()), s, id, now) then NoContent else NotFound
    ensures reply != NoContent ==> t.State() == old(t.State())
  {
    hide FlipItem, FlipRow, OwnedIn, Muted, CursorsInRange, SameSchedules;
    if s !in t.counters {
      InvisibleItem(t.State(), s, id, FlipUnread, now);
      return Failed;
    }
    var watermark := t.counters[s].readWatermark;
    if id !in t.notifications || t.notifications[id].subscriber != s || t.notifications[id].visibleAt > now {
      InvisibleItem(t.State(), s, id, FlipUnread, now);
      return NotFound;
    }
    assert 0 <= t.counters[s].unread;
    hide Tables.Valid;
    var row := t.notifications[id];
    var effectivelyRead := row.readAt.Some? || (row.unreadAt.None? && row.visibleAt <= watermark);
    if effectivelyRead {
      UnreadFlip(t.State(), s, id, now);
      var needsOverride := row.visibleAt <= watermark;
      var unreadAt := if needsOverride then Some(now) else None;
      t.UpdateRow(id, row.(readAt := None, unreadAt := unreadAt));
      var pending := t.PendingDeliver(id);
      var c := t.counters[s];
      var counted :=
        && !pending
        && !(row.archivedAt.Some? || (!row.unarchivedAt.Some? && row.visibleAt <= c.archiveWatermark))
        && !Muted(t.preferences, s, row.category);
      t.UpdateUnread(s, c.unread + IntOf(counted));
    } else {
      UnflippedItem(t.State(), s, id, FlipUnread, now);
    }
    return NoContent;
  }

  method ArchiveNotification(t: Tables, s: SubId, id: NotifId, now: Time) returns (reply: Reply)
    requires t.Valid()
    modifies t
    ensures t.Valid() && t.State() == FlipItem(old(t.State()), s, id, FlipArchive, now)
    ensures reply == if s !in old(t.counters) then Failed
                     else if VisibleTo(old(t.State()), s, id, now) then NoContent else NotFound
    ensures reply != NoContent ==> t.State() == old(t.State())
  {
    hide FlipItem, FlipRow, OwnedIn, Muted, CursorsInRange;
    if s !in t.counters {
      InvisibleItem(t.State(), s, id, FlipArchive, now);
      return Failed;
    }
    var watermark := t.counters[s].archiveWatermark;
    if id !in t.notifications || t.notifications[id].subscriber != s || t.notifications[id].visibleAt > now {
      InvisibleItem(t.State(), s, id, FlipArchive, now);
      return NotFound;
    }
    assert 0 <= t.counters[s].unread;
    hide Tables.Valid;
    var row := t.notifications[id];
    var effectivelyArchived := row.archivedAt.Some? || (row.unarchivedAt.None? && row.visibleAt <= watermark);
    if !effectivelyArchived {
      ArchiveFlip(t.State(), s, id, now);
      t.UpdateRow(id, row.(archivedAt := Some(now), unarchivedAt := None));
      var pending := t.PendingDeliver(id);
      var c := t.counters[s];
      var counted :=
        && row.readAt.None? && (row.unreadAt.Some? || row.visibleAt > c.readWatermark)
        && !pending && !Muted(t.preferences, s, row.category);
      t.UpdateUnread(s, Greatest(0, c.unread - IntOf(counted)));
    } else {
      UnflippedItem(t.State(), s, id, FlipArchive, now);
    }
    return NoContent;
  }

  method UnarchiveNotification(t: Tables, s: SubId, id: NotifId, now: Time) returns (reply: Reply)
    requires t.Valid()
    modifies t
    ensures t.Valid() && t.State() == FlipItem(old(t.State()), s, id, FlipUnarchive, now)
    ensures reply == if s !in old(t.counters) then Failed
                     else if VisibleTo(old(t.State()), s, id, now) then NoContent else NotFound
    ensures reply != NoContent ==> t.State() == old(t.State())
  {
    hide FlipItem, FlipRow, OwnedIn, Muted, CursorsInRange, Quiet;
    if s !in t.counters {
      InvisibleItem(t.State(), s, id, FlipUnarchive, now);
      return Failed;
    }
    var watermark := t.counters[s].archiveWatermark;
    if id !in t.notifications || t.notifications[id].subscriber != s || t.notifications[id].visibleAt > now {
      InvisibleItem(t.State(), s, id, FlipUnarchive, now);
      return NotFound;
    }
    assert 0 <= t.counters[s].unread;
    hide Tables.Valid;
    var row := t.notifications[id];
    var effectivelyArchived := row.archivedAt.Some? || (row.unarchivedAt.None? && row.visibleAt <= watermark);
    if effectivelyArchived {
      UnarchiveFlip(t.State(), s, id, now);
      var needsOverride := row.visibleAt <= watermark;
      var unarchivedAt := if needsOverride then Some(now) else None;
      t.UpdateRow(id, row.(archivedAt := None, unarchivedAt := unarchivedAt));
      var pending := t.PendingDeliver(id);
      var c := t.counters[s];
      var counted :=
        && row.readAt.None? && (row.unreadAt.Some? || row.visibleAt > c.readWatermark)
        && !pending && !Muted(t.preferences, s, row.category);
      t.UpdateUnread(s, c.unread + IntOf(counted));
    } else {
      UnflippedItem(t.State(), s, id, FlipUnarchive, now);
    }
    return NoContent;
  }

  // ---------------------------------------------------------------- broadcast flips

  method MarkBroadcastRead(t: Tables, s: SubId, b: BroadcastId) returns (reply: Reply)
    requires t.Valid()
    modifies t
    ensures t.Valid() && t.State() == FlipBroadcast(old(t.State()), s, b, FlipRead)
    ensures reply == if s !in old(t.counters) || s !in old(t.subscribers) then Failed
                     else if BroadcastVisibleTo(old(t.State()), s, b) then NoContent else NotFound
    ensures reply != NoContent ==> t.State() == old(t.State())
  {
    if s !in t.counters || s !in t.subscribers {
      return Failed;
    }
    var watermark := t.counters[s].readWatermark;
    if b !in t.broadcasts || t.broadcasts[b].createdAt < t.subscribers[s] {
      return NotFound;
    }
    var createdAt := t.broadcasts[b].createdAt;
    t.broadcastReads := if createdAt > watermark then InsertOverride(t.broadcastReads, s, b, createdAt, true)
                        else DeleteOverride(t.broadcastReads, s, b, false);
    return NoContent;
  }

  method MarkBroadcastUnread(t: Tables, s: SubId, b: BroadcastId) returns (reply: Reply)
    requires t.Valid()
    modifies t
    ensures t.Valid() && t.State() == FlipBroadcast(old(t.State()), s, b, FlipUnread)
    ensures reply == if s !in old(t.counters) || s !in old(t.subscribers) then Failed
                     else if BroadcastVisibleTo(old(t.State()), s, b) then NoContent else NotFound
    ensures reply != NoContent ==> t.State() == old(t.State())
  {
    if s !in t.counters || s !in t.subscribers {
      return Failed;
    }
    var watermark := t.counters[s].readWatermark;
    if b !in t.broadcasts || t.broadcasts[b].createdAt < t.subscribers[s] {
      return NotFound;
    }
    var createdAt := t.broadcasts[b].createdAt;
    t.broadcastReads := if createdAt > watermark then DeleteOverride(t.broadcastReads, s, b, true)
                        else InsertOverride(t.broadcastReads, s, b, createdAt, false);
    return NoContent;
  }

  method ArchiveBroadcast(t: Tables, s: SubId, b: BroadcastId) returns (reply: Reply)
    requires t.Valid()
    modifies t
    ensures t.Valid() && t.State() == FlipBroadcast(old(t.State()), s, b, FlipArchive)
    ensures reply == if s !in old(t.counters) || s !in old(t.subscribers) then Failed
                     else if BroadcastVisibleTo(old(t.State()), s, b) then NoContent else NotFound
    ensures reply != NoContent ==> t.State() == old(t.State())
  {
    if s !in t.counters || s !in t.subscribers {
      return Failed;
    }
    var watermark := t.counters[s].archiveWatermark;
    if b !in t.broadcasts || t.broadcasts[b].createdAt < t.subscribers[s] {
      return NotFound;
    }
    var createdAt := t.broadcasts[b].createdAt;
    t.broadcastArchives := if createdAt > watermark then InsertOverride(t.broadcastArchives, s, b, createdAt, true)
                           else DeleteOverride(t.broadcastArchives, s, b, false);
    return NoContent;
  }

  method UnarchiveBroadcast(t: Tables, s: SubId, b: BroadcastId) returns (reply: Reply)
    requires t.Valid()
    modifies t
    ensures t.Valid() && t.State() == FlipBroadcast(old(t.State()), s, b, FlipUnarchive)
    ensures reply == if s !in old(t.counters) || s !in old(t.subscribers) then Failed
                     else if BroadcastVisibleTo(old(t.State()), s, b) then NoContent else NotFound
    ensures reply != NoContent ==> t.State() == old(t.State())
  {
    if s !in t.counters || s !in t.subscribers {
      return Failed;
    }
    var watermark := t.counters[s].archiveWatermark;
    if b !in t.broadcasts || t.broadcasts[b].createdAt < t.subscribers[s] {
      return NotFound;
    }
    var createdAt := t.broadcasts[b].createdAt;
    t.broadcastArchives := if createdAt > watermark then DeleteOverride(t.broadcastArchives, s, b, true)
                           else InsertOverride(t.broadcastArchives, s, b, createdAt, false);
    return NoContent;
  }

  /** `INSERT ... ON CONFLICT DO UPDATE SET flag = v WHERE flag = NOT v`. */
  function InsertOverride(overrides: map<(SubId, BroadcastId), Override>, s: SubId, b: BroadcastId,
                          createdAt: Time, flag: bool): (r: map<(SubId, BroadcastId), Override>)
    ensures r == overrides[(s, b) := Upserted(overrides, s, b, createdAt, flag)]
  {
    if (s, b) !in overrides then overrides[(s, b) := Override(createdAt, flag)]
    else if overrides[(s, b)].flag != flag then overrides[(s, b) := overrides[(s, b)].(flag := flag)]
    else overrides
  }

  /** `DELETE ... WHERE flag = v`. */
  function DeleteOverride(overrides: map<(SubId, BroadcastId), Override>, s: SubId, b: BroadcastId, flag: bool)
    : map<(SubId, BroadcastId), Override>
  {
    if (s, b) in overrides && overrides[(s, b)].flag == flag then overrides - {(s, b)} else overrides
  }

  // ---------------------------------------------------------------- watermark moves

  method MarkAllRead(t: Tables, s: SubId, clock: Time) returns (reply: Reply)
    requires t.Valid()
    modifies t
    ensures t.Valid() && t.State() == ReadAll(old(t.State()), s, clock)
    ensures reply == if s in old(t.State()).counters then Okay else Failed
    ensures reply == Failed ==> t.State() == old(t.State())
  {
    hide WithoutExceptions, UnreadOverridesDropped, WithoutUnreadOverrides;
    if s !in t.counters {
      return Failed;
    }
    UnseenIsNatural(t, s);
    hide Tables.Valid;
    var watermark := clock;
    t.UpdateCounter(s, t.counters[s].(readWatermark := watermark, unread := 0));
    t.broadcastReads := WithoutExceptions(t.broadcastReads, s, watermark);
    t.UpdateRows(UnreadOverridesDropped(t.notifications, s, watermark));
    return Okay;
  }

  lemma UnseenIsNatural(t: Tables, s: SubId)
    requires t.Valid() && s in t.counters
    ensures 0 <= t.counters[s].unread && 0 <= t.counters[s].unseen
  {
  }

  /** The statement touches only rows that have an override to drop. */
  function UnreadOverridesDropped(rows: map<NotifId, Row>, s: SubId, watermark: Time): (rows': map<NotifId, Row>)
    ensures rows' == WithoutUnreadOverrides(rows, s, watermark) && SameOwners(rows, rows')
  {
    map id | id in rows ::
      var row := rows[id];
      if row.subscriber == s && row.unreadAt.Some? && row.visibleAt <= watermark then row.(unreadAt := None) else row
  }

  function ArchiveOverridesDropped(rows: map<NotifId, Row>, s: SubId, watermark: Time): (rows': map<NotifId, Row>)
    ensures rows' == WithoutArchiveOverrides(rows, s, watermark) && SameOwners(rows, rows')
  {
    map id | id in rows ::
      var row := rows[id];
      if row.subscriber == s && (row.archivedAt.Some? || row.unarchivedAt.Some?) && row.visibleAt <= watermark
      then row.(archivedAt := None, unarchivedAt := None) else row
  }

  method MarkAllSeen(t: Tables, s: SubId, clock: Time) returns (reply: Reply)
    requires t.Valid()
    modifies t
    ensures t.Valid() && t.State() == SeenAll(old(t.State()), s, clock)
    ensures reply == if s in old(t.State()).counters then Okay else Failed
    ensures reply == Failed ==> t.State() == old(t.State())
  {
    if s !in t.counters {
      return Failed;
    }
    t.counters := t.counters[s := t.counters[s].(seenWatermark := clock, unseen := 0)];
    return Okay;
  }

  method ArchiveAllItems(t: Tables, s: SubId, clock: Time) returns (reply: Reply)
    requires t.Valid()
    modifies t
    ensures t.Valid() && t.State() == ArchiveAll(old(t.State()), s, clock)
    ensures reply == if s in old(t.State()).counters then Okay else Failed
    ensures reply == Failed ==> t.State() == old(t.State())
  {
    hide WithoutExceptions, ArchiveOverridesDropped, WithoutArchiveOverrides;
    if s !in t.counters {
      return Failed;
    }
    UnseenIsNatural(t, s);
    hide Tables.Valid;
    var watermark := clock;
    t.UpdateCounter(s, t.counters[s].(archiveWatermark := watermark, unread := 0));
    t.UpdateRows(ArchiveOverridesDropped(t.notifications, s, watermark));
    t.broadcastArchives := WithoutExceptions(t.broadcastArchives, s, watermark);
    return Okay;
  }

  /** `archive_read`: only the job is written; the horizon is the clock under the lock. */
  method ArchiveReadItems(t: Tables, s: SubId, job: JobId, now: Time, clock: Time) returns (reply: Reply)
    requires t.Valid()
    modifies t
    ensures t.Valid() && t.State() == RequestArchiveRead(old(t.State()), s, job, now, clock)
    ensures reply == if s in old(t.State()).counters then Accepted else Failed
    ensures reply == Failed ==> t.State() == old(t.State())
  {
    if s !in t.counters {
      return Failed;
    }
    t.jobs := t.jobs[job := Job(ArchiveRead(s, clock, DirectPhase, FIRST_KEY), now, 0, MAX_ATTEMPTS)];
    return Accepted;
  }
}
