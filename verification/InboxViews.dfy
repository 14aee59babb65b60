/**
 The list a subscriber sees and the numbers on the badge, which two different queries
 compute: the views are defined by the list query's conditions, the counts by the
 maintained counters plus two live broadcast terms.
 */
module InboxViews {
  import opened InboxState
  import opened InboxSteps
  import opened InboxInvariant
  import opened InboxRuns
  import opened InboxRefinement
  import opened InboxStory
  import opened Database
  import opened NaiveInbox
  import Sets

  datatype Filter = DefaultView | UnreadView | ArchivedView

  // ---------------------------------------------------------------- the list's two arms

  predicate PassesFilter(filter: Filter, read: bool, archived: bool) {
    && (filter == UnreadView ==> !read)
    && (if filter == ArchivedView then archived else !archived)
  }

  /** The direct arm of the list: visible, in the view, not muted. */
  predicate InDirectArm(db: Db, s: SubId, now: Time, filter: Filter, id: NotifId) {
    && id in db.notifications && s in db.counters
    && var row, c := db.notifications[id], db.counters[s];
       && row.subscriber == s && row.visibleAt <= now
       && PassesFilter(filter, EffectivelyRead(row, c.readWatermark), EffectivelyArchived(row, c.archiveWatermark))
       && !Muted(db.preferences, s, row.category)
  }

  /** The broadcast arm: since the subscriber joined, in the view, not muted. */
  predicate InBroadcastArm(db: Db, s: SubId, filter: Filter, b: BroadcastId) {
    && BroadcastVisibleTo(db, s, b)
    && PassesFilter(filter, BroadcastRead(db, s, b), BroadcastArchived(db, s, b))
    && !Muted(db.preferences, s, db.broadcasts[b].category)
  }

  function DirectArm(db: Db, s: SubId, now: Time, filter: Filter): set<NotifId> {
    set id | id in db.notifications && InDirectArm(db, s, now, filter, id)
  }

  function BroadcastArm(db: Db, s: SubId, filter: Filter): set<BroadcastId> {
    set b | b in db.broadcasts && InBroadcastArm(db, s, filter, b)
  }

  // ---------------------------------------------------------------- the counts query

  /** Broadcasts above the read watermark without an explicit read row. */
  function UnreadAboveMark(db: Db, s: SubId): set<BroadcastId>
    requires s in db.counters && s in db.subscribers
  {
    set b | b in db.broadcasts && db.broadcasts[b].createdAt >= db.subscribers[s]
            && db.broadcasts[b].createdAt > db.counters[s].readWatermark
            && !((s, b) in db.broadcastReads && db.broadcastReads[(s, b)].flag)
            && !BroadcastArchived(db, s, b) && !Muted(db.preferences, s, db.broadcasts[b].category)
  }

  /** Explicit unread rows at or below it, by the timestamp the row carries. */
  function UnreadByException(db: Db, s: SubId): set<BroadcastId>
    requires s in db.counters && s in db.subscribers
  {
    set b | b in db.broadcasts && (s, b) in db.broadcastReads && !db.broadcastReads[(s, b)].flag
            && db.broadcastReads[(s, b)].createdAt <= db.counters[s].readWatermark
            && db.broadcasts[b].createdAt >= db.subscribers[s]
            && !BroadcastArchived(db, s, b) && !Muted(db.preferences, s, db.broadcasts[b].category)
  }

  /** The unread half of `fetch_counts_for`. */
  function ServedUnread(db: Db, s: SubId): (n: int)
    requires s in db.counters && s in db.subscribers
    ensures 0 <= n
  {
    Greatest(0, db.counters[s].unread + |UnreadAboveMark(db, s)| + |UnreadByException(db, s)|)
  }

  /** Broadcasts since the subscriber joined, above the seen watermark; seen knows no exceptions. */
  function UnseenBroadcasts(db: Db, s: SubId): set<BroadcastId>
    requires s in db.counters && s in db.subscribers
  {
    set b | b in db.broadcasts && db.broadcasts[b].createdAt >= db.subscribers[s]
            && db.broadcasts[b].createdAt > db.counters[s].seenWatermark
            && !Muted(db.preferences, s, db.broadcasts[b].category)
  }

  /** The unseen half. */
  function ServedUnseen(db: Db, s: SubId): (n: int)
    requires s in db.counters && s in db.subscribers
    ensures 0 <= n
  {
    Greatest(0, db.counters[s].unseen + |UnseenBroadcasts(db, s)|)
  }

  // ---------------------------------------------------------------- they agree

  /** The two broadcast terms split the unread broadcasts of the list between them. */
  lemma BroadcastTermsAreTheArm(db: Db, s: SubId)
    requires s in db.counters && s in db.subscribers && OverridesMatch(db, db.broadcastReads)
    ensures UnreadAboveMark(db, s) !! UnreadByException(db, s)
    ensures UnreadAboveMark(db, s) + UnreadByException(db, s) == BroadcastArm(db, s, UnreadView)
  {
    forall b | b in db.broadcasts
      ensures b in UnreadAboveMark(db, s) || b in UnreadByException(db, s) <==> b in BroadcastArm(db, s, UnreadView)
      ensures b in UnreadAboveMark(db, s) ==> b !in UnreadByException(db, s)
    {
    }
  }

  /** The counter stands for the direct arm without the rows a deliver job still owns. */
  lemma CounterIsTheDirectArm(db: Db, s: SubId, now: Time)
    requires RowsHaveCounters(db) && s in db.counters && Timely(db, now)
    ensures UnreadRows(db, s) == set id | id in DirectArm(db, s, now, UnreadView) && !Owned(db, id)
  {
  }

  /**
   The badge agrees with the list: the number served is the size of the whole unread
   view, less the visible rows a deliver job has yet to count.
   */
  lemma ServedIsTheUnreadView(db: Db, s: SubId, now: Time)
    requires RowsHaveCounters(db) && s in db.counters && s in db.subscribers
    requires UnreadIsExact(db, s) && Timely(db, now) && OverridesMatch(db, db.broadcastReads)
    ensures
      var direct := DirectArm(db, s, now, UnreadView);
      var uncounted := set id | id in direct && Owned(db, id);
      ServedUnread(db, s) == |direct| - |uncounted| + |BroadcastArm(db, s, UnreadView)|
  {
    var direct := DirectArm(db, s, now, UnreadView);
    var uncounted := set id | id in direct && Owned(db, id);
    CounterIsTheDirectArm(db, s, now);
    assert direct - uncounted == UnreadRows(db, s);
    Sets.SubsetSize(uncounted, direct);
    BroadcastTermsAreTheArm(db, s);
    Sets.DisjointUnion(UnreadAboveMark(db, s), UnreadByException(db, s));
  }

  /** In every reachable state, for every subscriber whose counter the run theorem covers. */
  lemma BadgeAgreesWithTheList(evs: seq<Event>, s: SubId, now: Time)
    requires IsRun(evs) && ClockAfter(evs) <= now
    requires s in After(evs).counters && s in After(evs).subscribers
    requires (s, UnreadCount) !in Dirty(evs) && !Stale(After(evs), s)
    ensures
      var db := After(evs);
      var direct := DirectArm(db, s, now, UnreadView);
      var uncounted := set id | id in direct && Owned(db, id);
      ServedUnread(db, s) == |direct| - |uncounted| + |BroadcastArm(db, s, UnreadView)|
  {
    CountersAreExact(evs);
    TablesFollow(evs);
    LaterClock(After(evs), ClockAfter(evs), now);
    ServedIsTheUnreadView(After(evs), s, now);
  }

  /** The default and the archived view share the visible unmuted items between them. */
  lemma ViewsPartitionTheInbox(db: Db, s: SubId, now: Time)
    ensures DirectArm(db, s, now, DefaultView) !! DirectArm(db, s, now, ArchivedView)
    ensures BroadcastArm(db, s, DefaultView) !! BroadcastArm(db, s, ArchivedView)
    ensures DirectArm(db, s, now, UnreadView) <= DirectArm(db, s, now, DefaultView)
    ensures BroadcastArm(db, s, UnreadView) <= BroadcastArm(db, s, DefaultView)
    ensures forall id :: VisibleTo(db, s, id, now) && !Muted(db.preferences, s, db.notifications[id].category)
              <==> id in DirectArm(db, s, now, DefaultView) || id in DirectArm(db, s, now, ArchivedView)
    ensures forall b :: BroadcastVisibleTo(db, s, b) && !Muted(db.preferences, s, db.broadcasts[b].category)
              <==> b in BroadcastArm(db, s, DefaultView) || b in BroadcastArm(db, s, ArchivedView)
  {
  }

  /** Which items a view is for, by the two flags of the naive inbox. */
  predicate BelongsIn(filter: Filter, item: Item) {
    match filter
    case DefaultView => !item.archived
    case UnreadView => !item.archived && !item.read
    case ArchivedView => item.archived
  }

  /**
   The list against the naive inbox, after every run: a view holds exactly the subscriber's
   visible unmuted items whose story left them with the view's flags.
   */
  lemma ViewsFollowTheStory(evs: seq<Event>, s: SubId, now: Time, filter: Filter, id: NotifId)
    requires IsRun(evs) && id in After(evs).notifications
    ensures
      var db, item := After(evs), Story(evs, id);
      id in DirectArm(db, s, now, filter) <==>
        && item.subscriber == s && item.at <= now && BelongsIn(filter, item)
        && !Muted(db.preferences, s, db.notifications[id].category)
  {
    NotificationsFollowTheStory(evs, id);
    hide After, Story, IsRun, EffectivelyRead, EffectivelyArchived, Muted;
    assert After(evs).notifications[id].subscriber == ItemAt(After(evs), id).subscriber;
  }

  lemma BroadcastViewsFollowTheStory(evs: seq<Event>, s: SubId, filter: Filter, b: BroadcastId)
    requires IsRun(evs) && s in After(evs).counters && b in After(evs).broadcasts
    ensures
      var db, item := After(evs), BroadcastStory(evs, s, b);
      b in BroadcastArm(db, s, filter) <==>
        && s in db.subscribers && item.at >= db.subscribers[s] && BelongsIn(filter, item)
        && !Muted(db.preferences, s, db.broadcasts[b].category)
  {
    BroadcastsFollowTheStory(evs, s, b);
    hide After, BroadcastStory, IsRun, BroadcastRead, BroadcastArchived, Muted;
  }

  // ---------------------------------------------------------------- the unseen number

  /** The items of either view that arrived after the instant everything was last seen. */
  function DirectSince(db: Db, s: SubId, now: Time): set<NotifId>
    requires s in db.counters
  {
    set id | id in DirectArm(db, s, now, DefaultView) + DirectArm(db, s, now, ArchivedView)
             && db.notifications[id].visibleAt > db.counters[s].seenWatermark
  }

  function BroadcastsSince(db: Db, s: SubId): set<BroadcastId>
    requires s in db.counters
  {
    set b | b in BroadcastArm(db, s, DefaultView) + BroadcastArm(db, s, ArchivedView)
            && db.broadcasts[b].createdAt > db.counters[s].seenWatermark
  }

  lemma UnseenBroadcastsAreListed(db: Db, s: SubId)
    requires s in db.counters && s in db.subscribers
    ensures UnseenBroadcasts(db, s) == BroadcastsSince(db, s)
  {
    hide BroadcastRead, BroadcastArchived, Muted;
  }

  lemma UnseenRowsAreListed(db: Db, s: SubId, now: Time)
    requires RowsHaveCounters(db) && s in db.counters && Timely(db, now)
    ensures UnseenRows(db, s) == set id | id in DirectSince(db, s, now) && !Owned(db, id)
  {
    hide EffectivelyRead, EffectivelyArchived, Muted, Owned;
  }

  /**
   The unseen number against the list: every item of the two views that arrived after the
   seen watermark, archived or not, less the visible rows a deliver job has yet to count.
   */
  lemma ServedUnseenIsWhatArrived(db: Db, s: SubId, now: Time)
    requires RowsHaveCounters(db) && s in db.counters && s in db.subscribers
    requires UnseenIsExact(db, s) && Timely(db, now)
    ensures
      var direct := DirectSince(db, s, now);
      var uncounted := set id | id in direct && Owned(db, id);
      ServedUnseen(db, s) == |direct| - |uncounted| + |BroadcastsSince(db, s)|
  {
    var direct := DirectSince(db, s, now);
    var uncounted := set id | id in direct && Owned(db, id);
    UnseenRowsAreListed(db, s, now);
    UnseenBroadcastsAreListed(db, s);
    hide DirectSince, UnseenRows, UnseenBroadcasts, BroadcastsSince, Owned;
    assert direct - uncounted == UnseenRows(db, s);
    Sets.SubsetSize(uncounted, direct);
  }

  /** In every reachable state, for every subscriber whose counter the run theorem covers. */
  lemma UnseenAgreesWithTheList(evs: seq<Event>, s: SubId, now: Time)
    requires IsRun(evs) && ClockAfter(evs) <= now
    requires s in After(evs).counters && s in After(evs).subscribers
    requires (s, UnseenCount) !in Dirty(evs) && !Stale(After(evs), s)
    ensures
      var db := After(evs);
      var direct := DirectSince(db, s, now);
      var uncounted := set id | id in direct && Owned(db, id);
      ServedUnseen(db, s) == |direct| - |uncounted| + |BroadcastsSince(db, s)|
  {
    CountersAreExact(evs);
    LaterClock(After(evs), ClockAfter(evs), now);
    hide DirectSince, BroadcastsSince, ServedUnseen, Stale;
    ServedUnseenIsWhatArrived(After(evs), s, now);
  }

  /** Right after seen-all the unseen number is zero. */
  lemma SeenAllClearsTheNumber(db: Db, s: SubId, clock: Time)
    requires s in db.counters && s in db.subscribers
    requires forall b | b in db.broadcasts :: db.broadcasts[b].createdAt <= clock
    ensures ServedUnseen(SeenAll(db, s, clock), s) == 0
  {
    assert UnseenBroadcasts(SeenAll(db, s, clock), s) == {};
  }

  /** After read-all the unread view is empty and the badge says zero. */
  lemma ReadAllEmptiesTheView(db: Db, s: SubId, clock: Time)
    requires WellFormed(db, clock) && BroadcastsOk(db) && s in db.counters && s in db.subscribers
    requires forall b | b in db.broadcasts :: db.broadcasts[b].createdAt <= clock
    ensures DirectArm(ReadAll(db, s, clock), s, clock, UnreadView) == {}
    ensures BroadcastArm(ReadAll(db, s, clock), s, UnreadView) == {}
    ensures ServedUnread(ReadAll(db, s, clock), s) == 0
  {
    var db' := ReadAll(db, s, clock);
    ReadAllRefines(db, s, clock);
    forall id | id in db'.notifications ensures !InDirectArm(db', s, clock, UnreadView, id) {
      if db.notifications[id].subscriber == s && db.notifications[id].visibleAt <= clock {
        assert ItemAt(db', id).read;
      }
    }
    forall b | b in db'.broadcasts ensures !InBroadcastArm(db', s, UnreadView, b) {
      assert BroadcastAt(db', s, b).read;
    }
    BroadcastTermsAreTheArm(db', s);
  }
}
