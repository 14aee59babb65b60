/**
 The naive inbox over whole runs: what any reader sees after any interleaving is the
 fold of the naive effects, and the exception tables stay exceptions.
 */
module InboxStory {
  import opened Wrappers
  import opened InboxState
  import opened InboxSteps
  import opened InboxInvariant
  import opened WorkerInvariant
  import opened InboxRuns
  import opened NaiveInbox
  import opened InboxRefinement

  /** A mark moves only to the horizon of a set-all effect; new subscribers start at the epoch. */
  function MarkAfter(db: Db, s: SubId, dimension: Dimension, effect: Effect): Time {
    if effect.SetAll? && effect.s == s && effect.dimension == dimension then effect.upTo
    else if s !in db.counters then EPOCH
    else if dimension == ReadFlag then db.counters[s].readWatermark
    else db.counters[s].archiveWatermark
  }

  /** A subscriber's `created_at`, which decides the broadcasts it sees, never changes. */
  predicate KeepsBirthdays(db: Db, db': Db) {
    forall s | s in db.subscribers :: s in db'.subscribers && db'.subscribers[s] == db.subscribers[s]
  }

  ghost predicate MarksFollow(db: Db, db': Db, effect: Effect) {
    && db.counters.Keys <= db'.counters.Keys
    && KeepsBirthdays(db, db')
    && forall s | s in db'.counters ::
      && db'.counters[s].readWatermark == MarkAfter(db, s, ReadFlag, effect)
      && db'.counters[s].archiveWatermark == MarkAfter(db, s, ArchivedFlag, effect)
  }

  /** Items enter without overrides and without exceptions. */
  predicate BornPlain(db: Db, db': Db) {
    && (forall id | id in db'.notifications && id !in db.notifications ::
          var row := db'.notifications[id];
          row.readAt.None? && row.unreadAt.None? && row.archivedAt.None? && row.unarchivedAt.None?)
    && (forall k | k in db'.broadcastReads :: k.0 in db.counters && k.1 in db.broadcasts)
    && (forall k | k in db'.broadcastArchives :: k.0 in db.counters && k.1 in db.broadcasts)
  }

  ghost predicate Follows(db: Db, db': Db, effect: Effect)
    requires RowsHaveCounters(db) && RowsHaveCounters(db')
  {
    Refines(db, db', effect) && MarksFollow(db, db', effect) && BornPlain(db, db')
  }

  // ---------------------------------------------------------------- one step

  /** Steps that touch no row, no mark and no exception. */
  lemma InvisibleStep(db: Db, db': Db)
    requires RowsHaveCounters(db) && RowsHaveCounters(db') && BroadcastsOk(db)
    requires db'.notifications == db.notifications && db'.counters.Keys == db.counters.Keys
    requires SameMarks(db, db') && SameBroadcasts(db, db') && db'.subscribers == db.subscribers
    ensures Follows(db, db', Nothing)
  {
    NothingRefines(db, db');
  }

  lemma EnrolFollows(db: Db, subs: set<SubId>, begin: Time)
    requires RowsHaveCounters(db) && BroadcastsOk(db)
    ensures Follows(db, Enrol(db, subs, begin), Nothing)
  {
    hide Refines;
    NothingRefines(db, Enrol(db, subs, begin));
  }

  lemma CreateKeepsOldRows(db: Db, recipients: seq<SubId>, ids: seq<NotifId>, category: Category,
                           deliverAt: Option<Time>, job: JobId, begin: Time)
    requires |ids| == |recipients|
    ensures
      var db' := Create(db, recipients, ids, category, deliverAt, job, begin);
      KeepsRows(db, db') && SameMarks(db, db') && SameBroadcasts(db, db') && KeepsBirthdays(db, db')
  {
    hide RowsHaveCounters;
  }

  lemma CreateFollows(db: Db, recipients: seq<SubId>, ids: seq<NotifId>, category: Category,
                      deliverAt: Option<Time>, job: JobId, begin: Time)
    requires RowsHaveCounters(db) && BroadcastsOk(db) && |ids| == |recipients|
    ensures Follows(db, Create(db, recipients, ids, category, deliverAt, job, begin), Nothing)
  {
    hide Refines, MarksFollow, BornPlain, Create;
    var db' := Create(db, recipients, ids, category, deliverAt, job, begin);
    CreateKeepsOldRows(db, recipients, ids, category, deliverAt, job, begin);
    CreateMarksFollow(db, recipients, ids, category, deliverAt, job, begin);
    CreateBornPlain(db, recipients, ids, category, deliverAt, job, begin);
    NothingRefines(db, db');
  }

  lemma CreateMarksFollow(db: Db, recipients: seq<SubId>, ids: seq<NotifId>, category: Category,
                          deliverAt: Option<Time>, job: JobId, begin: Time)
    requires |ids| == |recipients|
    ensures MarksFollow(db, Create(db, recipients, ids, category, deliverAt, job, begin), Nothing)
  {
    hide Muted, RowsHaveCounters;
  }

  lemma CreateBornPlain(db: Db, recipients: seq<SubId>, ids: seq<NotifId>, category: Category,
                        deliverAt: Option<Time>, job: JobId, begin: Time)
    requires |ids| == |recipients| && BroadcastsOk(db)
    ensures BornPlain(db, Create(db, recipients, ids, category, deliverAt, job, begin))
  {
    hide BumpNew, RowsHaveCounters;
  }

  lemma BroadcastFollows(db: Db, b: BroadcastId, category: Category, begin: Time)
    requires RowsHaveCounters(db) && BroadcastsOk(db) && b !in db.broadcasts
    ensures Follows(db, CreateBroadcast(db, b, category, begin), Nothing)
  {
    NothingRefines(db, CreateBroadcast(db, b, category, begin));
  }

  lemma FlipFollows(db: Db, s: SubId, id: NotifId, flip: Flip, now: Time)
    requires RowsHaveCounters(db) && BroadcastsOk(db)
    ensures Follows(db, FlipItem(db, s, id, flip, now),
                    if VisibleTo(db, s, id, now) then Put(id, DimensionOf(flip), ValueOf(flip)) else Nothing)
  {
    hide Refines, FlipRow, Quiet;
    if VisibleTo(db, s, id, now) {
      FlipRefines(db, s, id, flip, now);
    } else {
      InvisibleStep(db, db);
    }
  }

  lemma FlipBroadcastFollows(db: Db, s: SubId, b: BroadcastId, flip: Flip)
    requires RowsHaveCounters(db) && BroadcastsOk(db)
    ensures Follows(db, FlipBroadcast(db, s, b, flip),
                    if BroadcastVisibleTo(db, s, b) then PutBroadcast(s, b, DimensionOf(flip), ValueOf(flip)) else Nothing)
  {
    hide Refines, RowsHaveCounters;
    if BroadcastVisibleTo(db, s, b) {
      FlipBroadcastRefines(db, s, b, flip);
    } else {
      InvisibleStep(db, db);
    }
  }

  lemma MovedFollows(db: Db, src: SubId, dst: SubId, ids: seq<NotifId>, begin: Time)
    requires RowsHaveCounters(db) && BroadcastsOk(db) && MoveHappens(db, src, dst, ids, begin)
    ensures MarksFollow(db, Move(db, src, dst, ids, begin), Nothing) && BornPlain(db, Move(db, src, dst, ids, begin))
  {
    MoveIsTwoRecounts(db, src, dst, ids, begin);
    var mid := MoveRows(Enrol(db, {src, dst}, begin), src, dst, ids, begin);
    MovedRowsFollow(db, src, dst, ids, begin);
    hide Move, MoveRows, MoveHappens, Enrol, Recount, ReadsAreExceptions;
    RecountStillFollows(db, mid, src, begin);
    RecountStillFollows(db, Recount(mid, src, begin), dst, begin);
  }

  lemma MovedRowsFollow(db: Db, src: SubId, dst: SubId, ids: seq<NotifId>, begin: Time)
    requires RowsHaveCounters(db) && BroadcastsOk(db)
    ensures
      var mid := MoveRows(Enrol(db, {src, dst}, begin), src, dst, ids, begin);
      RowsHaveCounters(mid) && MarksFollow(db, mid, Nothing) && BornPlain(db, mid)
  {
    hide MovedRow, Moves, CopiedPreferences, ReadsAreExceptions;
  }

  lemma RecountStillFollows(db: Db, mid: Db, s: SubId, now: Time)
    requires RowsHaveCounters(mid) && MarksFollow(db, mid, Nothing) && BornPlain(db, mid)
    ensures
      var db' := Recount(mid, s, now);
      RowsHaveCounters(db') && MarksFollow(db, db', Nothing) && BornPlain(db, db')
  {
    hide RecountedUnread, RecountedUnseen, MarkAfter;
  }

  lemma MoveFollows(db: Db, src: SubId, dst: SubId, ids: seq<NotifId>, begin: Time)
    requires RowsHaveCounters(db) && BroadcastsOk(db)
    ensures
      Follows(db, Move(db, src, dst, ids, begin),
              if MoveHappens(db, src, dst, ids, begin)
              then HandOver(MovedIds(db, src, ids, begin), dst) else Nothing)
  {
    hide Refines, Moves, Move, MoveHappens, BornPlain, BroadcastsOk;
    if MoveHappens(db, src, dst, ids, begin) {
      MoveRefines(db, src, dst, ids, begin);
      MovedFollows(db, src, dst, ids, begin);
    } else {
      StayingPut(db, src, dst, ids, begin);
      if Move(db, src, dst, ids, begin) == db {
        InvisibleStep(db, db);
      } else {
        EnrolFollows(db, {src, dst}, begin);
      }
    }
  }

  lemma ReadAllFollows(db: Db, s: SubId, clock: Time)
    requires RowsHaveCounters(db) && BroadcastsOk(db) && CountersOk(db, clock)
    ensures Follows(db, ReadAll(db, s, clock), if s in db.counters then SetAll(s, ReadFlag, clock) else Nothing)
  {
    hide Refines;
    if s in db.counters {
      ReadAllRefines(db, s, clock);
    } else {
      InvisibleStep(db, db);
    }
  }

  lemma ArchiveAllFollows(db: Db, s: SubId, clock: Time)
    requires RowsHaveCounters(db) && BroadcastsOk(db) && CountersOk(db, clock)
    ensures Follows(db, ArchiveAll(db, s, clock), if s in db.counters then SetAll(s, ArchivedFlag, clock) else Nothing)
  {
    hide Refines;
    if s in db.counters {
      ArchiveAllRefines(db, s, clock);
    } else {
      InvisibleStep(db, db);
    }
  }

  lemma ArchiveReadFollows(db: Db, j: JobId, now: Time)
    requires RowsHaveCounters(db) && BroadcastsOk(db) && j in db.jobs && db.jobs[j].work.ArchiveRead?
    ensures RowsHaveCounters(RunArchiveRead(db, j, now))
    ensures Follows(db, RunArchiveRead(db, j, now), ArchiveEffect(db, db.jobs[j].work))
  {
    hide ArchiveScan, InRange, Refines, BroadcastsOk;
    ArchiveReadRefines(db, j, now);
    ArchiveReadBornPlain(db, j, now);
  }

  lemma ArchiveReadBornPlain(db: Db, j: JobId, now: Time)
    requires BroadcastsOk(db) && j in db.jobs && db.jobs[j].work.ArchiveRead?
    ensures BornPlain(db, RunArchiveRead(db, j, now))
  {
    hide ArchiveScan, InRange, IdleJobStep;
  }

  lemma WorkFollows(db: Db, ev: Event)
    requires RowsHaveCounters(db) && BroadcastsOk(db) && ev.op.Work?
    ensures Follows(db, RunJob(db, ev.op.job, ev.begin), EffectOf(db, ev))
  {
    hide Refines, ArchiveEffect, RunArchiveRead, Follows, BroadcastsOk;
    var j := ev.op.job;
    var db' := RunJob(db, j, ev.begin);
    if j in db.jobs && db.jobs[j].runAt <= ev.begin && db.jobs[j].work.ArchiveRead? {
      ArchiveReadFollows(db, j, ev.begin);
    } else {
      CountingIsInvisible(db, j, ev.begin);
      InvisibleStep(db, db');
    }
  }

  lemma DeliverIsInvisible(db: Db, j: JobId)
    requires RowsHaveCounters(db) && j in db.jobs && db.jobs[j].work.Deliver?
    ensures
      var db' := RunDeliver(db, j);
      && db' == db.(counters := db'.counters, jobs := db'.jobs)
      && db'.counters.Keys == db.counters.Keys && SameMarks(db, db')
  {
  }

  /** Nothing a reader's flags depend on differs. */
  predicate LooksTheSame(db: Db, db': Db) {
    && db'.notifications == db.notifications && db'.counters.Keys == db.counters.Keys
    && SameMarks(db, db') && SameBroadcasts(db, db') && db'.subscribers == db.subscribers
  }

  lemma RecountIsInvisible(db: Db, j: JobId, s: SubId, begin: Time)
    requires RowsHaveCounters(db)
    ensures LooksTheSame(db, Recount(db, s, begin).(jobs := db.jobs - {j}))
  {
    hide Recount;
    RecountKeepsMarks(db, s, begin);
  }

  lemma CountingIsInvisible(db: Db, j: JobId, begin: Time)
    requires RowsHaveCounters(db)
    requires j in db.jobs && db.jobs[j].runAt <= begin ==> !db.jobs[j].work.ArchiveRead?
    ensures LooksTheSame(db, RunJob(db, j, begin))
  {
    hide RunDeliver, Recount, RunArchiveRead;
    if j in db.jobs && db.jobs[j].runAt <= begin {
      match db.jobs[j].work
      case Deliver(_, _) => DeliverIsInvisible(db, j);
      case CounterRebuild(s) =>
        hide LooksTheSame;
        RecountIsInvisible(db, j, s, begin);
    }
  }

  /** Queue and preference writes, and the seen mark, are invisible to both flags. */
  lemma OtherStepFollows(db: Db, db': Db)
    requires RowsHaveCounters(db) && BroadcastsOk(db) && db'.counters.Keys == db.counters.Keys && SameMarks(db, db')
    requires db' == db.(jobs := db'.jobs, deadLetters := db'.deadLetters, preferences := db'.preferences, counters := db'.counters)
    ensures RowsHaveCounters(db') && Follows(db, db', Nothing)
  {
    hide Follows, BroadcastsOk;
    InvisibleStep(db, db');
  }

  lemma SeenAllFollows(db: Db, s: SubId, clock: Time)
    requires RowsHaveCounters(db) && BroadcastsOk(db)
    ensures Follows(db, SeenAll(db, s, clock), Nothing)
  {
    hide Follows, BroadcastsOk, Quiet, RowsHaveCounters;
    if s in db.counters {
      OtherStepFollows(db, SeenAll(db, s, clock));
    } else {
      OtherStepFollows(db, db);
    }
  }

  lemma PreferencesFollow(db: Db, s: SubId, entries: seq<Preference>, job: JobId, begin: Time)
    requires RowsHaveCounters(db) && BroadcastsOk(db)
    ensures Follows(db, WritePreferences(db, s, entries, job, begin), Nothing)
  {
    hide Follows, BroadcastsOk, WritePreferences;
    OtherStepFollows(db, WritePreferences(db, s, entries, job, begin));
  }

  lemma RequestFollows(db: Db, s: SubId, job: JobId, begin: Time, clock: Time)
    requires RowsHaveCounters(db) && BroadcastsOk(db)
    ensures Follows(db, RequestArchiveRead(db, s, job, begin, clock), Nothing)
  {
    hide Follows, BroadcastsOk, RowsHaveCounters;
    var db' := RequestArchiveRead(db, s, job, begin, clock);
    assert db' == db.(jobs := db'.jobs);
    hide RequestArchiveRead;
    OtherStepFollows(db, db');
  }

  lemma QueueStepFollows(db: Db, ev: Event)
    requires RowsHaveCounters(db) && BroadcastsOk(db)
    requires ev.op.MarkAllSeen? || ev.op.ArchiveReadItems? || ev.op.SetPreferences? || ev.op.Crash? || ev.op.Fail?
          || ev.op.ReplayDeadLetters?
    ensures Follows(db, Apply(db, ev), Nothing)
  {
    hide Follows, BroadcastsOk, FailJob, Replay, WritePreferences, RequestArchiveRead, SeenAll;
    match ev.op
    case MarkAllSeen(s) => SeenAllFollows(db, s, ev.clock);
    case ArchiveReadItems(s, job) => RequestFollows(db, s, job, ev.begin, ev.clock);
    case SetPreferences(s, entries, job) => PreferencesFollow(db, s, entries, job, ev.begin);
    case Crash(_) => OtherStepFollows(db, db);
    case Fail(j, backoff) => OtherStepFollows(db, FailJob(db, j, backoff, ev.begin));
    case ReplayDeadLetters(selected) => OtherStepFollows(db, Replay(db, selected, ev.begin));
  }

  /** Every transaction does to every reader's flags what its naive effect says, and no more. */
  lemma StepFollows(db: Db, clock: Time, ev: Event)
    requires WellFormed(db, ev.clock) && BroadcastsOk(db) && Enabled(db, clock, ev)
    ensures Follows(db, Apply(db, ev), EffectOf(db, ev))
  {
    hide Follows, BroadcastsOk, Create, Move, RunJob, MoveHappens, ArchiveEffect;
    match ev.op
    case UpsertSubscriber(s, createdAt) => EnrolFollows(db, {s}, createdAt);
    case CreateNotifications(recipients, ids, category, deliverAt, job) =>
      CreateFollows(db, recipients, ids, category, deliverAt, job, ev.begin);
    case NewBroadcast(b, category) => BroadcastFollows(db, b, category, ev.begin);
    case FlipNotification(s, id, flip) => FlipFollows(db, s, id, flip, ev.begin);
    case FlipBroadcastItem(s, b, flip) => FlipBroadcastFollows(db, s, b, flip);
    case MarkAllRead(s) => ReadAllFollows(db, s, ev.clock);
    case ArchiveEverything(s) => ArchiveAllFollows(db, s, ev.clock);
    case MoveNotifications(src, dst, ids) => MoveFollows(db, src, dst, ids, ev.begin);
    case Work(_) => WorkFollows(db, ev);
    case _ => QueueStepFollows(db, ev);
  }

  // ---------------------------------------------------------------- whole runs

  /** When `s` last set this flag on everything. */
  ghost function LastSetAll(evs: seq<Event>, s: SubId, dimension: Dimension): Time {
    if evs == [] then EPOCH
    else
      var init, ev := evs[..|evs| - 1], evs[|evs| - 1];
      var effect := EffectOf(After(init), ev);
      if effect.SetAll? && effect.s == s && effect.dimension == dimension then effect.upTo
      else LastSetAll(init, s, dimension)
  }

  function Entering(s: SubId, at: Time, readAll: Time, archiveAll: Time): Item {
    Item(s, at, at <= readAll, at <= archiveAll)
  }

  /** The fold: an item enters with the flags of the last set-all, and effects do the rest. */
  ghost function Story(evs: seq<Event>, id: NotifId): Item
    requires id in After(evs).notifications
  {
    var init, ev := evs[..|evs| - 1], evs[|evs| - 1];
    if id in After(init).notifications then NextItem(id, Story(init, id), EffectOf(After(init), ev))
    else
      var row := After(evs).notifications[id];
      Entering(row.subscriber, row.visibleAt, LastSetAll(evs, row.subscriber, ReadFlag), LastSetAll(evs, row.subscriber, ArchivedFlag))
  }

  ghost function BroadcastStory(evs: seq<Event>, s: SubId, b: BroadcastId): Item
    requires s in After(evs).counters && b in After(evs).broadcasts
  {
    var init, ev := evs[..|evs| - 1], evs[|evs| - 1];
    if s in After(init).counters && b in After(init).broadcasts
    then NextBroadcast(b, BroadcastStory(init, s, b), EffectOf(After(init), ev))
    else Entering(s, After(evs).broadcasts[b].createdAt, LastSetAll(evs, s, ReadFlag), LastSetAll(evs, s, ArchivedFlag))
  }

  ghost predicate MarksAreLastSetAlls(evs: seq<Event>) {
    && (forall s | s in After(evs).counters ::
          && After(evs).counters[s].readWatermark == LastSetAll(evs, s, ReadFlag)
          && After(evs).counters[s].archiveWatermark == LastSetAll(evs, s, ArchivedFlag))
    && (forall s, dimension | s !in After(evs).counters :: LastSetAll(evs, s, dimension) == EPOCH)
  }

  /** Only a subscriber with a counters row sets anything. */
  lemma SettersAreKnown(db: Db, ev: Event)
    ensures EffectOf(db, ev).SetAll? ==> EffectOf(db, ev).s in db.counters
  {
  }

  lemma LastSetAllUnfolds(evs: seq<Event>, s: SubId, dimension: Dimension)
    requires evs != []
    ensures
      var init, ev := evs[..|evs| - 1], evs[|evs| - 1];
      var effect := EffectOf(After(init), ev);
      LastSetAll(evs, s, dimension)
        == if effect.SetAll? && effect.s == s && effect.dimension == dimension then effect.upTo
           else LastSetAll(init, s, dimension)
  {
  }

  lemma MarksStep(evs: seq<Event>)
    requires evs != []
    requires
      var init, ev := evs[..|evs| - 1], evs[|evs| - 1];
      MarksAreLastSetAlls(init) && MarksFollow(After(init), After(evs), EffectOf(After(init), ev))
    ensures MarksAreLastSetAlls(evs)
  {
    hide After, EffectOf, LastSetAll, KeepsBirthdays;
    var init, ev := evs[..|evs| - 1], evs[|evs| - 1];
    SettersAreKnown(After(init), ev);
    forall s | s in After(evs).counters
      ensures After(evs).counters[s].readWatermark == LastSetAll(evs, s, ReadFlag)
      ensures After(evs).counters[s].archiveWatermark == LastSetAll(evs, s, ArchivedFlag)
    {
      LastSetAllUnfolds(evs, s, ReadFlag);
      LastSetAllUnfolds(evs, s, ArchivedFlag);
    }
    forall s, dimension | s !in After(evs).counters ensures LastSetAll(evs, s, dimension) == EPOCH {
      LastSetAllUnfolds(evs, s, dimension);
    }
  }

  lemma NoEventsYet()
    ensures BroadcastsOk(After([])) && MarksAreLastSetAlls([])
  {
  }

  /** Exceptions stay exceptions, and a watermark is the instant of the last set-all. */
  lemma {:induction false} TablesFollow(evs: seq<Event>)
    requires IsRun(evs)
    ensures BroadcastsOk(After(evs)) && MarksAreLastSetAlls(evs)
  {
    hide BroadcastsOk, MarksAreLastSetAlls, MarksFollow, BornPlain, AllExact, Enabled, EffectOf;
    if evs == [] {
      NoEventsYet();
    } else {
      var init, ev := evs[..|evs| - 1], evs[|evs| - 1];
      TablesFollow(init);
      RunIsWellFormed(evs);
      StepFollows(After(init), ClockAfter(init), ev);
      MarksStep(evs);
    }
  }

  /** Before its last event a run is in a state the invariant covers, at that event's clock. */
  lemma RunIsWellFormed(evs: seq<Event>)
    requires IsRun(evs) && evs != []
    ensures WellFormed(After(evs[..|evs| - 1]), evs[|evs| - 1].clock)
    ensures Enabled(After(evs[..|evs| - 1]), ClockAfter(evs[..|evs| - 1]), evs[|evs| - 1])
  {
    hide WellFormed, AllExact, Apply;
    var init, ev := evs[..|evs| - 1], evs[|evs| - 1];
    CountersAreExact(init);
    LaterClock(After(init), ClockAfter(init), ev.clock);
  }

  /** What the list reports for a notification is its naive story, after every run. */
  lemma {:induction false} NotificationsFollowTheStory(evs: seq<Event>, id: NotifId)
    requires IsRun(evs) && id in After(evs).notifications
    ensures ItemAt(After(evs), id) == Story(evs, id)
  {
    hide EffectOf, Apply;
    var init, ev := evs[..|evs| - 1], evs[|evs| - 1];
    var db, db' := After(init), After(evs);
    TablesFollow(init);
    TablesFollow(evs);
    RunIsWellFormed(evs);
    StepFollows(db, ClockAfter(init), ev);
    if id in db.notifications {
      NotificationsFollowTheStory(init, id);
    }
  }

  /** And so it is for every broadcast, as every subscriber sees it. */
  lemma {:induction false} BroadcastsFollowTheStory(evs: seq<Event>, s: SubId, b: BroadcastId)
    requires IsRun(evs) && s in After(evs).counters && b in After(evs).broadcasts
    ensures BroadcastAt(After(evs), s, b) == BroadcastStory(evs, s, b)
  {
    hide Apply;
    var init, ev := evs[..|evs| - 1], evs[|evs| - 1];
    var db, db' := After(init), After(evs);
    TablesFollow(init);
    TablesFollow(evs);
    RunIsWellFormed(evs);
    StepFollows(db, ClockAfter(init), ev);
    if s in db.counters && b in db.broadcasts {
      BroadcastsFollowTheStory(init, s, b);
    }
  }

  /** What is in a subscriber's inbox stays there: a visible broadcast never becomes invisible. */
  lemma {:induction false} VisibleBroadcastsStay(evs: seq<Event>, n: nat, s: SubId, b: BroadcastId)
    requires IsRun(evs) && n <= |evs| && BroadcastVisibleTo(After(evs[..n]), s, b)
    ensures BroadcastVisibleTo(After(evs), s, b)
    decreases |evs|
  {
    hide Apply;
    if n == |evs| {
      assert evs[..n] == evs;
    } else {
      var init, ev := evs[..|evs| - 1], evs[|evs| - 1];
      assert init[..n] == evs[..n];
      VisibleBroadcastsStay(init, n, s, b);
      TablesFollow(init);
      RunIsWellFormed(evs);
      StepFollows(After(init), ClockAfter(init), ev);
      BroadcastKeepsItsTime(After(init), After(evs), EffectOf(After(init), ev), s, b);
    }
  }

  lemma BroadcastKeepsItsTime(db: Db, db': Db, effect: Effect, s: SubId, b: BroadcastId)
    requires RowsHaveCounters(db) && RowsHaveCounters(db') && Follows(db, db', effect) && BroadcastVisibleTo(db, s, b)
    ensures BroadcastVisibleTo(db', s, b)
  {
    assert BroadcastAt(db', s, b).at == BroadcastAt(db, s, b).at;
  }
}
