/**
 Whole runs: any interleaving of committed transactions, crashes (which commit
 nothing), retries, parked jobs and replays.

 A transaction may have begun at any time before it commits, so its pinned `begin`
 is free below its `clock`; only the clock read under the lock moves forward from
 commit to commit. That is all the concurrency the counters lock leaves.
 */
module InboxRuns {
  import opened Wrappers
  import opened InboxState
  import opened InboxSteps
  import opened InboxInvariant
  import opened WorkerInvariant

  datatype Op =
    | UpsertSubscriber(s: SubId, createdAt: Time)
    | CreateNotifications(recipients: seq<SubId>, ids: seq<NotifId>, category: Category, deliverAt: Option<Time>, job: JobId)
    | NewBroadcast(b: BroadcastId, category: Category)
    | FlipNotification(s: SubId, id: NotifId, flip: Flip)
    | FlipBroadcastItem(s: SubId, b: BroadcastId, flip: Flip)
    | MarkAllRead(s: SubId)
    | MarkAllSeen(s: SubId)
    | ArchiveEverything(s: SubId)
    | ArchiveReadItems(s: SubId, job: JobId)
    | SetPreferences(s: SubId, entries: seq<Preference>, job: JobId)
    | MoveNotifications(src: SubId, dst: SubId, ids: seq<NotifId>)
    | Work(job: JobId)
    | Crash(job: JobId)
    | Fail(job: JobId, backoff: nat)
    | ReplayDeadLetters(selected: set<JobId>)

  datatype Event = Event(begin: Time, clock: Time, op: Op)

  ghost function Apply(db: Db, ev: Event): (db': Db)
    requires RowsHaveCounters(db)
    ensures RowsHaveCounters(db')
  {
    match ev.op
    case UpsertSubscriber(s, createdAt) => Enrol(db, {s}, createdAt)
    case CreateNotifications(recipients, ids, category, deliverAt, job) =>
      if |ids| == |recipients| then Create(db, recipients, ids, category, deliverAt, job, ev.begin) else db
    case NewBroadcast(b, category) => CreateBroadcast(db, b, category, ev.begin)
    case FlipNotification(s, id, flip) => FlipItem(db, s, id, flip, ev.begin)
    case FlipBroadcastItem(s, b, flip) => FlipBroadcast(db, s, b, flip)
    case MarkAllRead(s) => ReadAll(db, s, ev.clock)
    case MarkAllSeen(s) => SeenAll(db, s, ev.clock)
    case ArchiveEverything(s) => ArchiveAll(db, s, ev.clock)
    case ArchiveReadItems(s, job) => RequestArchiveRead(db, s, job, ev.begin, ev.clock)
    case SetPreferences(s, entries, job) => WritePreferences(db, s, entries, job, ev.begin)
    case MoveNotifications(src, dst, ids) => Move(db, src, dst, ids, ev.begin)
    case Work(j) => RunJob(db, j, ev.begin)
    case Crash(_) => db
    case Fail(j, backoff) => FailJob(db, j, backoff, ev.begin)
    case ReplayDeadLetters(selected) => Replay(db, selected, ev.begin)
  }

  predicate FreshJob(db: Db, j: JobId) {
    j !in db.jobs && j !in db.deadLetters
  }

  /** What the surroundings guarantee: fresh uuids, and a clock that does not run backwards. */
  predicate Enabled(db: Db, clock: Time, ev: Event) {
    && ev.begin <= ev.clock && clock <= ev.clock
    && match ev.op
       case CreateNotifications(recipients, ids, _, _, job) => CreateReady(db, recipients, ids, job)
       case NewBroadcast(b, _) => b !in db.broadcasts
       case ArchiveReadItems(_, job) => FreshJob(db, job)
       case SetPreferences(_, _, job) => FreshJob(db, job)
       // fail_job is only reached by a worker that claimed the job.
       case Fail(j, _) => j in db.jobs ==> WasClaimed(db.jobs[j], ev.begin)
       case _ => true
  }

  ghost function After(evs: seq<Event>): (db: Db)
    ensures RowsHaveCounters(db)
  {
    if evs == [] then EMPTY_DB else Apply(After(evs[..|evs| - 1]), evs[|evs| - 1])
  }

  function ClockAfter(evs: seq<Event>): Time {
    if evs == [] then EPOCH else evs[|evs| - 1].clock
  }

  ghost predicate IsRun(evs: seq<Event>) {
    evs == [] ||
    var init, last := evs[..|evs| - 1], evs[|evs| - 1];
    IsRun(init) && Enabled(After(init), ClockAfter(init), last)
  }

  /**
   The counts a step can leave wrong, from guards that can be evaluated before it: a flip
   of a row whose deliver job is parked, and a recount whose errors do not cancel. Each
   count has its own mark, and so has each end of a move. A recount without error clears
   both marks of its subscriber, a watermark move that of the count it zeroes.
   */
  ghost function DirtyAfter(db: Db, ev: Event, dirty: Dirt): Dirt
    requires RowsHaveCounters(db)
  {
    match ev.op
    case FlipNotification(s, id, flip) => FlipDirt(db, s, id, flip, ev.begin, dirty)
    case MarkAllRead(s) => dirty - {(s, UnreadCount)}
    case MarkAllSeen(s) => dirty - {(s, UnseenCount)}
    case ArchiveEverything(s) => dirty - {(s, UnreadCount)}
    case Work(j) =>
      if j in db.jobs && db.jobs[j].runAt <= ev.begin && db.jobs[j].work.CounterRebuild?
      then RecountDirt(db, db.jobs[j].work.subscriber, ev.begin, dirty)
      else dirty
    case MoveNotifications(src, dst, ids) => MoveDirt(db, src, dst, ids, ev.begin, dirty)
    case _ => dirty
  }

  ghost function Dirty(evs: seq<Event>): Dirt {
    if evs == [] then {}
    else DirtyAfter(After(evs[..|evs| - 1]), evs[|evs| - 1], Dirty(evs[..|evs| - 1]))
  }

  /** The worker comes for one job at each of these times. */
  ghost function ClaimedAt(db: Db, j: JobId, times: seq<Time>): Db
    requires RowsHaveCounters(db)
    decreases |times|
  {
    if times == [] then db
    else ClaimedAt(Apply(db, Event(times[0], times[0], Work(j))), j, times[1..])
  }

  lemma {:induction false} GoneForGood(db: Db, j: JobId, times: seq<Time>)
    requires RowsHaveCounters(db) && j !in db.jobs
    ensures ClaimedAt(db, j, times) == db
    decreases |times|
  {
    if times != [] {
      assert Apply(db, Event(times[0], times[0], Work(j))) == db;
      GoneForGood(db, j, times[1..]);
    }
  }

  // ---------------------------------------------------------------- counters over runs

  lemma CreateKeepsInv(db: Db, recipients: seq<SubId>, ids: seq<NotifId>, category: Category,
                       deliverAt: Option<Time>, job: JobId, begin: Time, clock: Time, dirty: Dirt)
    requires Inv(db, clock, dirty) && CreateReady(db, recipients, ids, job)
    requires begin <= clock && EPOCH <= clock
    ensures Inv(Create(db, recipients, ids, category, deliverAt, job, begin), clock, dirty)
  {
    hide Inv, CreateRows, Quiet, DeliverOk;
    var db1 := Enrol(db, (set s | s in recipients), begin);
    EnrolKeepsInv(db, (set s | s in recipients), begin, clock, dirty);
    match deliverAt
    case None => ImmediateCreateKeepsInv(db1, recipients, ids, category, job, begin, clock, dirty);
    case Some(at) => ScheduledCreateKeepsInv(db1, recipients, ids, category, at, job, begin, clock, dirty);
  }

  lemma DeliverStep(db: Db, clock: Time, ev: Event, dirty: Dirt)
    requires Inv(db, ev.clock, dirty) && EPOCH <= ev.clock && Enabled(db, clock, ev)
    requires ev.op.Work? && ev.op.job in db.jobs && db.jobs[ev.op.job].runAt <= ev.begin && db.jobs[ev.op.job].work.Deliver?
    ensures Inv(Apply(db, ev), ev.clock, DirtyAfter(db, ev, dirty))
  {
    hide WellFormed;
    DeliverKeepsInv(db, ev.op.job, ev.begin, ev.clock, dirty);
  }

  lemma RebuildStep(db: Db, clock: Time, ev: Event, dirty: Dirt)
    requires Inv(db, ev.clock, dirty) && EPOCH <= ev.clock && Enabled(db, clock, ev)
    requires ev.op.Work? && ev.op.job in db.jobs && db.jobs[ev.op.job].runAt <= ev.begin && db.jobs[ev.op.job].work.CounterRebuild?
    ensures Inv(Apply(db, ev), ev.clock, DirtyAfter(db, ev, dirty))
  {
    hide Inv, Recount, RecountDirt, Enabled;
    RebuildKeepsInv(db, ev.op.job, db.jobs[ev.op.job].work.subscriber, ev.begin, ev.clock, dirty);
  }

  lemma ArchiveReadStep(db: Db, clock: Time, ev: Event, dirty: Dirt)
    requires Inv(db, ev.clock, dirty) && EPOCH <= ev.clock && Enabled(db, clock, ev)
    requires ev.op.Work? && ev.op.job in db.jobs && db.jobs[ev.op.job].runAt <= ev.begin && db.jobs[ev.op.job].work.ArchiveRead?
    ensures Inv(Apply(db, ev), ev.clock, DirtyAfter(db, ev, dirty))
  {
    hide WellFormed, RunArchiveRead;
    ArchiveReadKeepsInv(db, ev.op.job, ev.begin, ev.clock, dirty);
  }

  lemma WorkStep(db: Db, clock: Time, ev: Event, dirty: Dirt)
    requires Inv(db, ev.clock, dirty) && EPOCH <= ev.clock && Enabled(db, clock, ev)
    requires ev.op.Work?
    ensures Inv(Apply(db, ev), ev.clock, DirtyAfter(db, ev, dirty))
  {
    var j := ev.op.job;
    if j in db.jobs && db.jobs[j].runAt <= ev.begin {
      match db.jobs[j].work
      case Deliver(_, _) => DeliverStep(db, clock, ev, dirty);
      case CounterRebuild(_) => RebuildStep(db, clock, ev, dirty);
      case ArchiveRead(_, _, _, _) => ArchiveReadStep(db, clock, ev, dirty);
    }
  }

  lemma FlipStep(db: Db, clock: Time, ev: Event, dirty: Dirt)
    requires Inv(db, ev.clock, dirty) && EPOCH <= ev.clock && Enabled(db, clock, ev)
    requires ev.op.FlipNotification?
    ensures Inv(Apply(db, ev), ev.clock, DirtyAfter(db, ev, dirty))
  {
    FlipKeepsInv(db, ev.op.s, ev.op.id, ev.op.flip, ev.begin, ev.clock, dirty);
  }

  lemma CreateStep(db: Db, clock: Time, ev: Event, dirty: Dirt)
    requires Inv(db, ev.clock, dirty) && EPOCH <= ev.clock && Enabled(db, clock, ev)
    requires ev.op.CreateNotifications?
    ensures Inv(Apply(db, ev), ev.clock, DirtyAfter(db, ev, dirty))
  {
    CreateKeepsInv(db, ev.op.recipients, ev.op.ids, ev.op.category, ev.op.deliverAt, ev.op.job, ev.begin, ev.clock, dirty);
  }

  lemma WatermarkStep(db: Db, clock: Time, ev: Event, dirty: Dirt)
    requires Inv(db, ev.clock, dirty) && EPOCH <= ev.clock && Enabled(db, clock, ev)
    requires ev.op.MarkAllRead? || ev.op.MarkAllSeen? || ev.op.ArchiveEverything?
    ensures Inv(Apply(db, ev), ev.clock, DirtyAfter(db, ev, dirty))
  {
    match ev.op
    case MarkAllRead(s) => ReadAllKeepsInv(db, s, ev.clock, dirty);
    case MarkAllSeen(s) => SeenAllKeepsInv(db, s, ev.clock, dirty);
    case ArchiveEverything(s) => ArchiveAllKeepsInv(db, s, ev.clock, dirty);
  }

  lemma NewBroadcastKeepsInv(db: Db, b: BroadcastId, category: Category, begin: Time, clock: Time, dirty: Dirt)
    requires Inv(db, clock, dirty)
    ensures Inv(CreateBroadcast(db, b, category, begin), clock, dirty)
  {
    hide Inv;
    BroadcastTablesAreApart(db, CreateBroadcast(db, b, category, begin), clock, dirty);
  }

  lemma BroadcastFlipKeepsInv(db: Db, s: SubId, b: BroadcastId, flip: Flip, clock: Time, dirty: Dirt)
    requires Inv(db, clock, dirty)
    ensures Inv(FlipBroadcast(db, s, b, flip), clock, dirty)
  {
    hide Inv, SetOverride;
    BroadcastTablesAreApart(db, FlipBroadcast(db, s, b, flip), clock, dirty);
  }

  lemma BroadcastStep(db: Db, clock: Time, ev: Event, dirty: Dirt)
    requires Inv(db, ev.clock, dirty) && EPOCH <= ev.clock && Enabled(db, clock, ev)
    requires ev.op.NewBroadcast? || ev.op.FlipBroadcastItem?
    ensures Inv(Apply(db, ev), ev.clock, DirtyAfter(db, ev, dirty))
  {
    match ev.op
    case NewBroadcast(b, category) => NewBroadcastKeepsInv(db, b, category, ev.begin, ev.clock, dirty);
    case FlipBroadcastItem(s, b, flip) => BroadcastFlipKeepsInv(db, s, b, flip, ev.clock, dirty);
  }

  lemma PreferencesStep(db: Db, clock: Time, ev: Event, dirty: Dirt)
    requires Inv(db, ev.clock, dirty) && EPOCH <= ev.clock && Enabled(db, clock, ev)
    requires ev.op.SetPreferences?
    ensures Inv(Apply(db, ev), ev.clock, DirtyAfter(db, ev, dirty))
  {
    WritePreferencesKeepsInv(db, ev.op.s, ev.op.entries, ev.op.job, ev.begin, ev.clock, dirty);
  }

  lemma MoveStep(db: Db, clock: Time, ev: Event, dirty: Dirt)
    requires Inv(db, ev.clock, dirty) && EPOCH <= ev.clock && Enabled(db, clock, ev)
    requires ev.op.MoveNotifications?
    ensures Inv(Apply(db, ev), ev.clock, DirtyAfter(db, ev, dirty))
  {
    MoveKeepsInv(db, ev.op.src, ev.op.dst, ev.op.ids, ev.begin, ev.clock, dirty);
  }

  lemma QueueStep(db: Db, clock: Time, ev: Event, dirty: Dirt)
    requires Inv(db, ev.clock, dirty) && EPOCH <= ev.clock && Enabled(db, clock, ev)
    requires ev.op.Fail? || ev.op.ReplayDeadLetters? || ev.op.Crash? || ev.op.ArchiveReadItems?
    ensures Inv(Apply(db, ev), ev.clock, DirtyAfter(db, ev, dirty))
  {
    hide WellFormed;
    match ev.op
    case Fail(j, backoff) => FailKeepsInv(db, j, backoff, ev.begin, ev.clock, dirty);
    case ReplayDeadLetters(selected) => ReplayKeepsInv(db, selected, ev.begin, ev.clock, dirty);
    case ArchiveReadItems(s, job) => RequestArchiveReadKeepsInv(db, s, job, ev.begin, ev.clock, dirty);
    case Crash(_) =>
  }

  /** Every transaction keeps the invariant, for every state and every pair of clocks. */
  lemma StepKeepsInv(db: Db, clock: Time, ev: Event, dirty: Dirt)
    requires Inv(db, clock, dirty) && EPOCH <= clock && Enabled(db, clock, ev)
    ensures Inv(Apply(db, ev), ev.clock, DirtyAfter(db, ev, dirty))
  {
    LaterClock(db, clock, ev.clock);
    match ev.op
    case UpsertSubscriber(s, createdAt) => EnrolKeepsInv(db, {s}, createdAt, ev.clock, dirty);
    case CreateNotifications(_, _, _, _, _) => CreateStep(db, clock, ev, dirty);
    case NewBroadcast(_, _) => BroadcastStep(db, clock, ev, dirty);
    case FlipNotification(_, _, _) => FlipStep(db, clock, ev, dirty);
    case FlipBroadcastItem(_, _, _) => BroadcastStep(db, clock, ev, dirty);
    case MarkAllRead(_) => WatermarkStep(db, clock, ev, dirty);
    case MarkAllSeen(_) => WatermarkStep(db, clock, ev, dirty);
    case ArchiveEverything(_) => WatermarkStep(db, clock, ev, dirty);
    case ArchiveReadItems(_, _) => QueueStep(db, clock, ev, dirty);
    case SetPreferences(_, _, _) => PreferencesStep(db, clock, ev, dirty);
    case MoveNotifications(_, _, _) => MoveStep(db, clock, ev, dirty);
    case Work(_) => WorkStep(db, clock, ev, dirty);
    case Crash(_) => QueueStep(db, clock, ev, dirty);
    case Fail(_, _) => QueueStep(db, clock, ev, dirty);
    case ReplayDeadLetters(_) => QueueStep(db, clock, ev, dirty);
  }

  /**
   The main theorem. After any run, every count that is not dirty, of every subscriber
   that owes no recount, equals the number of rows it stands for.
   */
  lemma {:induction false} CountersAreExact(evs: seq<Event>)
    requires IsRun(evs)
    ensures EPOCH <= ClockAfter(evs)
    ensures Inv(After(evs), ClockAfter(evs), Dirty(evs))
  {
    if evs != [] {
      var init := evs[..|evs| - 1];
      CountersAreExact(init);
      StepKeepsInv(After(init), ClockAfter(init), evs[|evs| - 1], Dirty(init));
    }
  }
}
