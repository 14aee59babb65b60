/**
 Exactly-once counting of scheduled notifications, over every run of claims,
 crashes, retries, parked jobs and replays.
 */
module DeliverOnce {
  import opened Wrappers
  import opened InboxState
  import opened InboxSteps
  import opened InboxInvariant
  import opened WorkerInvariant
  import opened InboxRuns

  predicate Claims(db: Db, j: JobId, begin: Time) {
    j in db.jobs && db.jobs[j].runAt <= begin
  }

  /** The chunk a committed transaction bumps. Everything else bumps nothing. */
  function BumpedBy(db: Db, ev: Event): seq<NotifId> {
    if ev.op.Work? && Claims(db, ev.op.job, ev.begin) && db.jobs[ev.op.job].work.Deliver?
    then Chunk(db.jobs[ev.op.job].work.ids, db.jobs[ev.op.job].work.offset)
    else []
  }

  /** In how many committed bump chunks of the run `x` appears. */
  ghost function BumpCount(evs: seq<Event>, x: NotifId): nat {
    if evs == [] then 0
    else BumpCount(evs[..|evs| - 1], x)
         + if x in BumpedBy(After(evs[..|evs| - 1]), evs[|evs| - 1]) then 1 else 0
  }

  predicate Scheduled(db: Db, x: NotifId) {
    x in db.notifications && db.notifications[x].deliverAt.Some?
  }

  /** Only scheduled rows are ever owned by a deliver job. */
  ghost predicate OwnedAreScheduled(db: Db) {
    forall x | Owned(db, x) :: Scheduled(db, x)
  }

  /** The rows an event schedules. */
  function ScheduledBy(ev: Event): seq<NotifId> {
    if ev.op.CreateNotifications? && ev.op.deliverAt.Some? then ev.op.ids else []
  }

  predicate KeepsSchedules(db: Db, db': Db) {
    forall x | x in db.notifications :: x in db'.notifications && db'.notifications[x].deliverAt == db.notifications[x].deliverAt
  }

  /**
   What any step does to ownership and schedules: owned ids are lost only to a bump and
   gained only by scheduling, and rows appear only by creation.
   */
  ghost predicate Transfers(db: Db, db': Db, bumped: seq<NotifId>, ev: Event) {
    && (forall x :: Owned(db', x) <==> (Owned(db, x) && x !in bumped) || x in ScheduledBy(ev))
    && (forall x | x in bumped :: Owned(db, x))
    && KeepsSchedules(db, db')
    && (forall x | x in db'.notifications && x !in db.notifications ::
          ev.op.CreateNotifications? && x in ev.op.ids && db'.notifications[x].deliverAt == ev.op.deliverAt)
    && (forall x | x in ScheduledBy(ev) :: x in db'.notifications && x !in db.notifications)
  }

  lemma SameTables(db: Db, db': Db)
    requires db'.jobs == db.jobs && db'.deadLetters == db.deadLetters
    ensures forall x :: Owned(db', x) == Owned(db, x)
  {
  }

  /** Both kinds of creation leave every old row's owner alone and own the scheduled new rows. */
  lemma CreateMovesOwnership(db: Db, recipients: seq<SubId>, ids: seq<NotifId>, category: Category,
                             deliverAt: Option<Time>, job: JobId, begin: Time)
    requires |ids| == |recipients| && FreshJob(db, job)
    ensures
      var db' := CreateRows(db, recipients, ids, category, deliverAt, job, begin);
      forall x :: Owned(db', x) <==> Owned(db, x) || (deliverAt.Some? && x in ids)
  {
    var db' := CreateRows(db, recipients, ids, category, deliverAt, job, begin);
    if deliverAt.Some? {
      ScheduledRowsAreOwned(db, recipients, ids, category, deliverAt.value, job, begin);
    } else {
      SameTables(db, db');
    }
  }

  lemma CreateInsertsRows(db: Db, recipients: seq<SubId>, ids: seq<NotifId>, category: Category,
                          deliverAt: Option<Time>, job: JobId, begin: Time)
    requires |ids| == |recipients|
    ensures
      var db' := CreateRows(db, recipients, ids, category, deliverAt, job, begin);
      && KeepsSchedules(db, db')
      && (forall x :: x in db'.notifications <==> x in db.notifications || x in ids)
      && (forall x | x in db'.notifications && x !in db.notifications :: db'.notifications[x].deliverAt == deliverAt)
  {
  }

  lemma CreateTransfers(db: Db, recipients: seq<SubId>, ids: seq<NotifId>, category: Category,
                        deliverAt: Option<Time>, job: JobId, ev: Event)
    requires CreateReady(db, recipients, ids, job)
    requires ev.op == CreateNotifications(recipients, ids, category, deliverAt, job)
    ensures Transfers(db, CreateRows(db, recipients, ids, category, deliverAt, job, ev.begin), [], ev)
  {
    hide CreateRows, Owned;
    CreateMovesOwnership(db, recipients, ids, category, deliverAt, job, ev.begin);
    CreateInsertsRows(db, recipients, ids, category, deliverAt, job, ev.begin);
  }

  lemma EnrolThenTransfers(db: Db, db1: Db, db': Db, bumped: seq<NotifId>, ev: Event)
    requires db1.notifications == db.notifications && db1.jobs == db.jobs && db1.deadLetters == db.deadLetters
    requires Transfers(db1, db', bumped, ev)
    ensures Transfers(db, db', bumped, ev)
  {
  }

  lemma EnrolKeepsReady(db: Db, recipients: seq<SubId>, ids: seq<NotifId>, job: JobId, subs: set<SubId>, begin: Time)
    requires CreateReady(db, recipients, ids, job)
    ensures
      var db1 := Enrol(db, subs, begin);
      && CreateReady(db1, recipients, ids, job)
      && db1.notifications == db.notifications && db1.jobs == db.jobs && db1.deadLetters == db.deadLetters
  {
  }

  lemma CreateStepTransfers(db: Db, clock: Time, ev: Event)
    requires RowsHaveCounters(db) && ev.op.CreateNotifications? && Enabled(db, clock, ev)
    ensures Transfers(db, Apply(db, ev), [], ev)
  {
    var CreateNotifications(recipients, ids, category, deliverAt, job) := ev.op;
    assert CreateReady(db, recipients, ids, job);
    hide CreateRows, Transfers, CreateReady, Enrol;
    var subs := set s | s in recipients;
    var db1 := Enrol(db, subs, ev.begin);
    EnrolKeepsReady(db, recipients, ids, job, subs, ev.begin);
    CreateReadyLengths(db1, recipients, ids, job);
    CreateTransfers(db1, recipients, ids, category, deliverAt, job, ev);
    EnrolThenTransfers(db, db1, CreateRows(db1, recipients, ids, category, deliverAt, job, ev.begin), [], ev);
  }

  lemma CreateReadyLengths(db: Db, recipients: seq<SubId>, ids: seq<NotifId>, job: JobId)
    requires CreateReady(db, recipients, ids, job)
    ensures |ids| == |recipients|
  {
  }

  lemma DeliverTransfers(db: Db, ev: Event)
    requires WellFormed(db, ev.clock) && ev.op.Work? && ev.op.job in db.jobs && db.jobs[ev.op.job].work.Deliver?
    ensures
      var j := ev.op.job;
      Transfers(db, RunDeliver(db, j), Chunk(db.jobs[j].work.ids, db.jobs[j].work.offset), ev)
  {
    var j := ev.op.job;
    DeliverReleasesItsChunk(db, j, ev.clock);
    forall x | x in Chunk(db.jobs[j].work.ids, db.jobs[j].work.offset) ensures Owned(db, x) {
      assert Owns(db.jobs[j], x);
    }
  }

  /** A step that keeps all ownership and all schedules. */
  lemma QuietTransfers(db: Db, db': Db, ev: Event)
    requires forall x :: Owned(db', x) == Owned(db, x)
    requires SameSchedules(db, db')
    requires ScheduledBy(ev) == []
    ensures Transfers(db, db', [], ev)
  {
  }

  /** What a claim that owns nothing does to the tables. */
  predicate IdleClaim(db: Db, db': Db, j: JobId) {
    && db'.deadLetters == db.deadLetters && IdleJobStep(db, db', j) && SameSchedules(db, db')
  }

  lemma IdleWork(db: Db, j: JobId, begin: Time)
    requires RowsHaveCounters(db) && Claims(db, j, begin) && !db.jobs[j].work.Deliver?
    ensures IdleClaim(db, RunJob(db, j, begin), j)
  {
  }

  lemma IdleClaimTransfers(db: Db, db': Db, ev: Event)
    requires JobsOk(db, ev.clock) && Timely(db, ev.clock) && ev.op.Work? && Claims(db, ev.op.job, ev.begin)
    requires !db.jobs[ev.op.job].work.Deliver? && IdleClaim(db, db', ev.op.job)
    ensures Transfers(db, db', [], ev)
  {
    hide Transfers, OwnedIn, JobsOk, Timely, SameSchedules;
    ChangingIdleJob(db, db.(jobs := db'.jobs), ev.op.job, ev.clock);
    SameTables(db.(jobs := db'.jobs), db');
    QuietTransfers(db, db', ev);
  }

  lemma IdleWorkTransfers(db: Db, ev: Event)
    requires WellFormed(db, ev.clock) && ev.op.Work? && Claims(db, ev.op.job, ev.begin)
    requires !db.jobs[ev.op.job].work.Deliver?
    ensures Transfers(db, RunJob(db, ev.op.job, ev.begin), [], ev)
  {
    hide Transfers, IdleClaim, RunJob;
    IdleWork(db, ev.op.job, ev.begin);
    IdleClaimTransfers(db, RunJob(db, ev.op.job, ev.begin), ev);
  }

  lemma FailKeepsApart(db: Db, j: JobId, backoff: nat, begin: Time)
    requires db.jobs.Keys !! db.deadLetters.Keys
    ensures FailJob(db, j, backoff, begin).jobs.Keys !! FailJob(db, j, backoff, begin).deadLetters.Keys
  {
    if j in db.jobs {
      ParkedApart(db.jobs, db.deadLetters, j, Failed(db.jobs[j], backoff, begin));
    }
    hide Failed;
  }

  lemma ParkedApart(jobs: map<JobId, Job>, deadLetters: map<JobId, Job>, j: JobId, job: Job)
    requires jobs.Keys !! deadLetters.Keys && j in jobs
    ensures (jobs - {j}).Keys !! deadLetters[j := job].Keys && jobs[j := job].Keys !! deadLetters.Keys
  {
  }

  lemma ReplayKeepsApart(db: Db, selected: set<JobId>, begin: Time)
    requires db.jobs.Keys !! db.deadLetters.Keys
    ensures Replay(db, selected, begin).jobs.Keys !! Replay(db, selected, begin).deadLetters.Keys
  {
    hide Requeued;
  }

  lemma FailTransfers(db: Db, ev: Event)
    requires JobsOk(db, ev.clock) && ev.op.Fail?
    ensures Transfers(db, FailJob(db, ev.op.job, ev.op.backoff, ev.begin), [], ev)
  {
    hide FailJob, WorkAt, Transfers, Owned;
    var db' := FailJob(db, ev.op.job, ev.op.backoff, ev.begin);
    forall k ensures WorkAt(db', k) == WorkAt(db, k) {
      FailKeepsWork(db, ev.op.job, ev.op.backoff, ev.begin, k);
    }
    FailKeepsApart(db, ev.op.job, ev.op.backoff, ev.begin);
    TablesHoldTheSameWork(db, db');
    QuietTransfers(db, db', ev);
  }

  lemma ReplayTransfers(db: Db, ev: Event)
    requires JobsOk(db, ev.clock) && ev.op.ReplayDeadLetters?
    ensures Transfers(db, Replay(db, ev.op.selected, ev.begin), [], ev)
  {
    hide Replay, WorkAt, Transfers, Owned;
    var db' := Replay(db, ev.op.selected, ev.begin);
    forall k ensures WorkAt(db', k) == WorkAt(db, k) {
      ReplayKeepsWork(db, ev.op.selected, ev.begin, k);
    }
    ReplayKeepsApart(db, ev.op.selected, ev.begin);
    TablesHoldTheSameWork(db, db');
    QuietTransfers(db, db', ev);
  }

  /** Enqueueing a job that owns nothing. */
  lemma EnqueueTransfers(db: Db, db': Db, job: JobId, ev: Event)
    requires JobsOk(db, ev.clock) && Timely(db, ev.clock) && FreshJob(db, job)
    requires db'.deadLetters == db.deadLetters && db'.notifications == db.notifications
    requires db'.jobs == db.jobs || (job in db'.jobs && db'.jobs == db.jobs[job := db'.jobs[job]] && !db'.jobs[job].work.Deliver?)
    requires ScheduledBy(ev) == []
    ensures Transfers(db, db', [], ev)
  {
    if db'.jobs != db.jobs {
      AddingIdleJob(db, job, db'.jobs[job], ev.clock);
      SameTables(db.(jobs := db'.jobs), db');
    } else {
      SameTables(db, db');
    }
    QuietTransfers(db, db', ev);
  }

  /** Steps that leave both job tables alone. */
  lemma TableTransfers(db: Db, ev: Event)
    requires RowsHaveCounters(db)
    requires ev.op.UpsertSubscriber? || ev.op.NewBroadcast? || ev.op.FlipNotification? || ev.op.FlipBroadcastItem?
          || ev.op.MarkAllRead? || ev.op.MarkAllSeen? || ev.op.ArchiveEverything? || ev.op.Crash?
    ensures Transfers(db, Apply(db, ev), [], ev)
  {
    var db' := Apply(db, ev);
    SameTables(db, db');
    QuietTransfers(db, db', ev);
  }

  lemma MoveTransfers(db: Db, ev: Event)
    requires RowsHaveCounters(db) && ev.op.MoveNotifications?
    ensures Transfers(db, Move(db, ev.op.src, ev.op.dst, ev.op.ids, ev.begin), [], ev)
  {
    var db' := Move(db, ev.op.src, ev.op.dst, ev.op.ids, ev.begin);
    SameTables(db, db');
    QuietTransfers(db, db', ev);
  }

  lemma WorkStepTransfers(db: Db, ev: Event)
    requires WellFormed(db, ev.clock) && ev.op.Work?
    ensures Transfers(db, RunJob(db, ev.op.job, ev.begin), BumpedBy(db, ev), ev)
  {
    if !Claims(db, ev.op.job, ev.begin) {
      QuietTransfers(db, db, ev);
    } else if db.jobs[ev.op.job].work.Deliver? {
      DeliverTransfers(db, ev);
    } else {
      IdleWorkTransfers(db, ev);
    }
  }

  lemma RequestTransfers(db: Db, ev: Event)
    requires JobsOk(db, ev.clock) && Timely(db, ev.clock) && ev.op.ArchiveReadItems? && FreshJob(db, ev.op.job)
    ensures Transfers(db, RequestArchiveRead(db, ev.op.s, ev.op.job, ev.begin, ev.clock), [], ev)
  {
    hide Transfers, Owned, JobsOk, Timely;
    EnqueueTransfers(db, RequestArchiveRead(db, ev.op.s, ev.op.job, ev.begin, ev.clock), ev.op.job, ev);
  }

  lemma PreferencesTransfers(db: Db, ev: Event)
    requires JobsOk(db, ev.clock) && Timely(db, ev.clock) && ev.op.SetPreferences? && FreshJob(db, ev.op.job)
    ensures Transfers(db, WritePreferences(db, ev.op.s, ev.op.entries, ev.op.job, ev.begin), [], ev)
  {
    hide Transfers, Owned, JobsOk, Timely, WritePreferences;
    PreferencesEnqueue(db, ev.op.s, ev.op.entries, ev.op.job, ev.begin);
    EnqueueTransfers(db, WritePreferences(db, ev.op.s, ev.op.entries, ev.op.job, ev.begin), ev.op.job, ev);
  }

  lemma PreferencesEnqueue(db: Db, s: SubId, entries: seq<Preference>, job: JobId, begin: Time)
    ensures
      var db' := WritePreferences(db, s, entries, job, begin);
      && db'.deadLetters == db.deadLetters && db'.notifications == db.notifications
      && (db'.jobs == db.jobs
          || (job in db'.jobs && db'.jobs == db.jobs[job := db'.jobs[job]] && !db'.jobs[job].work.Deliver?))
  {
    hide TouchesARow, WriteMany, WellFormedWrite;
    var rebuild := Job(CounterRebuild(s), begin, 0, MAX_ATTEMPTS);
    var db' := WritePreferences(db, s, entries, job, begin);
    assert db'.jobs == db.jobs || db'.jobs == db.jobs[job := rebuild];
    hide WritePreferences;
    assert db.jobs[job := rebuild][job] == rebuild;
  }

  lemma StepTransfers(db: Db, clock: Time, ev: Event)
    requires WellFormed(db, ev.clock) && Enabled(db, clock, ev)
    ensures Transfers(db, Apply(db, ev), BumpedBy(db, ev), ev)
  {
    hide Transfers, Owned, Create, RunJob, Move, FailJob, Replay, RequestArchiveRead, WritePreferences, JobsOk, Timely;
    match ev.op
    case CreateNotifications(_, _, _, _, _) => CreateStepTransfers(db, clock, ev);
    case Work(_) => WorkStepTransfers(db, ev);
    case Fail(_, _) => FailTransfers(db, ev);
    case ReplayDeadLetters(_) => ReplayTransfers(db, ev);
    case ArchiveReadItems(_, _) => RequestTransfers(db, ev);
    case SetPreferences(_, _, _) => PreferencesTransfers(db, ev);
    case MoveNotifications(_, _, _) => MoveTransfers(db, ev);
    case _ => TableTransfers(db, ev);
  }

  /** Counted once the moment it is released, by whichever step releases it. */
  lemma OneStep(db: Db, db': Db, bumped: seq<NotifId>, ev: Event, x: NotifId)
    requires OwnedAreScheduled(db) && Transfers(db, db', bumped, ev)
    ensures OwnedAreScheduled(db')
    ensures
      var before := if Scheduled(db, x) && !Owned(db, x) then 1 else 0;
      var after := if Scheduled(db', x) && !Owned(db', x) then 1 else 0;
      after == before + if x in bumped then 1 else 0
  {
  }

  /**
   After any run, a notification has been in exactly one committed bump chunk if it
   was scheduled and no queued or parked job owns it any more, and in none otherwise.
   */
  lemma {:induction false} BumpedExactlyOnce(evs: seq<Event>, x: NotifId)
    requires IsRun(evs)
    ensures OwnedAreScheduled(After(evs))
    ensures BumpCount(evs, x) == if Scheduled(After(evs), x) && !Owned(After(evs), x) then 1 else 0
  {
    hide Apply;
    if evs != [] {
      var init, ev := evs[..|evs| - 1], evs[|evs| - 1];
      BumpedExactlyOnce(init, x);
      CountersAreExact(init);
      LaterClock(After(init), ClockAfter(init), ev.clock);
      StepTransfers(After(init), ClockAfter(init), ev);
      OneStep(After(init), After(evs), BumpedBy(After(init), ev), ev, x);
    }
  }

  // ---------------------------------------------------------------- the life of a job

  /** Queued or parked. */
  function Live(db: Db): set<JobId> {
    db.jobs.Keys + db.deadLetters.Keys
  }

  /** The id an event may enqueue a new job under. */
  function NewJob(ev: Event): set<JobId> {
    match ev.op
    case CreateNotifications(_, _, _, _, job) => {job}
    case ArchiveReadItems(_, job) => {job}
    case SetPreferences(_, _, job) => {job}
    case _ => {}
  }

  /** The id an event may finish: a claim deletes its job, and nothing else deletes any. */
  function MayFinish(ev: Event): set<JobId> {
    if ev.op.Work? then {ev.op.job} else {}
  }

  /** Every id that has ever been a job's. */
  ghost function Used(evs: seq<Event>): set<JobId> {
    if evs == [] then {} else Used(evs[..|evs| - 1]) + Live(After(evs))
  }

  /** The jobs that committed claims have completed. */
  ghost function Finished(evs: seq<Event>): set<JobId> {
    if evs == [] then {} else Finished(evs[..|evs| - 1]) + (Live(After(evs[..|evs| - 1])) - Live(After(evs)))
  }

  /** A new job's uuid is one no job ever had. */
  ghost predicate FreshUuids(evs: seq<Event>) {
    evs == [] ||
    var init := evs[..|evs| - 1];
    FreshUuids(init) && NewJob(evs[|evs| - 1]) !! Used(init)
  }

  lemma StepKeepsJobs(db: Db, ev: Event)
    requires RowsHaveCounters(db)
    ensures Live(Apply(db, ev)) <= Live(db) + NewJob(ev)
    ensures Live(db) - Live(Apply(db, ev)) <= MayFinish(ev)
  {
    hide FlipItem, FlipBroadcast, ReadAll, SeenAll, ArchiveAll, Enrol, CreateBroadcast, Create, Move,
         RequestArchiveRead, WritePreferences, RunJob, FailJob, Replay, Live, Quiet;
    match ev.op
    case CreateNotifications(recipients, ids, category, deliverAt, job) =>
      if |ids| == |recipients| {
        CreateEnqueues(db, recipients, ids, category, deliverAt, job, ev.begin);
      }
    case ArchiveReadItems(s, job) => RequestEnqueues(db, s, job, ev.begin, ev.clock);
    case SetPreferences(s, entries, job) => WriteEnqueues(db, s, entries, job, ev.begin);
    case Work(j) => ClaimFinishes(db, j, ev.begin);
    case Fail(j, backoff) => FailKeepsLive(db, j, backoff, ev.begin);
    case ReplayDeadLetters(selected) => ReplayKeepsLive(db, selected, ev.begin);
    case _ => QuietStep(db, ev);
  }

  /** The other transactions touch neither job table. */
  lemma QuietStep(db: Db, ev: Event)
    requires RowsHaveCounters(db) && NewJob(ev) == {} && !ev.op.Work? && !ev.op.Fail? && !ev.op.ReplayDeadLetters?
    ensures Apply(db, ev).jobs == db.jobs && Apply(db, ev).deadLetters == db.deadLetters
    ensures Live(Apply(db, ev)) == Live(db)
  {
    hide FlipItem, FlipBroadcast, ReadAll, SeenAll, ArchiveAll, Enrol, CreateBroadcast, Move, RowsHaveCounters, SameSchedules;
  }

  lemma CreateEnqueues(db: Db, recipients: seq<SubId>, ids: seq<NotifId>, category: Category,
                       deliverAt: Option<Time>, job: JobId, begin: Time)
    requires |ids| == |recipients|
    ensures
      var db' := Create(db, recipients, ids, category, deliverAt, job, begin);
      Live(db) <= Live(db') <= Live(db) + {job}
  {
    hide Enrol, BumpNew, NewRow;
  }

  lemma RequestEnqueues(db: Db, s: SubId, job: JobId, begin: Time, clock: Time)
    ensures Live(db) <= Live(RequestArchiveRead(db, s, job, begin, clock)) <= Live(db) + {job}
  {
  }

  lemma WriteEnqueues(db: Db, s: SubId, entries: seq<Preference>, job: JobId, begin: Time)
    ensures Live(db) <= Live(WritePreferences(db, s, entries, job, begin)) <= Live(db) + {job}
  {
    hide WellFormedWrite, WriteMany, TouchesARow;
  }

  lemma ClaimFinishes(db: Db, j: JobId, begin: Time)
    requires RowsHaveCounters(db)
    ensures Live(RunJob(db, j, begin)) <= Live(db) <= Live(RunJob(db, j, begin)) + {j}
  {
    hide Recount, RunArchiveRead, RunDeliver, SameRowFrame;
    if j in db.jobs && db.jobs[j].work.Deliver? {
      DeliverFinishes(db, j);
    }
  }

  lemma DeliverFinishes(db: Db, j: JobId)
    requires RowsHaveCounters(db) && j in db.jobs && db.jobs[j].work.Deliver?
    ensures RunDeliver(db, j).deadLetters == db.deadLetters
    ensures db.jobs.Keys - {j} <= RunDeliver(db, j).jobs.Keys <= db.jobs.Keys
  {
    hide Bumped, Chunk;
  }

  lemma FailKeepsLive(db: Db, j: JobId, backoff: nat, begin: Time)
    ensures Live(FailJob(db, j, backoff, begin)) == Live(db)
  {
    if j in db.jobs {
      var failed := Failed(db.jobs[j], backoff, begin);
      ParkedKeys(db.jobs, db.deadLetters, j, failed);
      hide Failed;
      if failed.attempts >= failed.maxAttempts {
        assert FailJob(db, j, backoff, begin).jobs == db.jobs - {j};
        assert FailJob(db, j, backoff, begin).deadLetters == db.deadLetters[j := failed];
      } else {
        assert FailJob(db, j, backoff, begin) == db.(jobs := db.jobs[j := failed]);
      }
      hide FailJob;
    }
  }

  lemma ParkedKeys(jobs: map<JobId, Job>, deadLetters: map<JobId, Job>, j: JobId, job: Job)
    requires j in jobs
    ensures (jobs - {j}).Keys + deadLetters[j := job].Keys == jobs.Keys + deadLetters.Keys
    ensures jobs[j := job].Keys == jobs.Keys
  {
  }

  lemma ReplayKeepsLive(db: Db, selected: set<JobId>, begin: Time)
    ensures Live(Replay(db, selected, begin)) == Live(db)
  {
    hide Requeued;
  }

  /**
   Every id ever given to a job is that of a job queued, parked or finished, and of only
   one of these: a finished job never comes back.
   */
  lemma {:induction false} JobsArePartitioned(evs: seq<Event>)
    requires IsRun(evs) && FreshUuids(evs)
    ensures
      var queued, parked := After(evs).jobs.Keys, After(evs).deadLetters.Keys;
      && queued !! parked && (queued + parked) !! Finished(evs)
      && queued + parked + Finished(evs) == Used(evs)
  {
    hide Live, NewJob, MayFinish;
    CountersAreExact(evs);
    if evs != [] {
      var init, ev := evs[..|evs| - 1], evs[|evs| - 1];
      JobsArePartitioned(init);
      StepKeepsJobs(After(init), ev);
      LiveIsBoth(After(init));
    }
    LiveIsBoth(After(evs));
  }

  lemma LiveIsBoth(db: Db)
    ensures Live(db) == db.jobs.Keys + db.deadLetters.Keys
  {
  }
}
