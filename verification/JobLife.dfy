/**
 The life of one job: due when it was asked for, done after as many claims as it has
 chunks, retried while it has attempts left, parked when it has none, and after a replay
 as good as new.
 */
module JobLife {
  import opened Wrappers
  import opened InboxState
  import opened InboxSteps
  import opened InboxInvariant
  import opened InboxRuns

  // ---------------------------------------------------------------- enqueued

  /** A job as it comes out of an enqueue: untried, with ten attempts, and due from `at` on. */
  predicate IsFresh(db: Db, j: JobId, work: Work, at: Time) {
    && j in db.jobs && db.jobs[j].work == work && db.jobs[j].runAt == at
    && db.jobs[j].attempts == 0 && db.jobs[j].maxAttempts == 10
  }

  /** Each request that leaves work behind leaves a fresh job: a delivery due with its rows, the others at once. */
  lemma EnqueuedJobs(db: Db, ev: Event)
    requires RowsHaveCounters(db)
    ensures
      var db' := Apply(db, ev);
      match ev.op
      case CreateNotifications(subs, ids, _, deliverAt, job) =>
        |ids| == |subs| && deliverAt.Some? ==> IsFresh(db', job, Deliver(ids, 0), deliverAt.value)
      case SetPreferences(s, entries, job) =>
        db'.preferences != db.preferences ==> IsFresh(db', job, CounterRebuild(s), ev.begin)
      case ArchiveReadItems(s, job) =>
        s in db.counters ==> IsFresh(db', job, ArchiveRead(s, ev.clock, DirectPhase, FIRST_KEY), ev.begin)
      case _ => true
  {
    hide Create, WritePreferences, IsFresh;
    match ev.op
    case CreateNotifications(subs, ids, category, deliverAt, job) =>
      if |ids| == |subs| && deliverAt.Some? {
        DeliveryIsQueued(db, subs, ids, category, deliverAt.value, job, ev.begin);
      }
    case SetPreferences(s, entries, job) => ChangeIsQueued(db, s, entries, job, ev.begin);
    case ArchiveReadItems(s, job) => RequestIsQueued(db, s, job, ev.begin, ev.clock);
    case _ =>
  }

  lemma DeliveryIsQueued(db: Db, subs: seq<SubId>, ids: seq<NotifId>, category: Category, at: Time, job: JobId, begin: Time)
    requires |ids| == |subs|
    ensures IsFresh(Create(db, subs, ids, category, Some(at), job, begin), job, Deliver(ids, 0), at)
  {
    hide Enrol, WithNewRows;
  }

  lemma RequestIsQueued(db: Db, s: SubId, job: JobId, begin: Time, clock: Time)
    ensures s in db.counters ==>
              IsFresh(RequestArchiveRead(db, s, job, begin, clock), job, ArchiveRead(s, clock, DirectPhase, FIRST_KEY), begin)
  {
  }

  lemma ChangeIsQueued(db: Db, s: SubId, entries: seq<Preference>, job: JobId, begin: Time)
    ensures
      var db' := WritePreferences(db, s, entries, job, begin);
      db'.preferences != db.preferences ==> IsFresh(db', job, CounterRebuild(s), begin)
  {
    if !TouchesARow(db.preferences, s, entries) {
      UntouchedMeansUnchanged(db.preferences, s, entries);
    }
    hide WellFormedWrite, TouchesARow, WriteMany;
  }

  // ---------------------------------------------------------------- claimed

  /** One claim per 500 ids, and one for none. */
  function DeliverClaims(n: nat): nat {
    if n == 0 then 1 else (n + 499) / 500
  }

  /** A claim of a deliver job: 500 ids on, or gone. */
  lemma DeliverClaim(db: Db, j: JobId, now: Time)
    requires RowsHaveCounters(db) && j in db.jobs && db.jobs[j].runAt <= now && db.jobs[j].work.Deliver?
    requires db.jobs[j].work.offset <= |db.jobs[j].work.ids|
    ensures
      var work, db' := db.jobs[j].work, Apply(db, Event(now, now, Work(j)));
      if work.offset + 500 < |work.ids|
      then j in db'.jobs && db'.jobs[j] == db.jobs[j].(work := Deliver(work.ids, work.offset + 500))
      else j !in db'.jobs
  {
    hide Bumped;
  }

  /** A due deliver job is gone after exactly as many claims as it has chunks left. */
  lemma {:induction false} DeliverEnds(db: Db, j: JobId, times: seq<Time>)
    requires RowsHaveCounters(db) && j in db.jobs && db.jobs[j].work.Deliver?
    requires db.jobs[j].work.offset <= |db.jobs[j].work.ids| && forall t | t in times :: db.jobs[j].runAt <= t
    ensures j in ClaimedAt(db, j, times).jobs <==> |times| < DeliverClaims(|db.jobs[j].work.ids| - db.jobs[j].work.offset)
    decreases |times|
  {
    hide Apply;
    if times != [] {
      assert times[0] in times && forall t | t in times[1..] :: t in times;
      var db' := Apply(db, Event(times[0], times[0], Work(j)));
      DeliverClaim(db, j, times[0]);
      if j in db'.jobs {
        DeliverEnds(db', j, times[1..]);
      } else {
        GoneForGood(db', j, times[1..]);
      }
    }
  }

  /** A scheduled create, from the request to its last chunk. */
  lemma ScheduledIsDelivered(db: Db, ev: Event, times: seq<Time>)
    requires RowsHaveCounters(db) && ev.op.CreateNotifications? && ev.op.deliverAt.Some?
    requires CreateReady(db, ev.op.recipients, ev.op.ids, ev.op.job)
    requires forall t | t in times :: ev.op.deliverAt.value <= t
    ensures ev.op.job in ClaimedAt(Apply(db, ev), ev.op.job, times).jobs <==> |times| < DeliverClaims(|ev.op.ids|)
  {
    EnqueuedJobs(db, ev);
    hide Apply;
    DeliverEnds(Apply(db, ev), ev.op.job, times);
  }

  // ---------------------------------------------------------------- failed, parked, replayed

  datatype Failure = Failure(at: Time, backoff: nat)

  /** One failed claim after another. */
  function FailedAt(db: Db, j: JobId, failures: seq<Failure>): Db
    decreases |failures|
  {
    if failures == [] then db
    else
      var n := |failures| - 1;
      FailJob(FailedAt(db, j, failures[..n]), j, failures[n].backoff, failures[n].at)
  }

  /** The job is in the queue with this many attempts behind it. */
  predicate Queued(db: Db, j: JobId, work: Work, attempts: nat, maxAttempts: nat) {
    && j in db.jobs && j !in db.deadLetters
    && db.jobs[j].work == work && db.jobs[j].attempts == attempts && db.jobs[j].maxAttempts == maxAttempts
  }

  /** The job is parked, cursor included. */
  predicate ParkedJob(db: Db, j: JobId, work: Work) {
    j !in db.jobs && j in db.deadLetters && db.deadLetters[j].work == work
  }

  /** A job stays in the queue, backed off, until its attempts are used up; then it is parked and stays so. */
  lemma {:induction false} ParkedWhenSpent(db: Db, j: JobId, work: Work, attempts: nat, maxAttempts: nat, failures: seq<Failure>)
    requires Queued(db, j, work, attempts, maxAttempts) && attempts < maxAttempts
    ensures
      var db' := FailedAt(db, j, failures);
      if attempts + |failures| < maxAttempts
      then
        && Queued(db', j, work, attempts + |failures|, maxAttempts)
        && (failures != [] ==>
              db'.jobs[j].runAt == failures[|failures| - 1].at + failures[|failures| - 1].backoff)
      else ParkedJob(db', j, work)
    decreases |failures|
  {
    if failures != [] {
      ParkedWhenSpent(db, j, work, attempts, maxAttempts, failures[..|failures| - 1]);
    }
  }

  /** A replayed job is due at once with its cursor kept, and takes as many failures to park again as a new one. */
  lemma ReplayStartsOver(db: Db, ev: Event, j: JobId, failures: seq<Failure>)
    requires RowsHaveCounters(db) && ev.op.ReplayDeadLetters? && j in ev.op.selected
    requires j in db.deadLetters && j !in db.jobs && 0 < db.deadLetters[j].maxAttempts
    ensures
      var job, db1 := db.deadLetters[j], Apply(db, ev);
      && Queued(db1, j, job.work, 0, job.maxAttempts)
      && db1.jobs[j].runAt == ev.begin
      && (ParkedJob(FailedAt(db1, j, failures), j, job.work) <==> job.maxAttempts <= |failures|)
  {
    var job := db.deadLetters[j];
    assert Apply(db, ev) == Replay(db, ev.op.selected, ev.begin);
    hide Apply;
    ParkedWhenSpent(Replay(db, ev.op.selected, ev.begin), j, job.work, 0, job.maxAttempts, failures);
  }

  /** Jobs nobody selected stay where they are. */
  lemma ReplayLeavesOthers(db: Db, ev: Event, j: JobId)
    requires RowsHaveCounters(db) && ev.op.ReplayDeadLetters? && j !in ev.op.selected
    ensures
      var db1 := Apply(db, ev);
      && (j in db1.jobs <==> j in db.jobs) && (j in db.jobs ==> db1.jobs[j] == db.jobs[j])
      && (j in db1.deadLetters <==> j in db.deadLetters) && (j in db.deadLetters ==> db1.deadLetters[j] == db.deadLetters[j])
  {
    assert Apply(db, ev) == Replay(db, ev.op.selected, ev.begin);
    hide Apply;
    assert j !in ev.op.selected * db.deadLetters.Keys;
  }
}
