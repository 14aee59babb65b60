/**
 Where a counter is not exact: for each guard of the run theorem, when exactly the step
 behind it leaves a wrong number, and a run from the empty tables in which it does.
 */
module InboxAccidents {
  import opened Wrappers
  import opened InboxState
  import opened InboxSteps
  import opened Seqs
  import opened InboxInvariant
  import opened WorkerInvariant
  import opened InboxRuns
  import opened InboxGuarantees

  // ---------------------------------------------------------------- recounts

  /** The same for the claim of the job that recounts: giving the job up changes no count. */
  lemma RebuildIsExactIff(db: Db, j: JobId, s: SubId, begin: Time)
    requires RowsHaveCounters(db) && s in db.counters
    requires j in db.jobs && db.jobs[j].work == CounterRebuild(s) && db.jobs[j].runAt <= begin
    ensures
      var db' := RunJob(db, j, begin);
      && db'.jobs == db.jobs - {j} && db'.deadLetters == db.deadLetters && s in db'.counters
      && db'.notifications == db.notifications
      && (UnreadIsExact(db', s) <==> UnreadErrorsCancel(db, s, begin))
      && (UnseenIsExact(db', s) <==> UnseenErrorsCancel(db, s, begin))
  {
    var mid := Recount(db, s, begin);
    var db' := mid.(jobs := db.jobs - {j});
    assert RunJob(db, j, begin) == db';
    RecountIsExactIff(db, s, begin);
    DroppingIdleJob(mid, db', j);
    hide Recount, Owned, UnreadErrorsCancel, UnseenErrorsCancel;
    CountsFrame(mid, db', s);
  }

  lemma DroppingIdleJob(db: Db, db': Db, j: JobId)
    requires j in db.jobs && !db.jobs[j].work.Deliver? && db' == db.(jobs := db.jobs - {j})
    ensures forall x :: Owned(db', x) == Owned(db, x)
  {
    forall x ensures Pending(db', x) == Pending(db, x) {
      if k :| k in db.jobs && Owns(db.jobs[k], x) {
        assert k in db'.jobs && Owns(db'.jobs[k], x);
      }
    }
  }

  // ---------------------------------------------------------------- moves

  lemma RowOfTheSource(db: Db, src: SubId, dst: SubId, ids: seq<NotifId>, begin: Time, id: NotifId)
    requires RowsHaveCounters(db) && src in db.counters && src != dst && id in db.notifications
    ensures
      var mid := BeforeRecounts(db, src, dst, ids, begin);
      && id in mid.notifications
      && (mid.notifications[id].subscriber == src <==>
          db.notifications[id].subscriber == src && !Moves(db, src, ids, id, begin))
      && (mid.notifications[id].subscriber == src ==> mid.notifications[id] == db.notifications[id])
  {
    hide Pending, CopiedPreferences;
    var db1 := Enrol(db, {src, dst}, begin);
    assert Moves(db1, src, ids, id, begin) == Moves(db, src, ids, id, begin) by {
      EnrolKeepsMoves(db, src, dst, ids, begin);
    }
  }

  /** The rows of `s` are those of before but for some that left, and count as before. */
  ghost predicate OnlyLeft(db: Db, mid: Db, s: SubId, left: set<NotifId>)
    requires RowsHaveCounters(db) && RowsHaveCounters(mid)
  {
    && mid.notifications.Keys == db.notifications.Keys
    && forall id | id in db.notifications ::
         && (mid.notifications[id].subscriber == s <==> db.notifications[id].subscriber == s && id !in left)
         && (mid.notifications[id].subscriber == s ==>
              && mid.notifications[id] == db.notifications[id]
              && CountsUnread(mid, mid.notifications[id]) == CountsUnread(db, db.notifications[id])
              && CountsUnseen(mid, mid.notifications[id]) == CountsUnseen(db, db.notifications[id]))
  }

  lemma ErrorsWithoutThoseWhoLeft(db: Db, mid: Db, s: SubId, left: set<NotifId>, now: Time)
    requires RowsHaveCounters(db) && RowsHaveCounters(mid) && OnlyLeft(db, mid, s, left)
    requires mid.jobs == db.jobs && mid.deadLetters == db.deadLetters
    requires forall id | id in left :: id in db.notifications && db.notifications[id].visibleAt <= now
    ensures ParkedUnread(mid, s, now) == ParkedUnread(db, s, now) - left
    ensures LateUnread(mid, s, now) == LateUnread(db, s, now)
    ensures ParkedUnseen(mid, s, now) == ParkedUnseen(db, s, now) - left
    ensures LateUnseen(mid, s, now) == LateUnseen(db, s, now)
  {
    assert forall x :: Pending(mid, x) == Pending(db, x);
    assert forall x :: Parked(mid, x) == Parked(db, x);
    hide Pending, Parked, CountsUnread, CountsUnseen;
  }

  lemma CountsOfTheSource(db: Db, mid: Db, src: SubId, row: Row)
    requires src in db.counters && src in mid.counters && mid.counters[src] == db.counters[src]
    requires row.subscriber == src && Muted(mid.preferences, src, row.category) == Muted(db.preferences, src, row.category)
    ensures CountsUnread(mid, row) == CountsUnread(db, row) && CountsUnseen(mid, row) == CountsUnseen(db, row)
  {
  }

  lemma MutesOfTheSource(db: Db, src: SubId, dst: SubId, ids: seq<NotifId>, begin: Time, category: Category)
    requires src != dst
    ensures Muted(BeforeRecounts(db, src, dst, ids, begin).preferences, src, category) == Muted(db.preferences, src, category)
  {
    CopyingLeavesOtherMutes(db.preferences, src, dst, src, category);
  }

  lemma MovedLeave(db: Db, src: SubId, dst: SubId, ids: seq<NotifId>, begin: Time)
    requires RowsHaveCounters(db) && src in db.counters && src != dst
    ensures OnlyLeft(db, BeforeRecounts(db, src, dst, ids, begin), src,
                     MovedIds(db, src, ids, begin))
  {
    var mid := BeforeRecounts(db, src, dst, ids, begin);
    assert mid.counters[src] == db.counters[src] && mid.notifications.Keys == db.notifications.Keys;
    hide BeforeRecounts, CountsUnread, CountsUnseen, Moves, Muted;
    forall id | id in db.notifications
      ensures mid.notifications[id].subscriber == src <==>
              db.notifications[id].subscriber == src && !Moves(db, src, ids, id, begin)
      ensures mid.notifications[id].subscriber == src ==>
                mid.notifications[id] == db.notifications[id]
                && CountsUnread(mid, mid.notifications[id]) == CountsUnread(db, db.notifications[id])
                && CountsUnseen(mid, mid.notifications[id]) == CountsUnseen(db, db.notifications[id])
    {
      RowOfTheSource(db, src, dst, ids, begin, id);
      if mid.notifications[id].subscriber == src {
        MutesOfTheSource(db, src, dst, ids, begin, db.notifications[id].category);
        CountsOfTheSource(db, mid, src, db.notifications[id]);
      }
    }
  }

  /**
   What the source's condition says of the tables before the move: a parked row that is
   itself named moves away, a late row always stays.
   */
  lemma SourceOfAMove(db: Db, src: SubId, dst: SubId, ids: seq<NotifId>, begin: Time)
    requires RowsHaveCounters(db) && MoveHappens(db, src, dst, ids, begin)
    ensures
      var mid := BeforeRecounts(db, src, dst, ids, begin);
      && ParkedUnread(mid, src, begin) == (set id | id in ParkedUnread(db, src, begin) && id !in ids)
      && LateUnread(mid, src, begin) == LateUnread(db, src, begin)
      && ParkedUnseen(mid, src, begin) == (set id | id in ParkedUnseen(db, src, begin) && id !in ids)
      && LateUnseen(mid, src, begin) == LateUnseen(db, src, begin)
  {
    hide OnlyLeft, Pending, Parked, CountsUnread, CountsUnseen;
    var mid := BeforeRecounts(db, src, dst, ids, begin);
    var left := MovedIds(db, src, ids, begin);
    MovedLeave(db, src, dst, ids, begin);
    ErrorsWithoutThoseWhoLeft(db, mid, src, left, begin);
    assert ParkedUnread(db, src, begin) - left == set id | id in ParkedUnread(db, src, begin) && id !in ids;
    assert ParkedUnseen(db, src, begin) - left == set id | id in ParkedUnseen(db, src, begin) && id !in ids;
  }

  // ---------------------------------------------------------------- building runs

  lemma OneMore(evs: seq<Event>, ev: Event, db: Db, db': Db)
    requires IsRun(evs) && After(evs) == db && RowsHaveCounters(db)
    requires Enabled(db, ClockAfter(evs), ev) && Apply(db, ev) == db'
    ensures IsRun(evs + [ev]) && After(evs + [ev]) == db' && ClockAfter(evs + [ev]) == ev.clock
  {
    assert (evs + [ev])[..|evs|] == evs;
  }

  /** The run theorem, read backwards: a wrong counter was announced by a guard. */
  lemma WrongMeansDirty(evs: seq<Event>, s: SubId)
    requires IsRun(evs) && s in After(evs).counters && !Stale(After(evs), s) && !UnreadIsExact(After(evs), s)
    ensures (s, UnreadCount) in Dirty(evs)
  {
    CountersAreExact(evs);
  }

  const SUBSCRIBE := Event(0, 0, UpsertSubscriber(0, 0))

  /** Subscriber 0 with these counts and rows, and nothing else. */
  function Alone(count: int, rows: map<NotifId, Row>): Db {
    EMPTY_DB.(subscribers := map[0 := 0], notifications := rows,
              counters := map[0 := Counters(count, count, EPOCH, EPOCH, EPOCH)])
  }

  function Plain(at: Time): Row {
    NewRow(0, "c", None, at)
  }

  lemma Subscribed()
    ensures IsRun([SUBSCRIBE]) && After([SUBSCRIBE]) == Alone(0, map[]) && ClockAfter([SUBSCRIBE]) == 0
  {
    assert IsRun([]) && After([]) == EMPTY_DB;
    assert Apply(EMPTY_DB, SUBSCRIBE).counters == Alone(0, map[]).counters;
    assert Apply(EMPTY_DB, SUBSCRIBE).subscribers == Alone(0, map[]).subscribers;
    OneMore([], SUBSCRIBE, EMPTY_DB, Alone(0, map[]));
    assert [] + [SUBSCRIBE] == [SUBSCRIBE];
  }

  lemma Enrolled(db: Db, begin: Time)
    requires db.subscribers.Keys == {0} && db.counters.Keys == {0}
    ensures Enrol(db, (set s | s in [0]), begin) == db
  {
    assert Enrol(db, (set s | s in [0]), begin).subscribers == db.subscribers;
    assert Enrol(db, (set s | s in [0]), begin).counters == db.counters;
  }

  lemma WithOneRow(db: Db, id: NotifId, deliverAt: Option<Time>, begin: Time)
    requires id !in db.notifications
    ensures WithNewRows(db, [0], [id], "c", deliverAt, begin)
         == db.(notifications := db.notifications[id := NewRow(0, "c", deliverAt, begin)])
  {
    assert (set x | x in [id]) == {id};
    assert IndexOf([id], id) == 0;
    assert WithNewRows(db, [0], [id], "c", deliverAt, begin).notifications
        == db.notifications[id := NewRow(0, "c", deliverAt, begin)];
  }

  /** An immediate notification for subscriber 0. */
  function Notify(at: Time, id: NotifId, job: JobId): Event {
    Event(at, at, CreateNotifications([0], [id], "c", None, job))
  }

  lemma BothCountOne(db: Db, id: NotifId, at: Time, count: int)
    requires db.counters == map[0 := Counters(count, count, EPOCH, EPOCH, EPOCH)]
    requires at > EPOCH && !Muted(db.preferences, 0, "c")
    ensures (map s | s in db.counters :: if s in [0] then BumpNew(db, db.counters[s], s, "c", at) else db.counters[s])
         == map[0 := Counters(count + 1, count + 1, EPOCH, EPOCH, EPOCH)]
  {
  }

  lemma Notified(db: Db, clock: Time, at: Time, id: NotifId, job: JobId, count: int)
    requires RowsHaveCounters(db) && clock <= at && FreshJob(db, job)
    requires db.subscribers.Keys == {0} && db.counters == map[0 := Counters(count, count, EPOCH, EPOCH, EPOCH)]
    requires id !in db.notifications && at > EPOCH && !Muted(db.preferences, 0, "c")
    ensures Enabled(db, clock, Notify(at, id, job))
    ensures
      Apply(db, Notify(at, id, job))
        == db.(notifications := db.notifications[id := Plain(at)],
               counters := map[0 := Counters(count + 1, count + 1, EPOCH, EPOCH, EPOCH)])
  {
    Enrolled(db, at);
    WithOneRow(db, id, None, at);
    BothCountOne(db, id, at, count);
    hide Enrol, WithNewRows, BumpNew, Muted;
  }

  lemma Scheduled(db: Db, id: NotifId, at: Time, job: JobId, begin: Time)
    requires db.subscribers.Keys == {0} && db.counters.Keys == {0} && id !in db.notifications
    ensures
      Create(db, [0], [id], "c", Some(at), job, begin)
        == db.(notifications := db.notifications[id := NewRow(0, "c", Some(at), begin)],
               jobs := db.jobs[job := Job(Deliver([id], 0), at, 0, MAX_ATTEMPTS)])
  {
    Enrolled(db, begin);
    WithOneRow(db, id, Some(at), begin);
    hide Enrol, WithNewRows;
  }

  /** Muting a category nothing has: it still asks for a recount. */
  function Mute(at: Time, job: JobId): Event {
    Event(at, at, SetPreferences(0, [Preference("d", "in_app", false)], job))
  }

  lemma MuteAsksForRecount(db: Db, at: Time, job: JobId)
    requires RowsHaveCounters(db) && db.preferences == map[]
    ensures
      Apply(db, Mute(at, job)) == db.(preferences := map[(0, "d") := false],
                                      jobs := db.jobs[job := Job(CounterRebuild(0), at, 0, MAX_ATTEMPTS)])
  {
    var entries := [Preference("d", "in_app", false)];
    assert WellFormedWrite(entries);
    assert entries[..0] == [];
    assert WriteMany(map[], 0, entries) == map[(0, "d") := false];
    assert (0, "d") in WriteOne(WriteMany(map[], 0, entries[..0]), 0, entries[0]);
    assert TouchesARow(map[], 0, entries);
  }

  // ---------------------------------------------------------------- an early recount

  const LATE_CREATE := Notify(5, 1, 8)
  const EARLY_REBUILD := Event(3, 6, Work(7))
  const EARLY_RUN := [SUBSCRIBE] + [Mute(1, 7)] + [LATE_CREATE] + [EARLY_REBUILD]

  const MUTED_DB := Alone(0, map[]).(preferences := map[(0, "d") := false],
                                     jobs := map[7 := Job(CounterRebuild(0), 1, 0, MAX_ATTEMPTS)])
  const LATE_DB := MUTED_DB.(notifications := map[1 := Plain(5)], counters := Alone(1, map[]).counters)

  lemma CreatedLate()
    ensures Enabled(MUTED_DB, 1, LATE_CREATE) && Apply(MUTED_DB, LATE_CREATE) == LATE_DB
  {
    hide Create;
    Notified(MUTED_DB, 1, 5, 1, 8, 0);
    hide Apply, Enabled;
  }

  lemma LateErrors()
    ensures RowsHaveCounters(LATE_DB) && !UnreadErrorsCancel(LATE_DB, 0, 3)
  {
    assert 1 in LateUnread(LATE_DB, 0, 3) && ParkedUnread(LATE_DB, 0, 3) == {};
  }

  lemma RebuiltTooEarly()
    ensures RowsHaveCounters(LATE_DB) && Enabled(LATE_DB, 5, EARLY_REBUILD)
    ensures
      var db' := Apply(LATE_DB, EARLY_REBUILD);
      0 in db'.counters && !Stale(db', 0) && NothingParked(db', 0) && !UnreadIsExact(db', 0)
  {
    hide UnreadErrorsCancel, UnseenErrorsCancel, RunJob;
    LateErrors();
    RebuildIsExactIff(LATE_DB, 7, 0, 3);
  }

  /**
   A recount that began (at 3) before a create (at 5) that commits first: in the run, no
   recount is owed any more, nothing is parked, and the new row is in no count.
   */
  lemma EarlyRecountLosesARow()
    ensures IsRun(EARLY_RUN) && 0 in After(EARLY_RUN).counters
    ensures !Stale(After(EARLY_RUN), 0) && NothingParked(After(EARLY_RUN), 0) && !UnreadIsExact(After(EARLY_RUN), 0)
    ensures (0, UnreadCount) in Dirty(EARLY_RUN)
  {
    hide Apply, After, IsRun, NothingParked, Stale, ClockAfter, UnreadIsExact, Dirty;
    Subscribed();
    MuteAsksForRecount(Alone(0, map[]), 1, 7);
    OneMore([SUBSCRIBE], Mute(1, 7), Alone(0, map[]), MUTED_DB);
    CreatedLate();
    OneMore([SUBSCRIBE] + [Mute(1, 7)], LATE_CREATE, MUTED_DB, LATE_DB);
    RebuiltTooEarly();
    OneMore([SUBSCRIBE] + [Mute(1, 7)] + [LATE_CREATE], EARLY_REBUILD, LATE_DB, Apply(LATE_DB, EARLY_REBUILD));
    WrongMeansDirty(EARLY_RUN, 0);
  }

  // ---------------------------------------------------------------- an early move

  const FIRST := Notify(1, 1, 7)
  const SECOND := Notify(5, 2, 8)
  const EARLY_MOVE := Event(3, 6, MoveNotifications(0, 1, [1]))
  const MOVE_RUN := [SUBSCRIBE] + [FIRST] + [SECOND] + [EARLY_MOVE]

  const FIRST_DB := Alone(1, map[1 := Plain(1)])
  const SECOND_DB := Alone(2, map[1 := Plain(1), 2 := Plain(5)])

  lemma FirstCreated()
    ensures Enabled(Alone(0, map[]), 0, FIRST) && Apply(Alone(0, map[]), FIRST) == FIRST_DB
  {
    Notified(Alone(0, map[]), 0, 1, 1, 7, 0);
    hide Apply, Enabled;
  }

  lemma SecondCreated()
    ensures RowsHaveCounters(FIRST_DB) && Enabled(FIRST_DB, 1, SECOND) && Apply(FIRST_DB, SECOND) == SECOND_DB
  {
    Notified(FIRST_DB, 1, 5, 2, 8, 1);
    hide Apply, Enabled;
  }

  /** Row 2, created at 5, is unread, stays, and is too late for a recount at 3. */
  lemma MovedTooEarly()
    ensures MoveHappens(SECOND_DB, 0, 1, [1], 3)
    ensures
      var db' := Move(SECOND_DB, 0, 1, [1], 3);
      0 in db'.counters && !UnreadIsExact(db', 0)
  {
    var db := SECOND_DB;
    assert Moves(db, 0, [1], 1, 3);
    MoveIsExactIff(db, 0, 1, [1], 3);
    SourceOfAMove(db, 0, 1, [1], 3);
    TooLateAndUnread();
    hide Move, MoveHappens, BeforeRecounts, ParkedUnread, LateUnread;
  }

  lemma TooLateAndUnread()
    ensures RowsHaveCounters(SECOND_DB)
    ensures 2 in LateUnread(SECOND_DB, 0, 3) && ParkedUnread(SECOND_DB, 0, 3) == {}
  {
  }

  lemma MoveApplied()
    ensures RowsHaveCounters(SECOND_DB) && Enabled(SECOND_DB, 5, EARLY_MOVE)
    ensures
      var db' := Apply(SECOND_DB, EARLY_MOVE);
      0 in db'.counters && !Stale(db', 0) && NothingParked(db', 0) && !UnreadIsExact(db', 0)
  {
    hide Move, MoveHappens;
    MovedTooEarly();
  }

  /**
   A move that began (at 3) before a create (at 5) that commits first: its recount of the
   source takes the new row out of the count.
   */
  lemma EarlyMoveLosesARow()
    ensures IsRun(MOVE_RUN) && 0 in After(MOVE_RUN).counters
    ensures !Stale(After(MOVE_RUN), 0) && NothingParked(After(MOVE_RUN), 0) && !UnreadIsExact(After(MOVE_RUN), 0)
    ensures (0, UnreadCount) in Dirty(MOVE_RUN)
  {
    hide Apply, After, IsRun, ClockAfter, NothingParked, Stale, UnreadIsExact, Dirty;
    Subscribed();
    FirstCreated();
    OneMore([SUBSCRIBE], FIRST, Alone(0, map[]), FIRST_DB);
    SecondCreated();
    OneMore([SUBSCRIBE] + [FIRST], SECOND, FIRST_DB, SECOND_DB);
    MoveApplied();
    OneMore([SUBSCRIBE] + [FIRST] + [SECOND], EARLY_MOVE, SECOND_DB, Apply(SECOND_DB, EARLY_MOVE));
    WrongMeansDirty(MOVE_RUN, 0);
  }

  // ---------------------------------------------------------------- parked deliver jobs

  const SCHEDULE := Event(1, 1, CreateNotifications([0], [1], "c", Some(5), 7))
  const CREATE_OTHER := Notify(3, 2, 8)
  const FAIL := Event(6, 6, Fail(7, 0))

  /** Row 1 scheduled for 5, row 2 created at 3, and `n` failures of row 1's deliver job. */
  function Failures(n: nat): seq<Event> {
    if n == 0 then [SUBSCRIBE] + [SCHEDULE] + [CREATE_OTHER] else Failures(n - 1) + [FAIL]
  }

  const TWO := map[1 := NewRow(0, "c", Some(5), 1), 2 := Plain(3)]

  function FailedDb(n: nat): Db {
    Alone(1, TWO).(jobs := map[7 := Job(Deliver([1], 0), if n == 0 then 5 else 6, n, MAX_ATTEMPTS)])
  }

  const PARKED_DB := Alone(1, TWO).(deadLetters := map[7 := Job(Deliver([1], 0), 6, MAX_ATTEMPTS, MAX_ATTEMPTS)])

  const SCHEDULED_DB := Alone(0, map[1 := NewRow(0, "c", Some(5), 1)]).(
    jobs := map[7 := Job(Deliver([1], 0), 5, 0, MAX_ATTEMPTS)])

  lemma ScheduledFirst()
    ensures Enabled(Alone(0, map[]), 0, SCHEDULE) && Apply(Alone(0, map[]), SCHEDULE) == SCHEDULED_DB
  {
    Scheduled(Alone(0, map[]), 1, 5, 7, 1);
    hide Create;
  }

  lemma OtherCreated()
    ensures RowsHaveCounters(SCHEDULED_DB) && Enabled(SCHEDULED_DB, 1, CREATE_OTHER)
    ensures Apply(SCHEDULED_DB, CREATE_OTHER) == FailedDb(0)
  {
    hide Create;
    Notified(SCHEDULED_DB, 1, 3, 2, 8, 0);
    hide Apply, Enabled;
  }

  lemma {:induction false} FailingIsARun(n: nat)
    requires n < MAX_ATTEMPTS
    ensures IsRun(Failures(n)) && After(Failures(n)) == FailedDb(n)
    ensures ClockAfter(Failures(n)) == if n == 0 then 3 else 6
  {
    hide Apply, After, IsRun, ClockAfter;
    if n == 0 {
      Subscribed();
      ScheduledFirst();
      OneMore([SUBSCRIBE], SCHEDULE, Alone(0, map[]), SCHEDULED_DB);
      OtherCreated();
      OneMore([SUBSCRIBE] + [SCHEDULE], CREATE_OTHER, SCHEDULED_DB, FailedDb(0));
    } else {
      FailingIsARun(n - 1);
      OneFailure(n - 1);
      OneMore(Failures(n - 1), FAIL, FailedDb(n - 1), FailedDb(n));
    }
  }

  lemma OneFailure(n: nat)
    requires n < MAX_ATTEMPTS
    ensures RowsHaveCounters(FailedDb(n)) && Enabled(FailedDb(n), if n == 0 then 3 else 6, FAIL)
    ensures Apply(FailedDb(n), FAIL) == if n + 1 < MAX_ATTEMPTS then FailedDb(n + 1) else PARKED_DB
  {
    assert FailJob(FailedDb(n), 7, 0, 6).jobs == if n + 1 < MAX_ATTEMPTS then FailedDb(n + 1).jobs else map[];
  }

  /** The tenth failure parks the job. */
  lemma ParkingIsARun()
    ensures IsRun(Failures(10)) && After(Failures(10)) == PARKED_DB && ClockAfter(Failures(10)) == 6
  {
    hide Apply, After, IsRun, ClockAfter;
    FailingIsARun(9);
    OneFailure(9);
    OneMore(Failures(9), FAIL, FailedDb(9), PARKED_DB);
  }

  const READ := Event(7, 7, FlipNotification(0, 1, FlipRead))
  const REPLAY := Event(8, 8, ReplayDeadLetters({7}))
  const REPLAYED_RUN := Failures(10) + [READ] + [REPLAY]

  const READ_DB := PARKED_DB.(
    counters := map[0 := Counters(0, 1, EPOCH, EPOCH, EPOCH)],
    notifications := map[1 := NewRow(0, "c", Some(5), 1).(readAt := Some(7)), 2 := Plain(3)])
  const REPLAYED_DB := READ_DB.(jobs := map[7 := Job(Deliver([1], 0), 8, 0, MAX_ATTEMPTS)], deadLetters := map[])

  lemma ReadStopsCounting()
    ensures VisibleTo(PARKED_DB, 0, 1, 7) && !Pending(PARKED_DB, 1)
    ensures
      var row := PARKED_DB.notifications[1];
      var read := FlipRow(row, PARKED_DB.counters[0], FlipRead, 7);
      && read == row.(readAt := Some(7)) && CountsUnread(PARKED_DB, row) && !CountsUnread(PARKED_DB, read)
  {
  }

  lemma ReadWhileParked()
    ensures RowsHaveCounters(PARKED_DB) && Enabled(PARKED_DB, 6, READ) && Apply(PARKED_DB, READ) == READ_DB
  {
    ReadStopsCounting();
    hide Pending, CountsUnread, FlipRow, VisibleTo;
    var flipped := FlipItem(PARKED_DB, 0, 1, FlipRead, 7);
    assert flipped.counters == READ_DB.counters;
    assert flipped.notifications == READ_DB.notifications;
    hide FlipItem;
  }

  lemma ReplayStep()
    ensures RowsHaveCounters(READ_DB) && Enabled(READ_DB, 7, REPLAY) && Apply(READ_DB, REPLAY) == REPLAYED_DB
  {
    assert Replay(READ_DB, {7}, 8).jobs == REPLAYED_DB.jobs;
    assert Replay(READ_DB, {7}, 8).deadLetters == map[];
  }

  /** After the replay row 1 has its owner back and row 2, unread, is nobody's. */
  lemma OneAndTwo()
    ensures !Stale(REPLAYED_DB, 0) && NothingParked(REPLAYED_DB, 0)
    ensures RowsHaveCounters(REPLAYED_DB) && 2 in UnreadRows(REPLAYED_DB, 0)
  {
    assert !Owned(REPLAYED_DB, 2);
  }

  /**
   "Nothing parked now" is not enough. The deliver job of row 1 fails ten times and parks,
   its subscriber reads row 1 (the flip sees no owner and takes one off the counter for a
   row that was never counted), the job is replayed. Nothing is parked, nothing is owed,
   and the counter says 0 while row 2 is unread.
   */
  lemma ParkedThenReplayedIsWrong()
    ensures IsRun(REPLAYED_RUN) && 0 in After(REPLAYED_RUN).counters
    ensures !Stale(After(REPLAYED_RUN), 0) && NothingParked(After(REPLAYED_RUN), 0)
    ensures After(REPLAYED_RUN).counters[0].unread == 0 && 2 in UnreadRows(After(REPLAYED_RUN), 0)
    ensures !UnreadIsExact(After(REPLAYED_RUN), 0)
    ensures (0, UnreadCount) in Dirty(REPLAYED_RUN)
  {
    hide Apply, After, IsRun, ClockAfter, Failures, NothingParked, Stale, Dirty;
    ParkingIsARun();
    ReadWhileParked();
    OneMore(Failures(10), READ, PARKED_DB, READ_DB);
    ReplayStep();
    OneMore(Failures(10) + [READ], REPLAY, READ_DB, REPLAYED_DB);
    OneAndTwo();
    WrongMeansDirty(REPLAYED_RUN, 0);
  }

  // ---------------------------------------------------------------- a recount while parked

  const REBUILD := Event(8, 8, Work(9))
  const RECOUNTED_RUN := Failures(10) + [Mute(7, 9)] + [REBUILD]

  const OWED_DB := PARKED_DB.(preferences := map[(0, "d") := false],
                              jobs := map[9 := Job(CounterRebuild(0), 7, 0, MAX_ATTEMPTS)])

  /** Row 1 is visible, unread and, for the recount, nobody's. */
  lemma ParkedErrors()
    ensures RowsHaveCounters(OWED_DB) && !UnreadErrorsCancel(OWED_DB, 0, 8)
  {
    assert Owns(OWED_DB.deadLetters[7], 1) && !Pending(OWED_DB, 1);
    assert 1 in ParkedUnread(OWED_DB, 0, 8) && LateUnread(OWED_DB, 0, 8) == {};
  }

  lemma RecountedWhileParked()
    ensures RowsHaveCounters(OWED_DB) && Enabled(OWED_DB, 7, REBUILD)
    ensures var db' := Apply(OWED_DB, REBUILD); 0 in db'.counters && !Stale(db', 0) && !UnreadIsExact(db', 0)
  {
    hide UnreadErrorsCancel, UnseenErrorsCancel, RunJob;
    ParkedErrors();
    RebuildIsExactIff(OWED_DB, 9, 0, 8);
  }

  /** A recount that runs while a deliver job is parked counts its row too early. */
  lemma ParkedThenRecountedIsWrong()
    ensures IsRun(RECOUNTED_RUN) && 0 in After(RECOUNTED_RUN).counters
    ensures !Stale(After(RECOUNTED_RUN), 0) && !UnreadIsExact(After(RECOUNTED_RUN), 0)
    ensures (0, UnreadCount) in Dirty(RECOUNTED_RUN)
  {
    hide Apply, After, IsRun, ClockAfter, Failures, Stale, UnreadIsExact, Dirty;
    ParkingIsARun();
    MuteAsksForRecount(PARKED_DB, 7, 9);
    OneMore(Failures(10), Mute(7, 9), PARKED_DB, OWED_DB);
    RecountedWhileParked();
    OneMore(Failures(10) + [Mute(7, 9)], REBUILD, OWED_DB, Apply(OWED_DB, REBUILD));
    WrongMeansDirty(RECOUNTED_RUN, 0);
  }
}
