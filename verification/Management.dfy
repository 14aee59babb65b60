/**
 The management plane's transactions, preference writes and the dead-letter queue,
 statement by statement.
 */
module Management {
  import opened Wrappers
  import opened InboxState
  import opened InboxSteps
  import opened Seqs
  import opened Database
  import Sets
  import Worker

  // ---------------------------------------------------------------- creation

  /** `INSERT INTO subscribers / subscriber_counters ... ON CONFLICT DO NOTHING`. */
  method UpsertSubscribers(t: Tables, subs: set<SubId>, now: Time)
    requires t.Valid()
    modifies t`subscribers, t`counters
    ensures t.Valid() && t.State() == Enrol(old(t.State()), subs, now)
  {
    hide Enrol, CursorsInRange;
    EnrolInserts(t.State(), subs, now);
    t.subscribers := Inserted(t.subscribers, subs, now);
    t.counters := Inserted(t.counters, subs, FRESH_COUNTERS);
  }

  /** New rows for the keys that have none. */
  function Inserted<V>(rows: map<SubId, V>, subs: set<SubId>, row: V): (r: map<SubId, V>)
    ensures forall s | s in r :: if s in rows then r[s] == rows[s] else r[s] == row
    ensures r.Keys == rows.Keys + subs
  {
    (map s | s in subs :: row) + rows
  }

  lemma EnrolInserts(db: Db, subs: set<SubId>, now: Time)
    ensures Enrol(db, subs, now)
         == db.(subscribers := Inserted(db.subscribers, subs, now), counters := Inserted(db.counters, subs, FRESH_COUNTERS))
  {
    hide Inserted;
    assert Enrol(db, subs, now).subscribers == Inserted(db.subscribers, subs, now);
    assert Enrol(db, subs, now).counters == Inserted(db.counters, subs, FRESH_COUNTERS);
  }

  /** The conditional increment of an immediate create, in the statement's own columns. */
  function BumpRecipients(db: Db, recipients: seq<SubId>, category: Category, now: Time): (r: map<SubId, Counters>)
    ensures r.Keys == db.counters.Keys
    ensures NonNegative(db.counters) ==> NonNegative(r)
    ensures r == map s | s in db.counters ::
      if s in recipients then BumpNew(db, db.counters[s], s, category, now) else db.counters[s]
  {
    hide Muted;
    map s | s in db.counters ::
      var c := db.counters[s];
      if s !in recipients then c
      else
        var heard := !Muted(db.preferences, s, category);
        c.(unread := c.unread + (if now > c.readWatermark && now > c.archiveWatermark && heard then 1 else 0),
           unseen := c.unseen + (if now > c.seenWatermark && heard then 1 else 0))
  }

  method CreateNotificationsTxn(t: Tables, recipients: seq<SubId>, ids: seq<NotifId>, category: Category,
                                deliverAt: Option<Time>, job: JobId, now: Time)
    requires t.Valid() && |ids| == |recipients|
    modifies t
    ensures t.Valid() && t.State() == Create(old(t.State()), recipients, ids, category, deliverAt, job, now)
  {
    hide Enrol, WithNewRows, BumpNew, BumpRecipients;
    var subs := set s | s in recipients;
    EnrolledHaveCounters(t.State(), subs, now);
    UpsertSubscribers(t, subs, now);
    ghost var enrolled := t.State();
    InsertRows(t, recipients, ids, category, deliverAt, now);
    ghost var inserted := t.State();
    assert inserted == WithNewRows(enrolled, recipients, ids, category, deliverAt, now);
    assert inserted.counters == enrolled.counters && inserted.preferences == enrolled.preferences;
    if deliverAt.None? {
      SameBump(enrolled, inserted, recipients, category, now);
      CountsAreNatural(t);
      hide Tables.Valid, NonNegative;
      t.UpdateCounters(BumpRecipients(t.State(), recipients, category, now));
    } else {
      hide Tables.Valid;
      t.PutJob(job, Job(Deliver(ids, 0), deliverAt.value, 0, MAX_ATTEMPTS));
    }
  }

  lemma CountsAreNatural(t: Tables)
    requires t.Valid()
    ensures NonNegative(t.counters)
  {
  }

  lemma SameBump(db: Db, db': Db, recipients: seq<SubId>, category: Category, now: Time)
    requires db'.counters == db.counters && db'.preferences == db.preferences
    ensures BumpRecipients(db', recipients, category, now) == BumpRecipients(db, recipients, category, now)
  {
  }

  method InsertRows(t: Tables, recipients: seq<SubId>, ids: seq<NotifId>, category: Category,
                    deliverAt: Option<Time>, now: Time)
    requires t.Valid() && |ids| == |recipients| && forall s | s in recipients :: s in t.counters
    modifies t`notifications
    ensures t.Valid() && t.State() == WithNewRows(old(t.State()), recipients, ids, category, deliverAt, now)
  {
    t.notifications := map id | id in t.notifications.Keys + (set x | x in ids) ::
      if id in t.notifications then t.notifications[id]
      else Row(recipients[IndexOf(ids, id)], category, deliverAt,
               if deliverAt.Some? then deliverAt.value else now, None, None, None, None);
  }

  // ---------------------------------------------------------------- moving

  /** The row a move writes, `CASE` by `CASE`. */
  function Rewritten(n: Row, dst: SubId, from: Counters, to: Counters, now: Time): (r: Row)
    ensures r == MovedRow(n, dst, from, to, now) && r.subscriber == dst
  {
    n.(subscriber := dst,
       readAt := if n.readAt.Some? then n.readAt
                 else if n.unreadAt.None? && n.visibleAt <= from.readWatermark then Some(from.readWatermark)
                 else None,
       unreadAt := if n.readAt.None? && (n.unreadAt.Some? || n.visibleAt > from.readWatermark)
                      && n.visibleAt <= to.readWatermark
                   then (if n.unreadAt.Some? then n.unreadAt else Some(now)) else None,
       archivedAt := if n.archivedAt.Some? then n.archivedAt
                     else if n.unarchivedAt.None? && n.visibleAt <= from.archiveWatermark
                     then Some(from.archiveWatermark) else None,
       unarchivedAt := if n.archivedAt.None? && (n.unarchivedAt.Some? || n.visibleAt > from.archiveWatermark)
                          && n.visibleAt <= to.archiveWatermark
                       then (if n.unarchivedAt.Some? then n.unarchivedAt else Some(now)) else None)
  }

  /** `UPDATE notifications SET subscriber_id = ... RETURNING id`. */
  method RewriteRows(t: Tables, src: SubId, dst: SubId, ids: seq<NotifId>, now: Time) returns (moved: set<NotifId>)
    requires t.Valid() && src in t.counters && dst in t.counters
    modifies t`notifications
    ensures t.Valid() && t.notifications == MovedRows(old(t.State()), src, dst, ids, now)
    ensures moved == MovedIds(old(t.State()), src, ids, now)
  {
    hide OwnedIn, CursorsInRange, MovedRow, Rewritten, NonNegative;
    var from, to := t.counters[src], t.counters[dst];
    moved := set id | id in t.notifications && id in ids && t.notifications[id].subscriber == src
                        && t.notifications[id].visibleAt <= now && !OwnedIn(t.jobs, id);
    assert moved == MovedIds(t.State(), src, ids, now);
    hide Moves;
    t.notifications := map id | id in t.notifications ::
      if id in moved then Rewritten(t.notifications[id], dst, from, to, now) else t.notifications[id];
  }

  /** Everything after the upserts: rewrite, copy the mutes, recount both ends. */
  method MoveAndRecount(t: Tables, src: SubId, dst: SubId, ids: seq<NotifId>, now: Time) returns (moved: nat)
    requires t.Valid() && src in t.counters && dst in t.counters
    modifies t
    ensures t.Valid() && moved == |MovedIds(old(t.State()), src, ids, now)|
    ensures t.State() == if moved == 0 then old(t.State())
                         else Recount(Recount(MoveRows(old(t.State()), src, dst, ids, now), src, now), dst, now)
  {
    hide Recount, MovedRows, CopiedPreferences, MovedIds, Tables.Valid, SameSchedules;
    ghost var before := t.State();
    var rows := RewriteRows(t, src, dst, ids, now);
    if rows != {} {
      t.preferences := CopiedPreferences(t.preferences, src, dst);
      Worker.RecountSubscriber(t, src, now);
      Worker.RecountSubscriber(t, dst, now);
    } else {
      NothingMoves(before, src, dst, ids, now);
    }
    return |rows|;
  }

  method MoveNotificationsTxn(t: Tables, src: SubId, dst: SubId, ids: seq<NotifId>, now: Time)
    returns (reply: Reply, moved: nat)
    requires t.Valid()
    modifies t
    ensures t.Valid() && t.State() == Move(old(t.State()), src, dst, ids, now)
    ensures reply == if src == dst || |ids| > 100 then BadRequest else Okay
    ensures reply == BadRequest ==> t.State() == old(t.State())
    ensures moved == if reply == Okay && src in old(t.subscribers) then |MovedIds(old(t.State()), src, ids, now)| else 0
  {
    hide Enrol, Recount, MoveRows, MovedIds, Moves, CursorsInRange;
    if dst == src || |ids| > 100 {
      return BadRequest, 0;
    }
    if ids == [] || src !in t.subscribers {
      NoIdsNoMoves(t.State(), src, now);
      return Okay, 0;
    }
    EnrolledMoves(t.State(), src, dst, ids, now);
    UpsertSubscribers(t, {src, dst}, now);
    moved := MoveAndRecount(t, src, dst, ids, now);
    return Okay, moved;
  }

  lemma NoIdsNoMoves(db: Db, src: SubId, now: Time)
    ensures MovedIds(db, src, [], now) == {}
  {
  }

  lemma EnrolledMoves(db: Db, src: SubId, dst: SubId, ids: seq<NotifId>, now: Time)
    ensures
      var enrolled := Enrol(db, {src, dst}, now);
      && src in enrolled.counters && dst in enrolled.counters
      && MovedIds(enrolled, src, ids, now) == MovedIds(db, src, ids, now)
      && (MovedIds(db, src, ids, now) == {} <==> forall id | id in enrolled.notifications :: !Moves(enrolled, src, ids, id, now))
  {
    var enrolled := Enrol(db, {src, dst}, now);
    assert forall id | id in db.notifications :: Moves(enrolled, src, ids, id, now) == Moves(db, src, ids, id, now);
    hide Moves;
    forall id | id in enrolled.notifications && Moves(enrolled, src, ids, id, now) ensures id in MovedIds(db, src, ids, now) {
    }
  }

  lemma EnrolledHaveCounters(db: Db, subs: set<SubId>, now: Time)
    ensures forall s | s in subs :: s in Enrol(db, subs, now).counters
  {
  }

  lemma NothingMoves(db: Db, src: SubId, dst: SubId, ids: seq<NotifId>, now: Time)
    requires src in db.counters && dst in db.counters && MovedIds(db, src, ids, now) == {}
    ensures MovedRows(db, src, dst, ids, now) == db.notifications
  {
    assert forall id | id in db.notifications && Moves(db, src, ids, id, now) :: id in MovedIds(db, src, ids, now);
    hide Moves;
  }

  // ---------------------------------------------------------------- dead letters

  /** One parked job, if it is there, or all of them. */
  function Selection(deadLetters: map<JobId, Job>, id: Option<JobId>): set<JobId> {
    if id.Some? then {id.value} else deadLetters.Keys
  }

  /** `replay_where`: DELETE and INSERT in one statement. */
  method ReplayWhere(t: Tables, id: Option<JobId>, now: Time) returns (moved: nat)
    requires t.Valid()
    modifies t`jobs, t`deadLetters
    ensures t.Valid()
    ensures t.State() == Replay(old(t.State()), Selection(old(t.deadLetters), id), now)
    ensures t.deadLetters == if id.Some? then old(t.deadLetters) - {id.value} else map[]
    ensures moved == |old(t.deadLetters).Keys| - |t.deadLetters.Keys|
  {
    hide Replay, Revive, CursorsInRange, SelectedKeys, Selection;
    ghost var db := t.State();
    var revived := SelectedKeys(t.deadLetters, id);
    WhatIsLeft(t.deadLetters, id, revived);
    RevivedJobs(db, Selection(t.deadLetters, id), revived, now);
    t.UpdateQueues(t.jobs + Revive(t.deadLetters, revived, now), t.deadLetters - revived);
    return |revived|;
  }

  lemma WhatIsLeft(deadLetters: map<JobId, Job>, id: Option<JobId>, revived: set<JobId>)
    requires revived == Selection(deadLetters, id) * deadLetters.Keys
    ensures deadLetters - revived == if id.Some? then deadLetters - {id.value} else map[]
    ensures |revived| == |deadLetters.Keys| - |(deadLetters - revived).Keys|
  {
    assert (deadLetters - revived).Keys == deadLetters.Keys - revived;
    Sets.SubsetSize(revived, deadLetters.Keys);
  }

  function SelectedKeys(deadLetters: map<JobId, Job>, id: Option<JobId>): (keys: set<JobId>)
    ensures keys == Selection(deadLetters, id) * deadLetters.Keys
  {
    set j | j in deadLetters && (id.None? || j == id.value)
  }

  /** The rows the INSERT half of a replay writes. */
  function Revive(deadLetters: map<JobId, Job>, revived: set<JobId>, now: Time): map<JobId, Job> {
    map j | j in revived && j in deadLetters :: deadLetters[j].(runAt := now, attempts := 0)
  }

  lemma RevivedJobs(db: Db, selected: set<JobId>, revived: set<JobId>, now: Time)
    requires revived == selected * db.deadLetters.Keys
    ensures Replay(db, selected, now)
         == db.(jobs := db.jobs + Revive(db.deadLetters, revived, now), deadLetters := db.deadLetters - revived)
    ensures CursorsInRange(db.jobs) && CursorsInRange(db.deadLetters)
        ==> CursorsInRange(db.jobs + Revive(db.deadLetters, revived, now)) && CursorsInRange(db.deadLetters - revived)
  {
  }

  // ---------------------------------------------------------------- preferences

  lemma PrefixOfPrefix<T>(q: seq<T>, i: nat)
    requires i < |q|
    ensures q[..i + 1][..i] == q[..i] && q[..i + 1][i] == q[i]
  {
  }

  lemma WriteOneMore(preferences: map<(SubId, Category), bool>, s: SubId, entries: seq<Preference>, i: nat)
    requires i < |entries|
    ensures WriteMany(preferences, s, entries[..i + 1]) == WriteOne(WriteMany(preferences, s, entries[..i]), s, entries[i])
  {
    PrefixOfPrefix(entries, i);
  }

  /** The rows a loop touched so far are those of its prefix, plus the last one. */
  lemma TouchesOneMore(preferences: map<(SubId, Category), bool>, s: SubId, entries: seq<Preference>, i: nat)
    requires i < |entries|
    ensures
      var before := WriteMany(preferences, s, entries[..i]);
      TouchesARow(preferences, s, entries[..i + 1]) <==>
        (TouchesARow(preferences, s, entries[..i]) || WriteOne(before, s, entries[i]) != before)
  {
    hide WriteOne, WriteMany;
    assert forall k | 0 <= k <= i :: entries[..i + 1][..k] == entries[..k] && entries[..i + 1][k] == entries[k];
    assert forall k | 0 <= k < i :: entries[..i][..k] == entries[..k] && entries[..i][k] == entries[k];
  }

  /** What the request may contain, entry by entry. */
  method Validated(entries: seq<Preference>) returns (ok: bool)
    ensures ok == WellFormedWrite(entries)
  {
    if |entries| == 0 || |entries| > 100 {
      return false;
    }
    for i := 0 to |entries|
      invariant forall k | 0 <= k < i :: 1 <= Utf8Length(entries[k].category) <= 255 && entries[k].channel == "in_app"
    {
      var p := entries[i];
      if Utf8Length(p.category) == 0 || Utf8Length(p.category) > 255 || p.channel != "in_app" {
        assert p in entries;
        return false;
      }
    }
    return true;
  }

  /** `preferences::write`: validate everything, then one statement per entry. */
  method WriteEntries(t: Tables, s: SubId, entries: seq<Preference>, job: JobId, now: Time) returns (reply: Reply)
    requires t.Valid()
    modifies t`preferences, t`jobs
    ensures t.Valid() && t.State() == WritePreferences(old(t.State()), s, entries, job, now)
    ensures reply == if WellFormedWrite(entries) then Okay else BadRequest
    ensures reply == BadRequest ==> t.State() == old(t.State())
  {
    hide WriteMany, TouchesARow, RowsHaveCounters, WellFormedWrite, Tables.Valid;
    var ok := Validated(entries);
    if !ok {
      return BadRequest;
    }
    ghost var first := t.preferences;
    var changed := false;
    NothingWrittenYet(first, s, entries);
    for i := 0 to |entries|
      invariant t.Valid() && t.State() == old(t.State()).(preferences := t.preferences)
      invariant t.preferences == WriteMany(first, s, entries[..i])
      invariant changed <==> TouchesARow(first, s, entries[..i])
    {
      var p := entries[i];
      WriteOneMore(first, s, entries, i);
      TouchesOneMore(first, s, entries, i);
      var k := (s, p.category);
      var affected := if p.enabled then k in t.preferences else k !in t.preferences || t.preferences[k];
      t.preferences := if p.enabled then t.preferences - {k} else t.preferences[k := false];
      changed := changed || affected;
    }
    assert entries[..|entries|] == entries;
    if changed {
      t.PutJob(job, Job(CounterRebuild(s), now, 0, MAX_ATTEMPTS));
    }
    return Okay;
  }

  lemma NothingWrittenYet(preferences: map<(SubId, Category), bool>, s: SubId, entries: seq<Preference>)
    ensures WriteMany(preferences, s, entries[..0]) == preferences && !TouchesARow(preferences, s, entries[..0])
  {
  }
}
