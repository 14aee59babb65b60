/**
 The tables as the transactions update them: one object, each table a field that is
 reassigned in place.
 */
module Database {
  import opened InboxState
  import opened InboxSteps

  /** What a request handler answers. `Failed` is a query that found no row where it needs one. */
  datatype Reply = Okay | NoContent | Accepted | NotFound | BadRequest | Failed

  predicate CursorsInRange(jobs: map<JobId, Job>) {
    forall j | j in jobs && jobs[j].work.Deliver? :: jobs[j].work.offset <= |jobs[j].work.ids|
  }

  predicate NonNegative(counters: map<SubId, Counters>) {
    forall s | s in counters :: 0 <= counters[s].unread && 0 <= counters[s].unseen
  }

  /** Rows may change in everything but whose they are. */
  predicate SameOwners(before: map<NotifId, Row>, after: map<NotifId, Row>) {
    && after.Keys == before.Keys
    && forall id | id in before :: after[id].subscriber == before[id].subscriber
  }

  class Tables {
    var subscribers: map<SubId, Time>
    var notifications: map<NotifId, Row>
    var counters: map<SubId, Counters>
    var preferences: map<(SubId, Category), bool>
    var broadcasts: map<BroadcastId, Broadcast>
    var broadcastReads: map<(SubId, BroadcastId), Override>
    var broadcastArchives: map<(SubId, BroadcastId), Override>
    var jobs: map<JobId, Job>
    var deadLetters: map<JobId, Job>

    constructor ()
      ensures Valid() && State() == EMPTY_DB
    {
      subscribers, notifications, counters, preferences := map[], map[], map[], map[];
      broadcasts, broadcastReads, broadcastArchives := map[], map[], map[];
      jobs, deadLetters := map[], map[];
    }

    /** The value all the tables together hold. */
    function State(): Db
      reads this
    {
      Db(subscribers, notifications, counters, preferences, broadcasts, broadcastReads, broadcastArchives,
         jobs, deadLetters)
    }

    /** The foreign key from rows to counters, and counts that never went below zero. */
    predicate Valid()
      reads this`notifications, this`counters, this`jobs, this`deadLetters
    {
      && (forall id | id in notifications :: notifications[id].subscriber in counters)
      && NonNegative(counters) && CursorsInRange(jobs) && CursorsInRange(deadLetters)
    }

    /** `UPDATE notifications ... WHERE id = ...`: one row, its subscriber kept. */
    method UpdateRow(id: NotifId, row: Row)
      requires Valid() && id in notifications && row.subscriber == notifications[id].subscriber
      modifies this`notifications
      ensures Valid() && notifications == old(notifications)[id := row]
    {
      notifications := notifications[id := row];
    }

    /** `UPDATE notifications ...` that moves no row. */
    method UpdateRows(rows: map<NotifId, Row>)
      requires Valid() && SameOwners(notifications, rows)
      modifies this`notifications
      ensures Valid() && notifications == rows
    {
      notifications := rows;
    }

    /** `UPDATE subscriber_counters ...`, of any number of rows. */
    method UpdateCounters(rows: map<SubId, Counters>)
      requires Valid() && counters.Keys <= rows.Keys && NonNegative(rows)
      modifies this`counters
      ensures Valid() && counters == rows
    {
      counters := rows;
    }

    /** One counters row. */
    method UpdateCounter(s: SubId, row: Counters)
      requires Valid() && s in counters && 0 <= row.unread && 0 <= row.unseen
      modifies this`counters
      ensures Valid() && counters == old(counters)[s := row]
    {
      counters := counters[s := row];
    }

    method PutJob(j: JobId, job: Job)
      requires Valid() && (job.work.Deliver? ==> job.work.offset <= |job.work.ids|)
      modifies this`jobs
      ensures Valid() && jobs == old(jobs)[j := job]
    {
      jobs := jobs[j := job];
    }

    method DeleteJob(j: JobId)
      requires Valid()
      modifies this`jobs
      ensures Valid() && jobs == old(jobs) - {j}
    {
      jobs := jobs - {j};
    }

    /** `UPDATE subscriber_counters SET unread_direct_count = ...`. */
    method UpdateUnread(s: SubId, unread: int)
      requires Valid() && s in counters && 0 <= unread
      modifies this`counters
      ensures Valid() && counters == old(counters)[s := old(counters)[s].(unread := unread)]
    {
      counters := counters[s := counters[s].(unread := unread)];
    }

    /** One statement that writes both job tables. */
    method UpdateQueues(queue: map<JobId, Job>, parked: map<JobId, Job>)
      requires Valid() && CursorsInRange(queue) && CursorsInRange(parked)
      modifies this`jobs, this`deadLetters
      ensures Valid() && jobs == queue && deadLetters == parked
    {
      jobs, deadLetters := queue, parked;
    }

    /**
     `pending_deliver`: some deliver job still has this id at or past its cursor. The
     positions are compared, not the suffix.
     */
    method PendingDeliver(id: NotifId) returns (pending: bool)
      requires Valid()
      ensures pending == OwnedIn(jobs, id)
    {
      pending := exists j | j in jobs ::
        && jobs[j].work.Deliver?
        && exists i | 0 <= i < |jobs[j].work.ids| :: jobs[j].work.ids[i] == id && i >= jobs[j].work.offset;
      forall j | j in jobs && jobs[j].work.Deliver?
        ensures Owns(jobs[j], id) <==>
          exists i | 0 <= i < |jobs[j].work.ids| :: jobs[j].work.ids[i] == id && i >= jobs[j].work.offset
      {
        PositionsOfSuffix(jobs[j].work.ids, jobs[j].work.offset, id);
      }
    }
  }

  lemma PositionsOfSuffix(ids: seq<NotifId>, offset: nat, id: NotifId)
    requires offset <= |ids|
    ensures id in ids[offset..] <==> exists i | 0 <= i < |ids| :: ids[i] == id && i >= offset
  {
  }

  function Greatest(a: int, b: int): int {
    if a >= b then a else b
  }
}
