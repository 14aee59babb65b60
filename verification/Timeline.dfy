/**
 The status timeline: an append-only log, one row per notification and status. The
 table's key includes the time, so nothing but the guard in each append keeps a second
 row out.
 */
module Timeline {
  import opened Wrappers
  import opened Keyset
  import opened Chunks
  import opened InboxState

  datatype Status = Created | DeliveredHint | Seen | Read

  datatype LogRow = LogRow(id: NotifId, status: Status, at: Time)

  const TIMELINE_CHUNK: nat := 500

  // ---------------------------------------------------------------- appends

  predicate Has(log: set<LogRow>, id: NotifId, status: Status) {
    exists r | r in log :: r.id == id && r.status == status
  }

  /** `INSERT ... SELECT ... WHERE NOT EXISTS`: one statement, one time. */
  function Appended(log: set<LogRow>, ids: set<NotifId>, status: Status, at: Time): set<LogRow> {
    log + set id | id in ids && !Has(log, id, status) :: LogRow(id, status, at)
  }

  /** At most one row per notification and status. */
  predicate OncePerStatus(log: set<LogRow>) {
    forall r, q | r in log && q in log && r.id == q.id && r.status == q.status :: r == q
  }

  /** An append never changes a row, adds no second one, and leaves the status on exactly its ids. */
  lemma AppendKeepsTheLog(log: set<LogRow>, ids: set<NotifId>, status: Status, at: Time)
    requires OncePerStatus(log)
    ensures
      var log' := Appended(log, ids, status, at);
      && OncePerStatus(log') && log <= log'
      && forall id, s :: Has(log', id, s) <==> Has(log, id, s) || (s == status && id in ids)
  {
    var log' := Appended(log, ids, status, at);
    forall r, q | r in log' && q in log' && r.id == q.id && r.status == q.status ensures r == q {
      assert r in log ==> Has(log, r.id, r.status);
      assert q in log ==> Has(log, q.id, q.status);
    }
    forall id, s ensures Has(log', id, s) <==> Has(log, id, s) || (s == status && id in ids) {
      if s == status && id in ids && !Has(log, id, s) {
        assert LogRow(id, status, at) in log';
      }
      if r :| r in log' && r.id == id && r.status == s {
        if r !in log {
          assert r.status == status && r.id in ids;
        } else {
          assert Has(log, id, s);
        }
      }
    }
  }

  /** Two appends of the same status at the same time are one append of both. */
  lemma AppendsCompose(log: set<LogRow>, a: set<NotifId>, b: set<NotifId>, status: Status, at: Time)
    ensures Appended(Appended(log, a, status, at), b, status, at) == Appended(log, a + b, status, at)
  {
  }

  // ---------------------------------------------------------------- the watermark window

  /** The rows of one subscriber, with the time each became visible. */
  type VisibleRows = map<NotifId, Time>

  function RowKeys(rows: VisibleRows): set<Key> {
    set id | id in rows :: Key(rows[id], id)
  }

  /** A watermark move's job: `(from, to]`, stamped with the time of the move. */
  datatype Window = Window(status: Status, from: Time, to: Time)

  function InWindow(rows: VisibleRows, w: Window): set<NotifId> {
    set id | id in rows && w.from < rows[id] <= w.to
  }

  /** What the keyset scan still finds past the cursor. */
  function WindowScan(rows: VisibleRows, w: Window, cursor: Option<Key>): set<Key> {
    var after := if cursor.Some? then cursor.value else Key(w.from, 0);
    set k | k in RowKeys(rows) && w.from < k.ts <= w.to && Below(after, k)
  }

  function IdsOf(keys: seq<Key>): set<NotifId> {
    set k | k in keys :: k.id
  }

  lemma NoIds()
    ensures IdsOf([]) == {}
  {
  }

  ghost function ChunkRows(rows: VisibleRows, w: Window, cursor: Option<Key>): seq<Key> {
    Take(Ascending(WindowScan(rows, w, cursor)), TIMELINE_CHUNK)
  }

  ghost function NextCursor(rows: VisibleRows, w: Window, cursor: Option<Key>): Option<Key> {
    var chunk := ChunkRows(rows, w, cursor);
    if |chunk| < TIMELINE_CHUNK then None else Some(chunk[TIMELINE_CHUNK - 1])
  }

  class StatusLog {
    var log: set<LogRow>

    constructor ()
      ensures log == {}
    {
      log := {};
    }

    /** `append`. */
    method Append(ids: seq<NotifId>, status: Status, now: Time)
      modifies this
      ensures log == Appended(old(log), (set id | id in ids), status, now)
    {
      if |ids| == 0 {
        return;
      }
      log := log + set id | id in ids && !(exists r | r in log :: r.id == id && r.status == status) :: LogRow(id, status, now);
    }

    /** `append_delivered`: only for recipients a hint was just published for. */
    method AppendDelivered(recipients: map<NotifId, SubId>, ids: set<NotifId>, published: set<SubId>, now: Time)
      modifies this
      ensures log == Appended(old(log), (set id | id in ids && id in recipients && recipients[id] in published), DeliveredHint, now)
    {
      if ids == {} || published == {} {
        return;
      }
      log := log + set id | id in ids && id in recipients && recipients[id] in published
                            && !(exists r | r in log :: r.id == id && r.status == DeliveredHint)
                       :: LogRow(id, DeliveredHint, now);
    }

    /** `append_window_chunk`: append one chunk; the new cursor, or none when the window is exhausted. */
    method AppendWindowChunk(rows: VisibleRows, w: Window, cursor: Option<Key>) returns (next: Option<Key>)
      modifies this
      ensures log == Appended(old(log), IdsOf(ChunkRows(rows, w, cursor)), w.status, w.to)
      ensures next == NextCursor(rows, w, cursor)
    {
      hide Ascending, WindowScan, IdsOf;
      var chunk := SelectAscending(WindowScan(rows, w, cursor), TIMELINE_CHUNK);
      if chunk == [] {
        NoIds();
        return None;
      }
      var last := chunk[|chunk| - 1];
      var ids := IdsOf(chunk);
      log := log + set id | id in ids && !(exists r | r in log :: r.id == id && r.status == w.status) :: LogRow(id, w.status, w.to);
      if |chunk| < TIMELINE_CHUNK {
        return None;
      }
      return Some(last);
    }
  }

  // ---------------------------------------------------------------- the whole job

  /** The job's chunks one after another, each from the cursor the last one committed. */
  ghost function WindowJob(log: set<LogRow>, rows: VisibleRows, w: Window, cursor: Option<Key>): set<LogRow>
    decreases |WindowScan(rows, w, cursor)|
  {
    var log' := Appended(log, IdsOf(ChunkRows(rows, w, cursor)), w.status, w.to);
    var next := NextCursor(rows, w, cursor);
    if next.None? then log'
    else
      CursorAdvances(rows, w, cursor);
      WindowJob(log', rows, w, next)
  }

  /** A full chunk moves the cursor strictly up and leaves strictly less to scan. */
  lemma CursorAdvances(rows: VisibleRows, w: Window, cursor: Option<Key>)
    requires NextCursor(rows, w, cursor).Some?
    ensures
      var next := NextCursor(rows, w, cursor);
      && Below(if cursor.Some? then cursor.value else Key(w.from, 0), next.value)
      && |WindowScan(rows, w, next)| == |WindowScan(rows, w, cursor)| - 500
      && Ascending(WindowScan(rows, w, cursor)) == ChunkRows(rows, w, cursor) + Ascending(WindowScan(rows, w, next))
  {
    hide Ascending;
    var keys := WindowScan(rows, w, cursor);
    if |keys| < TIMELINE_CHUNK {
      ShortChunk(keys, TIMELINE_CHUNK);
    } else {
      FullChunk(keys, TIMELINE_CHUNK);
      var last := Ascending(keys)[TIMELINE_CHUNK - 1];
      assert WindowScan(rows, w, Some(last)) == Above(keys, last);
    }
  }

  lemma IdsOfConcat(a: seq<Key>, b: seq<Key>)
    ensures IdsOf(a + b) == IdsOf(a) + IdsOf(b)
  {
  }

  /** From any cursor, the job appends to everything the scan still finds, as one append would. */
  lemma {:induction false} WindowJobIsOneAppend(log: set<LogRow>, rows: VisibleRows, w: Window, cursor: Option<Key>)
    ensures WindowJob(log, rows, w, cursor) == Appended(log, IdsOf(Ascending(WindowScan(rows, w, cursor))), w.status, w.to)
    decreases |WindowScan(rows, w, cursor)|
  {
    hide Ascending, Appended, WindowScan, IdsOf;
    var keys := WindowScan(rows, w, cursor);
    var next := NextCursor(rows, w, cursor);
    var chunk := ChunkRows(rows, w, cursor);
    if next.Some? {
      CursorAdvances(rows, w, cursor);
      WindowJobIsOneAppend(Appended(log, IdsOf(chunk), w.status, w.to), rows, w, next);
      var rest := Ascending(WindowScan(rows, w, next));
      IdsOfConcat(chunk, rest);
      AppendsCompose(log, IdsOf(chunk), IdsOf(rest), w.status, w.to);
    }
  }

  lemma ScanIsTheWindow(rows: VisibleRows, w: Window)
    ensures IdsOf(Ascending(WindowScan(rows, w, None))) == InWindow(rows, w)
  {
    hide Ascending;
    var keys := WindowScan(rows, w, None);
    var q := Ascending(keys);
    forall id | id in InWindow(rows, w) ensures id in IdsOf(q) {
      assert Key(rows[id], id) in keys;
      InElements(q, Key(rows[id], id));
    }
    forall id | id in IdsOf(q) ensures id in InWindow(rows, w) {
      var k :| k in q && k.id == id;
      InElements(q, k);
    }
  }

  /**
   A watermark job run to completion leaves its status on exactly the rows in `(from, to]`
   beyond those that had it, stamped with the time of the move, and changes no row.
   */
  lemma WindowJobMarksTheWindow(log: set<LogRow>, rows: VisibleRows, w: Window)
    requires OncePerStatus(log)
    ensures
      var log' := WindowJob(log, rows, w, None);
      && OncePerStatus(log') && log <= log'
      && (forall id, s :: Has(log', id, s) <==> Has(log, id, s) || (s == w.status && id in InWindow(rows, w)))
      && (forall r | r in log' - log :: r.status == w.status && r.at == w.to && r.id in InWindow(rows, w))
  {
    hide WindowJob, WindowScan, IdsOf, InWindow;
    WindowJobIsOneAppend(log, rows, w, None);
    ScanIsTheWindow(rows, w);
    AppendKeepsTheLog(log, InWindow(rows, w), w.status, w.to);
  }

  // ---------------------------------------------------------------- rows that come and go meanwhile

  /** The cursor before chunk `i`, when chunk `j` finds the rows `tables[j]`. */
  ghost function CursorAt(tables: seq<VisibleRows>, w: Window, i: nat): Option<Key>
    requires i <= |tables|
  {
    if i == 0 then None else NextCursor(tables[i - 1], w, CursorAt(tables, w, i - 1))
  }

  ghost function LogAt(log: set<LogRow>, tables: seq<VisibleRows>, w: Window, i: nat): set<LogRow>
    requires i <= |tables|
  {
    if i == 0 then log
    else
      Appended(LogAt(log, tables, w, i - 1), IdsOf(ChunkRows(tables[i - 1], w, CursorAt(tables, w, i - 1))), w.status, w.to)
  }

  /** The job ends with the last of these chunks, and with none before it. */
  ghost predicate Completes(tables: seq<VisibleRows>, w: Window) {
    && tables != [] && CursorAt(tables, w, |tables|).None?
    && forall i | 0 < i < |tables| :: CursorAt(tables, w, i).Some?
  }

  function Floor(w: Window, cursor: Option<Key>): Key {
    if cursor.Some? then cursor.value else Key(w.from, 0)
  }

  /** The part of the key range that chunk `i` leaves behind it. */
  ghost predicate Covers(tables: seq<VisibleRows>, w: Window, i: nat, k: Key)
    requires i < |tables|
  {
    && Below(Floor(w, CursorAt(tables, w, i)), k)
    && (CursorAt(tables, w, i + 1).Some? ==> AtOrBelow(k, CursorAt(tables, w, i + 1).value))
  }

  /** A chunk takes exactly the rows it finds in the range it leaves behind. */
  lemma ChunkTakesItsRange(rows: VisibleRows, w: Window, cursor: Option<Key>, k: Key)
    ensures
      var next := NextCursor(rows, w, cursor);
      k in ChunkRows(rows, w, cursor) <==>
        && k in RowKeys(rows) && w.from < k.ts <= w.to && Below(Floor(w, cursor), k)
        && (next.Some? ==> AtOrBelow(k, next.value))
  {
    hide Ascending, RowKeys;
    var keys := WindowScan(rows, w, cursor);
    var chunk := ChunkRows(rows, w, cursor);
    InElements(chunk, k);
    if |keys| < TIMELINE_CHUNK {
      ShortChunk(keys, TIMELINE_CHUNK);
      InElements(Ascending(keys), k);
    } else {
      FullChunk(keys, TIMELINE_CHUNK);
      UpToTheLast(keys, TIMELINE_CHUNK, k);
    }
  }

  lemma UpToTheLast(keys: set<Key>, n: nat, k: Key)
    requires 0 < n <= |keys| == |Ascending(keys)|
    ensures k in Take(Ascending(keys), n) <==> k in keys && AtOrBelow(k, Ascending(keys)[n - 1])
  {
    hide Ascending;
    var q := Ascending(keys);
    InElements(q, k);
    if k in keys {
      var i :| 0 <= i < |q| && q[i] == k;
      if i < n {
        assert Take(q, n)[i] == k;
      }
    }
  }

  lemma NextFloor(tables: seq<VisibleRows>, w: Window, j: nat)
    requires Completes(tables, w) && 0 < j < |tables|
    ensures Below(Floor(w, CursorAt(tables, w, j - 1)), Floor(w, CursorAt(tables, w, j)))
  {
    hide NextCursor;
    assert CursorAt(tables, w, j).Some?;
    var before := CursorAt(tables, w, j - 1);
    assert CursorAt(tables, w, j) == NextCursor(tables[j - 1], w, before);
    hide CursorAt, Completes;
    CursorAdvances(tables[j - 1], w, before);
  }

  /** The cursor never goes back, so every key of the window is covered by exactly one chunk. */
  lemma {:induction false} CursorsClimb(tables: seq<VisibleRows>, w: Window, i: nat, j: nat)
    requires Completes(tables, w) && i <= j < |tables|
    ensures i == j || Below(Floor(w, CursorAt(tables, w, i)), Floor(w, CursorAt(tables, w, j)))
    decreases j
  {
    hide CursorAt, Completes, Floor;
    if i < j {
      CursorsClimb(tables, w, i, j - 1);
      NextFloor(tables, w, j);
    }
  }

  lemma CoveredOnce(tables: seq<VisibleRows>, w: Window, k: Key, i: nat, j: nat)
    requires Completes(tables, w) && i < |tables| && j < |tables|
    requires Covers(tables, w, i, k) && Covers(tables, w, j, k)
    ensures i == j
  {
    hide CursorAt;
    if i < j {
      CursorsClimb(tables, w, i + 1, j);
    } else if j < i {
      CursorsClimb(tables, w, j + 1, i);
    }
  }

  lemma {:induction false} CoveredBefore(tables: seq<VisibleRows>, w: Window, k: Key, n: nat)
    requires Completes(tables, w) && w.from < k.ts && n < |tables|
    ensures Below(Floor(w, CursorAt(tables, w, n)), k) || exists i | 0 <= i < n :: Covers(tables, w, i, k)
    decreases n
  {
    hide NextCursor;
    if n > 0 {
      CoveredBefore(tables, w, k, n - 1);
      if Below(Floor(w, CursorAt(tables, w, n - 1)), k) && !Below(Floor(w, CursorAt(tables, w, n)), k) {
        assert Covers(tables, w, n - 1, k);
      }
    }
  }

  lemma CoveredSomewhere(tables: seq<VisibleRows>, w: Window, k: Key)
    requires Completes(tables, w) && w.from < k.ts
    ensures exists i | 0 <= i < |tables| :: Covers(tables, w, i, k)
  {
    var last := |tables| - 1;
    assert CursorAt(tables, w, last + 1).None?;
    hide CursorAt, Floor;
    CoveredBefore(tables, w, k, last);
    if Below(Floor(w, CursorAt(tables, w, last)), k) {
      assert Covers(tables, w, last, k);
    }
  }

  ghost function CoveringChunk(tables: seq<VisibleRows>, w: Window, k: Key): (i: nat)
    requires Completes(tables, w) && w.from < k.ts
    ensures i < |tables| && Covers(tables, w, i, k)
  {
    hide Covers, Completes;
    CoveredSomewhere(tables, w, k);
    var i :| 0 <= i < |tables| && Covers(tables, w, i, k);
    i
  }

  /** What the first `n` chunks have marked. */
  lemma {:induction false} MarkedSoFar(log: set<LogRow>, tables: seq<VisibleRows>, w: Window, n: nat)
    requires OncePerStatus(log) && n <= |tables|
    ensures OncePerStatus(LogAt(log, tables, w, n)) && log <= LogAt(log, tables, w, n)
    ensures forall id, s :: Has(LogAt(log, tables, w, n), id, s) <==>
              || Has(log, id, s)
              || (s == w.status && exists i | 0 <= i < n :: id in IdsOf(ChunkRows(tables[i], w, CursorAt(tables, w, i))))
  {
    hide Has, OncePerStatus, Appended, ChunkRows, IdsOf, CursorAt;
    if n > 0 {
      MarkedSoFar(log, tables, w, n - 1);
      AppendKeepsTheLog(LogAt(log, tables, w, n - 1), IdsOf(ChunkRows(tables[n - 1], w, CursorAt(tables, w, n - 1))), w.status, w.to);
    }
  }

  lemma InChunk(rows: VisibleRows, w: Window, cursor: Option<Key>, id: NotifId)
    ensures id in IdsOf(ChunkRows(rows, w, cursor)) <==> id in rows && Key(rows[id], id) in ChunkRows(rows, w, cursor)
  {
    hide ChunkRows, NextCursor;
    if id in IdsOf(ChunkRows(rows, w, cursor)) {
      var k :| k in ChunkRows(rows, w, cursor) && k.id == id;
      ChunkTakesItsRange(rows, w, cursor, k);
    }
  }

  /**
   Rows may be committed late, moved away or moved in between chunks. A row of the window
   has the status when the job is done if and only if it had it before, or was there when
   the one chunk that covers its key ran. Nothing else changes.
   */
  lemma MarkedIffThere(log: set<LogRow>, tables: seq<VisibleRows>, w: Window, id: NotifId, at: Time)
    requires OncePerStatus(log) && Completes(tables, w) && w.from < at <= w.to
    requires forall i | 0 <= i < |tables| && id in tables[i] :: tables[i][id] == at
    ensures
      var log' := LogAt(log, tables, w, |tables|);
      && OncePerStatus(log') && log <= log'
      && (Has(log', id, w.status) <==> Has(log, id, w.status) || id in tables[CoveringChunk(tables, w, Key(at, id))])
  {
    hide Has, OncePerStatus, ChunkRows, IdsOf, NextCursor, LogAt, Completes, CursorAt;
    MarkedSoFar(log, tables, w, |tables|);
    var k := Key(at, id);
    var c := CoveringChunk(tables, w, k);
    forall i | 0 <= i < |tables|
      ensures id in IdsOf(ChunkRows(tables[i], w, CursorAt(tables, w, i))) <==> i == c && id in tables[c]
    {
      MarkedByChunk(tables, w, i, id, at);
      if Covers(tables, w, i, k) {
        CoveredOnce(tables, w, k, i, c);
      }
    }
  }

  lemma MarkedByChunk(tables: seq<VisibleRows>, w: Window, i: nat, id: NotifId, at: Time)
    requires i < |tables| && w.from < at <= w.to && (id in tables[i] ==> tables[i][id] == at)
    ensures id in IdsOf(ChunkRows(tables[i], w, CursorAt(tables, w, i))) <==>
              id in tables[i] && Covers(tables, w, i, Key(at, id))
  {
    hide ChunkRows, NextCursor, IdsOf;
    InChunk(tables[i], w, CursorAt(tables, w, i), id);
    ChunkTakesItsRange(tables[i], w, CursorAt(tables, w, i), Key(at, id));
  }

  /**
   The input that shows it: a create that began at 3 commits after the read-all at 5 and
   after its window job. The new row is in the window, covered by the watermark, and has no
   `read` status.
   */
  lemma LateRowGetsNoStatus()
    ensures
      var w, late := Window(Read, 0, 5), map[1 := 3];
      Completes([map[]], w) && 1 in InWindow(late, w) && !Has(LogAt({}, [map[]], w, 1), 1, Read)
  {
    var w := Window(Read, 0, 5);
    var none: VisibleRows := map[];
    assert RowKeys(none) == {} && WindowScan(none, w, None) == {};
    assert CursorAt([none], w, 0) == None;
    assert LogAt({}, [none], w, 0) == {};
  }

  // ---------------------------------------------------------------- runs

  /** One committed append, by a request, a hint or a chunk of a watermark job. */
  datatype Append = Append(ids: set<NotifId>, status: Status, at: Time)

  function LogAfter(appends: seq<Append>): set<LogRow> {
    if appends == [] then {}
    else
      var a := appends[|appends| - 1];
      Appended(LogAfter(appends[..|appends| - 1]), a.ids, a.status, a.at)
  }

  /** However appends are mixed, a status is logged at most once, at the time of the first that had it. */
  lemma {:induction false} EveryRunIsOncePerStatus(appends: seq<Append>)
    ensures OncePerStatus(LogAfter(appends))
    ensures forall r | r in LogAfter(appends) ::
              exists i | 0 <= i < |appends| ::
                appends[i].status == r.status && r.id in appends[i].ids && appends[i].at == r.at
                && forall j | 0 <= j < i :: !(appends[j].status == r.status && r.id in appends[j].ids)
    ensures forall id, s :: Has(LogAfter(appends), id, s) <==>
              exists i | 0 <= i < |appends| :: appends[i].status == s && id in appends[i].ids
  {
    if appends != [] {
      var n := |appends| - 1;
      var init, a := appends[..n], appends[n];
      var before := LogAfter(init);
      EveryRunIsOncePerStatus(init);
      AppendKeepsTheLog(before, a.ids, a.status, a.at);
      forall r | r in LogAfter(appends)
        ensures exists i | 0 <= i < |appends| ::
                  appends[i].status == r.status && r.id in appends[i].ids && appends[i].at == r.at
                  && forall j | 0 <= j < i :: !(appends[j].status == r.status && r.id in appends[j].ids)
      {
        if r in before {
          var i :| 0 <= i < n && init[i].status == r.status && r.id in init[i].ids && init[i].at == r.at
                   && forall j | 0 <= j < i :: !(init[j].status == r.status && r.id in init[j].ids);
          assert appends[i] == init[i];
          assert forall j | 0 <= j < i :: appends[j] == init[j];
        } else {
          assert !Has(before, r.id, r.status);
          assert appends[n].status == r.status && r.id in appends[n].ids && appends[n].at == r.at;
          assert forall j | 0 <= j < n :: appends[j] == init[j];
        }
      }
      forall id, s ensures Has(LogAfter(appends), id, s) <==>
                             exists i | 0 <= i < |appends| :: appends[i].status == s && id in appends[i].ids
      {
        assert forall i | 0 <= i < n :: appends[i] == init[i];
      }
    }
  }
}
