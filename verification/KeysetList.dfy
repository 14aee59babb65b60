/**
 The merged list: each arm is cut to the page size before the merge, and the merge is
 cut again. The page is nevertheless the top of the union, and pages follow one another
 without gap or overlap until the list is exhausted.
 */
module KeysetList {
  import opened Wrappers
  import opened Keyset
  import opened Chunks
  import opened InboxState
  import opened InboxViews
  import Sets

  // ---------------------------------------------------------------- one page

  /** `WHERE key < cursor`; no cursor stands for a key above every other. */
  function Older(keys: set<Key>, cursor: Option<Key>): set<Key> {
    if cursor.None? then keys else set x | x in keys && Below(x, cursor.value)
  }

  ghost function Page(keys: set<Key>, cursor: Option<Key>, limit: nat): seq<Key> {
    Take(Descending(Older(keys, cursor)), limit)
  }

  /** What the query computes: both arms limited, then merged, then limited. */
  ghost function MergedPage(direct: set<Key>, broadcast: set<Key>, cursor: Option<Key>, limit: nat): seq<Key> {
    Take(Descending(Elements(Page(direct, cursor, limit)) + Elements(Page(broadcast, cursor, limit))), limit)
  }

  /** `next_cursor`: the last row of a full page. */
  function NextCursor(rows: seq<Key>, limit: nat): Option<Key>
    requires 0 < limit
  {
    if |rows| == limit then Some(rows[|rows| - 1]) else None
  }

  // ---------------------------------------------------------------- top k

  /** The `k` greatest elements of `keys` (all of them, if there are fewer). */
  predicate IsTop(top: set<Key>, keys: set<Key>, k: nat) {
    && top <= keys && |top| == (if |keys| <= k then |keys| else k)
    && forall x, y | x in top && y in keys && y !in top :: Below(y, x)
  }

  lemma TopIsUnique(a: set<Key>, b: set<Key>, keys: set<Key>, k: nat)
    requires IsTop(a, keys, k) && IsTop(b, keys, k)
    ensures a == b
  {
    if x :| x in a && x !in b {
      Sets.SomethingOutside(b, a, x);
      var y :| y in b - a;
    }
    Sets.SubsetSize(a, b);
  }

  /** A cut in a descending list is a cut by its last key. */
  lemma CutDescending(q: seq<Key>, k: nat, x: Key)
    requires Descends(q) && 0 < k <= |q| && x in Elements(q)
    ensures x in q[..k] <==> AtOrBelow(q[k - 1], x)
    ensures x in q[k..] <==> Below(x, q[k - 1])
  {
  }

  lemma OrderedSize(q: seq<Key>)
    requires Descends(q)
    ensures |Elements(q)| == |q|
  {
    DescendingIsUnique(q, Descending(Elements(q)));
  }

  lemma CutsDescend(q: seq<Key>, k: nat)
    requires Descends(q) && k <= |q|
    ensures Descends(q[..k]) && |Elements(q[..k])| == k && Elements(q[..k]) <= Elements(q)
    ensures Descends(q[k..]) && Elements(q[k..]) <= Elements(q)
  {
    OrderedSize(q[..k]);
    forall x | x in Elements(q[..k]) ensures x in Elements(q) {
      var i :| 0 <= i < |q[..k]| && q[..k][i] == x;
      assert q[i] == x;
    }
    forall x | x in Elements(q[k..]) ensures x in Elements(q) {
      var i :| 0 <= i < |q[k..]| && q[k..][i] == x;
      assert q[k + i] == x;
    }
  }

  /** Ordering and limiting selects the top. */
  lemma TakeIsTop(keys: set<Key>, k: nat)
    ensures Descends(Take(Descending(keys), k)) && IsTop(Elements(Take(Descending(keys), k)), keys, k)
  {
    hide Descending, Elements, Descends;
    var q := Descending(keys);
    if k < |q| {
      CutsDescend(q, k);
      if k > 0 {
        forall x, y | x in Elements(q[..k]) && y in keys && y !in Elements(q[..k])
          ensures Below(y, x)
        {
          InElements(q[..k], x);
          InElements(q[..k], y);
          CutDescending(q, k, x);
          CutDescending(q, k, y);
        }
      } else {
        assert Elements(q[..0]) == {};
      }
    }
  }

  /** A descending list is determined by being the top. */
  lemma TopDeterminesPage(rows: seq<Key>, keys: set<Key>, k: nat)
    requires Descends(rows) && IsTop(Elements(rows), keys, k)
    ensures rows == Take(Descending(keys), k)
  {
    hide Descending, Elements, Descends, IsTop;
    TakeIsTop(keys, k);
    TopIsUnique(Elements(rows), Elements(Take(Descending(keys), k)), keys, k);
    DescendingIsUnique(rows, Take(Descending(keys), k));
  }

  // ---------------------------------------------------------------- limiting before merging

  lemma TopOfTopsSize(a: set<Key>, b: set<Key>, ta: set<Key>, tb: set<Key>, k: nat)
    requires a !! b && IsTop(ta, a, k) && IsTop(tb, b, k)
    ensures (if |ta + tb| <= k then |ta + tb| else k) == (if |a + b| <= k then |a + b| else k)
  {
  }

  /** An element the limit of its arm cut away is below everything the merge keeps. */
  lemma CutAwayIsBelow(a: set<Key>, b: set<Key>, ta: set<Key>, tb: set<Key>, top: set<Key>, k: nat, x: Key, y: Key)
    requires a !! b && IsTop(ta, a, k) && tb <= b && IsTop(top, ta + tb, k)
    requires x in top && y in a && y !in ta
    ensures Below(y, x)
  {
    CutMeansFull(ta, a, k, y);
    if x !in ta {
      Sets.SomethingOutside(ta, top, x);
      var z :| z in ta - top;
      assert Below(z, x) && Below(y, z);
    }
  }

  lemma CutMeansFull(top: set<Key>, keys: set<Key>, k: nat, y: Key)
    requires IsTop(top, keys, k) && y in keys && y !in top
    ensures |top| == k
  {
    Sets.SubsetSize(top + {y}, keys);
  }

  lemma TopOfTops(a: set<Key>, b: set<Key>, ta: set<Key>, tb: set<Key>, top: set<Key>, k: nat)
    requires a !! b && IsTop(ta, a, k) && IsTop(tb, b, k) && IsTop(top, ta + tb, k)
    ensures IsTop(top, a + b, k)
  {
    TopOfTopsSize(a, b, ta, tb, k);
    forall x, y | x in top && y in a + b && y !in top
      ensures Below(y, x)
    {
      if y in ta + tb {
      } else if y in a {
        CutAwayIsBelow(a, b, ta, tb, top, k, x, y);
      } else {
        assert tb + ta == ta + tb;
        CutAwayIsBelow(b, a, tb, ta, top, k, x, y);
      }
    }
  }

  /** Limiting each arm before the merge loses nothing: the page is the top of the union. */
  lemma MergedPageIsThePage(direct: set<Key>, broadcast: set<Key>, cursor: Option<Key>, limit: nat)
    requires direct !! broadcast
    ensures MergedPage(direct, broadcast, cursor, limit) == Page(direct + broadcast, cursor, limit)
  {
    hide Descending, Elements, Descends, IsTop, Take;
    var a, b := Older(direct, cursor), Older(broadcast, cursor);
    TakeIsTop(a, limit);
    TakeIsTop(b, limit);
    var ta, tb := Elements(Take(Descending(a), limit)), Elements(Take(Descending(b), limit));
    TakeIsTop(ta + tb, limit);
    var rows := Take(Descending(ta + tb), limit);
    TopOfTops(a, b, ta, tb, Elements(rows), limit);
    assert a + b == Older(direct + broadcast, cursor);
    TopDeterminesPage(rows, a + b, limit);
  }

  // ---------------------------------------------------------------- following the cursor

  lemma FullPage(keys: set<Key>, k: nat)
    requires 0 < k <= |keys|
    ensures
      var q := Descending(keys);
      && Take(q, k) == q[..k]
      && q[k..] == Descending(Older(keys, Some(q[k - 1])))
      && |Older(keys, Some(q[k - 1]))| == |keys| - k
  {
    hide Descending, Descends;
    var q := Descending(keys);
    var rest := Older(keys, Some(q[k - 1]));
    CutsDescend(q, k);
    forall x | x in keys ensures x in Elements(q[k..]) <==> x in rest {
      CutDescending(q, k, x);
    }
    DescendingIsUnique(q[k..], Descending(rest));
  }

  lemma OlderTwice(keys: set<Key>, cursor: Option<Key>, last: Key)
    requires last in Older(keys, cursor)
    ensures Older(Older(keys, cursor), Some(last)) == Older(keys, Some(last))
  {
  }

  /** From a cursor to the first page that is not full: every page, in order. */
  ghost function Pages(keys: set<Key>, cursor: Option<Key>, limit: nat): seq<seq<Key>>
    requires 0 < limit
    decreases |Older(keys, cursor)|
  {
    var rows := Page(keys, cursor, limit);
    var next := NextCursor(rows, limit);
    if next.None? then [rows]
    else
      PageShrinks(keys, cursor, limit);
      [rows] + Pages(keys, next, limit)
  }

  lemma PageShrinks(keys: set<Key>, cursor: Option<Key>, limit: nat)
    requires 0 < limit && |Page(keys, cursor, limit)| == limit
    ensures
      var rows := Page(keys, cursor, limit);
      var last := rows[limit - 1];
      && |Older(keys, Some(last))| == |Older(keys, cursor)| - limit
      && Descending(Older(keys, cursor)) == rows + Descending(Older(keys, Some(last)))
  {
    hide Descending;
    var all := Older(keys, cursor);
    FullPage(all, limit);
    var last := Descending(all)[limit - 1];
    InElements(Descending(all), last);
    OlderTwice(keys, cursor, last);
  }

  function Flattened(pages: seq<seq<Key>>): seq<Key> {
    if pages == [] then [] else pages[0] + Flattened(pages[1..])
  }

  /**
   Following `next_cursor` to its end reads the whole list below the cursor, newest
   first and each item once, in one page more than the list has full pages.
   */
  lemma {:induction false} PagesAreTheList(keys: set<Key>, cursor: Option<Key>, limit: nat)
    requires 0 < limit
    ensures Flattened(Pages(keys, cursor, limit)) == Descending(Older(keys, cursor))
    ensures 0 < |Pages(keys, cursor, limit)|
    ensures (|Pages(keys, cursor, limit)| - 1) * limit <= |Older(keys, cursor)| < |Pages(keys, cursor, limit)| * limit
    decreases |Older(keys, cursor)|
  {
    hide Descending, Older, Elements;
    var rows := Page(keys, cursor, limit);
    var next := NextCursor(rows, limit);
    if next.None? {
      assert Flattened([rows]) == rows + Flattened([]);
    } else {
      PageShrinks(keys, cursor, limit);
      PagesAreTheList(keys, next, limit);
      var rest := Pages(keys, next, limit);
      assert ([rows] + rest)[1..] == rest;
      OneMorePage(|rest|, limit, |Older(keys, cursor)|);
    }
  }

  lemma OneMorePage(p: nat, limit: nat, n: int)
    requires 0 < p && (p - 1) * limit <= n - limit < p * limit
    ensures p * limit <= n < (p + 1) * limit
  {
  }

  // ---------------------------------------------------------------- the inbox list

  function DirectKeys(db: Db, s: SubId, now: Time, filter: Filter): set<Key> {
    set id | id in db.notifications && InDirectArm(db, s, now, filter, id) :: Key(db.notifications[id].visibleAt, id)
  }

  function BroadcastKeys(db: Db, s: SubId, filter: Filter): set<Key> {
    set b | b in db.broadcasts && InBroadcastArm(db, s, filter, b) :: Key(db.broadcasts[b].createdAt, b)
  }

  /** `list_items_for`: the rows of one page, by their keys. */
  ghost function ListItems(db: Db, s: SubId, now: Time, filter: Filter, cursor: Option<Key>, limit: nat): seq<Key> {
    MergedPage(DirectKeys(db, s, now, filter), BroadcastKeys(db, s, filter), cursor, limit)
  }

  /** Uuids are unique across the two tables. */
  predicate DistinctIds(db: Db) {
    db.notifications.Keys !! db.broadcasts.Keys
  }

  /** The keys of a view stand for its items, one each. */
  lemma ViewKeysAreTheView(db: Db, s: SubId, now: Time, filter: Filter)
    requires DistinctIds(db)
    ensures DirectKeys(db, s, now, filter) !! BroadcastKeys(db, s, filter)
    ensures |DirectKeys(db, s, now, filter) + BroadcastKeys(db, s, filter)|
         == |DirectArm(db, s, now, filter)| + |BroadcastArm(db, s, filter)|
  {
    hide DirectKeys, BroadcastKeys, DirectArm, BroadcastArm;
    DirectKeysAreTheArm(db, s, now, filter);
    BroadcastKeysAreTheArm(db, s, filter);
    var direct, broadcast := DirectKeys(db, s, now, filter), BroadcastKeys(db, s, filter);
    forall k | k in direct ensures k !in broadcast {
      assert k.id in db.notifications;
    }
    Sets.DisjointUnion(direct, broadcast);
  }

  lemma DirectKeysAreTheArm(db: Db, s: SubId, now: Time, filter: Filter)
    ensures |DirectKeys(db, s, now, filter)| == |DirectArm(db, s, now, filter)|
    ensures forall k | k in DirectKeys(db, s, now, filter) :: k.id in db.notifications
  {
    hide InDirectArm;
    var keys := DirectKeys(db, s, now, filter);
    forall id | id in DirectArm(db, s, now, filter) ensures id in IdsOf(keys) {
      assert Key(db.notifications[id].visibleAt, id) in keys;
    }
    assert IdsOf(keys) == DirectArm(db, s, now, filter);
    OneIdPerKey(keys);
  }

  lemma BroadcastKeysAreTheArm(db: Db, s: SubId, filter: Filter)
    ensures |BroadcastKeys(db, s, filter)| == |BroadcastArm(db, s, filter)|
    ensures forall k | k in BroadcastKeys(db, s, filter) :: k.id in db.broadcasts
  {
    hide InBroadcastArm;
    var keys := BroadcastKeys(db, s, filter);
    forall b | b in BroadcastArm(db, s, filter) ensures b in IdsOf(keys) {
      assert Key(db.broadcasts[b].createdAt, b) in keys;
    }
    assert IdsOf(keys) == BroadcastArm(db, s, filter);
    OneIdPerKey(keys);
  }

  function IdsOf(keys: set<Key>): (ids: set<nat>)
    ensures forall k | k in keys :: k.id in ids
  {
    set k | k in keys :: k.id
  }

  lemma {:induction false} OneIdPerKey(keys: set<Key>)
    requires forall x, y | x in keys && y in keys && x.id == y.id :: x == y
    ensures |IdsOf(keys)| == |keys|
    decreases |keys|
  {
    if keys != {} {
      var x :| x in keys;
      OneIdPerKey(keys - {x});
      assert IdsOf(keys) == IdsOf(keys - {x}) + {x.id};
    }
  }

  /** Each page the server answers is the page of the whole view at that cursor. */
  lemma ListItemsIsThePage(db: Db, s: SubId, now: Time, filter: Filter, cursor: Option<Key>, limit: nat)
    requires DistinctIds(db)
    ensures ListItems(db, s, now, filter, cursor, limit)
         == Page(DirectKeys(db, s, now, filter) + BroadcastKeys(db, s, filter), cursor, limit)
  {
    hide MergedPage, Page;
    ViewKeysAreTheView(db, s, now, filter);
    MergedPageIsThePage(DirectKeys(db, s, now, filter), BroadcastKeys(db, s, filter), cursor, limit);
  }

  /** Older by its own time, and at the same time by its id. */
  predicate OlderItem(at: Time, id: nat, k: Key) {
    at < k.ts || (at == k.ts && id < k.id)
  }

  /** A row of the list stands for an item of the view, at the item's own time. */
  predicate ShowsItem(db: Db, s: SubId, now: Time, filter: Filter, k: Key) {
    || (k.id in DirectArm(db, s, now, filter) && k.ts == db.notifications[k.id].visibleAt)
    || (k.id in BroadcastArm(db, s, filter) && k.ts == db.broadcasts[k.id].createdAt)
  }

  /** What becomes of an item of the view: on the page, not below the cursor, or older than a full page. */
  predicate Placed(at: Time, id: nat, rows: seq<Key>, cursor: Option<Key>, limit: nat) {
    || (cursor.Some? && !OlderItem(at, id, cursor.value))
    || (exists i :: 0 <= i < |rows| && rows[i].id == id)
    || (|rows| == limit && forall i | 0 <= i < |rows| :: OlderItem(at, id, rows[i]))
  }

  lemma KeysShowItems(db: Db, s: SubId, now: Time, filter: Filter, k: Key)
    ensures ShowsItem(db, s, now, filter, k) <==> k in DirectKeys(db, s, now, filter) + BroadcastKeys(db, s, filter)
  {
    hide InDirectArm, InBroadcastArm;
  }

  lemma PlacedByKey(keys: set<Key>, cursor: Option<Key>, limit: nat, k: Key)
    requires k in keys
    ensures Placed(k.ts, k.id, Page(keys, cursor, limit), cursor, limit)
  {
    hide Descending, Elements, Descends;
    var rows := Page(keys, cursor, limit);
    TakeIsTop(Older(keys, cursor), limit);
    assert |Elements(rows)| == |rows| by { OrderedSize(rows); }
    if k in Older(keys, cursor) {
      InElements(rows, k);
      if k !in rows {
        CutMeansFull(Elements(rows), Older(keys, cursor), limit, k);
        forall i | 0 <= i < |rows| ensures Below(k, rows[i]) {
          InElements(rows, rows[i]);
        }
      }
    }
  }

  /**
   What a reader gets: at most `limit` rows, each an item of the view at its own time and
   older than the cursor, each older than the one before; and every item of the view that
   is below the cursor and not on the page is older than all of a full page.
   */
  lemma PageIsTheNewest(db: Db, s: SubId, now: Time, filter: Filter, cursor: Option<Key>, limit: nat)
    requires DistinctIds(db)
    ensures
      var rows := ListItems(db, s, now, filter, cursor, limit);
      && |rows| <= limit
      && (forall k | k in rows :: ShowsItem(db, s, now, filter, k) && (cursor.Some? ==> OlderItem(k.ts, k.id, cursor.value)))
      && (forall i, j | 0 <= i < j < |rows| :: OlderItem(rows[j].ts, rows[j].id, rows[i]))
      && (forall id | id in DirectArm(db, s, now, filter) :: Placed(db.notifications[id].visibleAt, id, rows, cursor, limit))
      && (forall b | b in BroadcastArm(db, s, filter) :: Placed(db.broadcasts[b].createdAt, b, rows, cursor, limit))
  {
    hide ListItems, Page, DirectKeys, BroadcastKeys, InDirectArm, InBroadcastArm, Placed;
    var keys := DirectKeys(db, s, now, filter) + BroadcastKeys(db, s, filter);
    var rows := Page(keys, cursor, limit);
    ListItemsIsThePage(db, s, now, filter, cursor, limit);
    PageRows(keys, cursor, limit);
    forall k | k in rows ensures ShowsItem(db, s, now, filter, k) {
      KeysShowItems(db, s, now, filter, k);
    }
    forall id | id in DirectArm(db, s, now, filter) ensures Placed(db.notifications[id].visibleAt, id, rows, cursor, limit) {
      var k := Key(db.notifications[id].visibleAt, id);
      KeysShowItems(db, s, now, filter, k);
      PlacedByKey(keys, cursor, limit, k);
    }
    forall b | b in BroadcastArm(db, s, filter) ensures Placed(db.broadcasts[b].createdAt, b, rows, cursor, limit) {
      var k := Key(db.broadcasts[b].createdAt, b);
      KeysShowItems(db, s, now, filter, k);
      PlacedByKey(keys, cursor, limit, k);
    }
  }

  lemma PageRows(keys: set<Key>, cursor: Option<Key>, limit: nat)
    ensures
      var rows := Page(keys, cursor, limit);
      && |rows| <= limit && Descends(rows)
      && forall k | k in rows :: k in keys && (cursor.Some? ==> Below(k, cursor.value))
  {
    hide Descending, Elements;
    var rows := Page(keys, cursor, limit);
    TakeIsTop(Older(keys, cursor), limit);
    forall k | k in rows ensures k in Older(keys, cursor) {
      InElements(rows, k);
    }
  }

  /** Reading on to the end gives the whole view, newest first, each item once. */
  lemma PagesListTheView(db: Db, s: SubId, now: Time, filter: Filter, limit: nat)
    requires DistinctIds(db) && 0 < limit
    ensures
      var keys := DirectKeys(db, s, now, filter) + BroadcastKeys(db, s, filter);
      var list := Flattened(Pages(keys, None, limit));
      && (forall i, j | 0 <= i < j < |list| :: OlderItem(list[j].ts, list[j].id, list[i]))
      && (forall k :: k in list <==> ShowsItem(db, s, now, filter, k))
      && |list| == |DirectArm(db, s, now, filter)| + |BroadcastArm(db, s, filter)|
  {
    hide Flattened, Pages, Descending, DirectKeys, BroadcastKeys, ShowsItem, DirectArm, BroadcastArm;
    var keys := DirectKeys(db, s, now, filter) + BroadcastKeys(db, s, filter);
    ViewKeysAreTheView(db, s, now, filter);
    PagesAreTheList(keys, None, limit);
    forall k ensures k in Descending(keys) <==> ShowsItem(db, s, now, filter, k) {
      KeysShowItems(db, s, now, filter, k);
      InElements(Descending(keys), k);
    }
  }

  // ---------------------------------------------------------------- the management plane's list

  /** `list_subscriber_notifications`: every stored row, oldest first. */
  ghost function StoredPages(keys: set<Key>, after: Option<Key>, limit: nat): seq<seq<Key>>
    requires 0 < limit
    decreases |Newer(keys, after)|
  {
    var rows := Take(Ascending(Newer(keys, after)), limit);
    if |rows| != limit then [rows]
    else
      StoredPageShrinks(keys, after, limit);
      [rows] + StoredPages(keys, Some(rows[limit - 1]), limit)
  }

  function Newer(keys: set<Key>, after: Option<Key>): set<Key> {
    if after.None? then keys else Above(keys, after.value)
  }

  lemma StoredPageShrinks(keys: set<Key>, after: Option<Key>, limit: nat)
    requires 0 < limit && |Take(Ascending(Newer(keys, after)), limit)| == limit
    ensures
      var rows := Take(Ascending(Newer(keys, after)), limit);
      && |Newer(keys, Some(rows[limit - 1]))| < |Newer(keys, after)|
      && Ascending(Newer(keys, after)) == rows + Ascending(Newer(keys, Some(rows[limit - 1])))
  {
    hide Ascending;
    var rest := Newer(keys, after);
    FullChunk(rest, limit);
    var last := Ascending(rest)[limit - 1];
    assert Above(rest, last) == Newer(keys, Some(last));
  }

  /** All rows of a subscriber, visible or not, muted or not. */
  function StoredKeys(db: Db, s: SubId): set<Key> {
    set id | id in db.notifications && db.notifications[id].subscriber == s :: Key(db.notifications[id].visibleAt, id)
  }

  /** The management plane's list, followed to its end: the subscriber's rows at their own times, oldest first. */
  lemma StoredPagesListTheRows(db: Db, s: SubId, limit: nat)
    requires 0 < limit
    ensures
      var list := Flattened(StoredPages(StoredKeys(db, s), None, limit));
      && (forall i, j | 0 <= i < j < |list| :: OlderItem(list[i].ts, list[i].id, list[j]))
      && (forall k :: k in list <==> k.id in db.notifications && db.notifications[k.id].subscriber == s
                                     && db.notifications[k.id].visibleAt == k.ts)
  {
    hide Flattened, StoredPages, Ascending;
    var keys := StoredKeys(db, s);
    StoredPagesAreTheList(keys, None, limit);
    forall k ensures k in Ascending(keys) <==> k in keys {
      InElements(Ascending(keys), k);
    }
  }

  lemma {:induction false} StoredPagesAreTheList(keys: set<Key>, after: Option<Key>, limit: nat)
    requires 0 < limit
    ensures Flattened(StoredPages(keys, after, limit)) == Ascending(Newer(keys, after))
    decreases |Newer(keys, after)|
  {
    hide Ascending, Newer;
    var rows := Take(Ascending(Newer(keys, after)), limit);
    if |rows| != limit {
      assert Flattened([rows]) == rows + Flattened([]);
    } else {
      StoredPageShrinks(keys, after, limit);
      StoredPagesAreTheList(keys, Some(rows[limit - 1]), limit);
      var rest := StoredPages(keys, Some(rows[limit - 1]), limit);
      assert ([rows] + rest)[1..] == rest;
    }
  }
}
