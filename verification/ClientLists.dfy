/**
 Pages against the list they are cut from: when folding in a first page, and when
 appending a further one, leaves the client with a prefix of the list and a cursor at its
 end. `q` is everything a view's list will ever hold, newest first.
 */
module ClientLists {
  import opened Wrappers
  import opened Keyset
  import opened KeysetList
  import opened InboxClient

  /** A page size the client may send. */
  type Limit = n: nat | 1 <= n <= 100 witness 20

  // ---------------------------------------------------------------- lists of items

  function Keys(q: seq<Item>): (keys: seq<Key>)
    ensures |keys| == |q| && forall i | 0 <= i < |q| :: keys[i] == q[i].key
  {
    seq(|q|, i requires 0 <= i < |q| => q[i].key)
  }

  /** In the server's order: by time, then by uuid, whatever the source. */
  predicate InOrder(q: seq<Item>) {
    forall i, j | 0 <= i < j < |q| :: Below(q[j].key, q[i].key)
  }

  /** The item of the list with this key. */
  ghost function Having(q: seq<Item>, key: Key): Item {
    if x :| x in q && x.key == key then x else Item(FromNotification, key)
  }

  /** The server's answer for one page of a list, as the list query computes it. */
  ghost function ServerPage(list: seq<Item>, cursor: Option<Key>, limit: Limit): ListPage {
    var rows := Page(Elements(Keys(list)), cursor, limit);
    ListPage(seq(|rows|, i requires 0 <= i < |rows| => Having(list, rows[i])), NextCursor(rows, limit))
  }

  /** How many rows a page below position `n` holds. */
  function RowsBelow(q: seq<Item>, n: nat, limit: Limit): nat
    requires n <= |q|
  {
    if |q| - n <= limit then |q| - n else limit
  }

  /** The page below position `n`. */
  function PageAt(q: seq<Item>, n: nat, limit: Limit): ListPage
    requires n <= |q|
  {
    var k := RowsBelow(q, n, limit);
    ListPage(q[n..n + k], if k == limit then Some(q[n + k - 1].key) else None)
  }

  lemma ListIsItsDescending(q: seq<Key>)
    requires Descends(q)
    ensures Descending(Elements(q)) == q && |Elements(q)| == |q|
  {
    DescendingIsUnique(q, Descending(Elements(q)));
  }

  /** The rows of a page are a segment of the keys: from their head, or from just below the cursor. */
  lemma RowsAreASegment(keys: seq<Key>, n: nat, limit: Limit)
    requires Descends(keys) && n <= |keys|
    ensures Page(Elements(keys), if n == 0 then None else Some(keys[n - 1]), limit) == Take(keys[n..], limit)
  {
    hide Descending, Elements, Descends;
    ListIsItsDescending(keys);
    if n > 0 {
      FullPage(Elements(keys), n);
    } else {
      assert keys[0..] == keys;
    }
  }

  lemma OneItemEach(q: seq<Item>, i: nat)
    requires InOrder(q) && i < |q|
    ensures Having(q, q[i].key) == q[i]
  {
    assert q[i] in q;
    var x := Having(q, q[i].key);
    assert x in q && x.key == q[i].key;
    var j :| 0 <= j < |q| && q[j] == x;
    assert i == j;
  }

  lemma KeysDescend(q: seq<Item>)
    requires InOrder(q)
    ensures Descends(Keys(q))
  {
  }

  lemma SuffixInOrder(q: seq<Item>, start: nat)
    requires InOrder(q) && start <= |q|
    ensures InOrder(q[start..])
  {
  }

  /** A page is a segment of the list: from its head, or from just below the cursor. */
  lemma ServerPageIsASegment(q: seq<Item>, start: nat, n: nat, limit: Limit)
    requires InOrder(q) && start <= n <= |q|
    ensures ServerPage(q[start..], if n == start then None else Some(q[n - 1].key), limit) == PageAt(q, n, limit)
  {
    hide Page, Having, InOrder, Elements;
    var list, k := q[start..], RowsBelow(q, n, limit);
    RowsOfSuffix(q, start, n, limit);
    SuffixInOrder(q, start);
    forall i | n <= i < n + k ensures Having(list, q[i].key) == q[i] {
      OneItemEach(list, i - start);
    }
    hide Keys;
  }

  lemma RowsOfSuffix(q: seq<Item>, start: nat, n: nat, limit: Limit)
    requires InOrder(q) && start <= n <= |q|
    ensures
      var rows := Page(Elements(Keys(q[start..])), if n == start then None else Some(q[n - 1].key), limit);
      |rows| == RowsBelow(q, n, limit) && forall i | 0 <= i < |rows| :: rows[i] == q[n + i].key
  {
    hide Page, InOrder, Elements;
    SuffixInOrder(q, start);
    KeysDescend(q[start..]);
    RowsAreASegment(Keys(q[start..]), n - start, limit);
  }

  // ---------------------------------------------------------------- what is loaded

  /** The loaded items are a segment of the list, with the cursor at its end. */
  predicate Loaded(c: Client, q: seq<Item>, at: nat) {
    && at + |c.items| <= |q| && c.items == q[at..at + |c.items|]
    && (c.hasMore ==> c.cursor == if c.items == [] then None else Some(c.items[|c.items| - 1].key))
    && (!c.hasMore ==> at + |c.items| == |q|)
  }

  /** Whether a list is loaded is a matter of the list alone. */
  lemma LoadedFrame(c: Client, c': Client, q: seq<Item>, at: nat)
    requires c'.items == c.items && c'.hasMore == c.hasMore && c'.cursor == c.cursor
    ensures Loaded(c', q, at) == Loaded(c, q, at)
  {
  }

  /** Items have one place in a list. */
  lemma OnePlace(q: seq<Item>, i: nat, s: nat, e: nat)
    requires InOrder(q) && i < |q| && s <= e <= |q|
    ensures q[i] in q[s..e] <==> s <= i < e
  {
  }

  lemma PlaceOf(q: seq<Item>, x: Item, s: nat, e: nat) returns (i: nat)
    requires s <= e <= |q| && x in q[s..e]
    ensures s <= i < e && q[i] == x
  {
    var k :| 0 <= k < |q[s..e]| && q[s..e][k] == x;
    i := s + k;
  }

  /** A loaded list that ends with the item at `e - 1` ends at `e`. */
  lemma EndsWhere(c: Client, q: seq<Item>, at: nat, e: nat)
    requires InOrder(q) && Loaded(c, q, at) && 0 < e <= |q| && c.items != []
    requires c.items[|c.items| - 1].key == q[e - 1].key
    ensures at + |c.items| == e
  {
    var last := at + |c.items| - 1;
    assert c.items[|c.items| - 1] == q[last];
  }

  // ---------------------------------------------------------------- folding a page in

  /** Dropped from the tail though it lies below the page's last item. */
  predicate WronglyDropped(x: Item, boundary: Item) {
    Below(x.key, boundary.key) && !OlderThan(x, boundary)
  }

  /** Kept in the tail though it does not. */
  predicate WronglyKept(x: Item, boundary: Item) {
    !Below(x.key, boundary.key) && OlderThan(x, boundary)
  }

  predicate RightlyKept(x: Item, boundary: Item) {
    Below(x.key, boundary.key) && OlderThan(x, boundary)
  }

  /** The two orders part company only at ties between the sources. */
  lemma OrdersDifferAtTies(x: Item, boundary: Item)
    ensures WronglyDropped(x, boundary) <==>
              x.key.ts == boundary.key.ts && x.source == FromNotification && boundary.source == FromBroadcast
              && x.key.id < boundary.key.id
    ensures WronglyKept(x, boundary) <==>
              x.key.ts == boundary.key.ts && x.source == FromBroadcast && boundary.source == FromNotification
              && boundary.key.id <= x.key.id
  {
  }

  /**
   When the client's tie order does harm: the page would be folded in, and either the tail
   keeps an item from above the page, or it loses one from below while keeping another.
   */
  predicate TiesMislead(c: Client, page: ListPage) {
    && page.next.Some? && page.items != [] && Overlaps(c.items, page.items)
    && var boundary := page.items[|page.items| - 1];
       || (exists x | x in c.items :: x !in page.items && WronglyKept(x, boundary))
       || (&& (exists x | x in c.items :: x !in page.items && WronglyDropped(x, boundary))
           && (exists x | x in c.items :: x !in page.items && RightlyKept(x, boundary)))
  }

  lemma EndOfPage(q: seq<Item>, i: nat, e: nat)
    requires InOrder(q) && i < |q| && 0 < e <= |q|
    ensures Below(q[i].key, q[e - 1].key) <==> e <= i
  {
  }

  lemma OneTailStep(q: seq<Item>, a: nat, b: nat, page: seq<Item>, boundary: Item)
    requires a < b <= |q|
    ensures Tail(q[a..b], page, boundary)
         == (if q[a] !in page && OlderThan(q[a], boundary) then [q[a]] else []) + Tail(q[a + 1..b], page, boundary)
  {
  }

  lemma EmptyTail(q: seq<Item>, a: nat, page: seq<Item>, boundary: Item)
    requires a <= |q|
    ensures Tail(q[a..a], page, boundary) == []
  {
  }

  /** On the items off the page the two orders agree about what lies below it. */
  predicate OrdersAgree(q: seq<Item>, a: nat, b: nat, s: nat, e: nat)
    requires 0 < e <= |q| && b <= |q|
  {
    forall i | a <= i < b && !(s <= i < e) :: OlderThan(q[i], q[e - 1]) <==> e <= i
  }

  lemma AgreeingRest(q: seq<Item>, a: nat, b: nat, s: nat, e: nat)
    requires 0 < e <= |q| && a < b <= |q| && OrdersAgree(q, a, b, s, e)
    ensures OrdersAgree(q, a + 1, b, s, e)
    ensures s <= a < e || (OlderThan(q[a], q[e - 1]) <==> e <= a)
  {
  }

  /** Where the orders agree, what the fold keeps of the loaded items is what lies below the page. */
  lemma {:induction false} TailIsBelowThePage(q: seq<Item>, a: nat, b: nat, s: nat, e: nat)
    requires InOrder(q) && s < e <= |q| && a <= b <= |q|
    requires OrdersAgree(q, a, b, s, e)
    ensures Tail(q[a..b], q[s..e], q[e - 1]) == if a <= e then (if e <= b then q[e..b] else []) else q[a..b]
    decreases b - a
  {
    hide Tail, InOrder, OlderThan, OrdersAgree;
    if a == b {
      EmptyTail(q, a, q[s..e], q[e - 1]);
    } else {
      AgreeingRest(q, a, b, s, e);
      TailIsBelowThePage(q, a + 1, b, s, e);
      OneTailStep(q, a, b, q[s..e], q[e - 1]);
      OnePlace(q, a, s, e);
      assert [q[a]] + q[a + 1..b] == q[a..b];
    }
  }

  lemma SharedItem(q: seq<Item>, a: nat, b: nat, s: nat, e: nat)
    requires InOrder(q) && a <= b <= |q| && s <= e <= |q|
    ensures Overlaps(q[a..b], q[s..e]) ==> a < e && s < b
  {
  }

  lemma ResetIsLoaded(c: Client, q: seq<Item>, s: nat, pageSize: Limit)
    requires s <= |q| && Resets(c, PageAt(q, s, pageSize))
    ensures Loaded(Merged(c, PageAt(q, s, pageSize)), q, s)
  {
    hide Tail, Overlaps, Unloaded;
  }

  /** A fold that keeps exactly the items below the page leaves no hole, and the same last item. */
  lemma FoldedIsASegment(c: Client, q: seq<Item>, a: nat, b: nat, s: nat, e: nat, page: ListPage)
    requires InOrder(q) && a <= b <= |q| && s < e <= |q| && c.items == q[a..b]
    requires page == ListPage(q[s..e], Some(q[e - 1].key)) && !Resets(c, page)
    requires OrdersAgree(q, a, b, s, e)
    ensures a < e < b && Merged(c, page) == c.(items := q[s..b], shown := Merged(c, page).shown)
  {
    hide InOrder, Tail, Overlaps, OrdersAgree, Unloaded;
    assert q[s..e][e - s - 1] == q[e - 1];
    SharedItem(q, a, b, s, e);
    TailIsBelowThePage(q, a, b, s, e);
    assert q[s..e] + q[e..b] == q[s..b];
  }

  lemma AgreeingOrders(c: Client, q: seq<Item>, a: nat, s: nat, e: nat)
    requires InOrder(q) && s < e <= |q| && a + |c.items| <= |q| && c.items == q[a..a + |c.items|]
    requires forall x | x in c.items && x !in q[s..e] :: !WronglyKept(x, q[e - 1]) && !WronglyDropped(x, q[e - 1])
    ensures OrdersAgree(q, a, a + |c.items|, s, e)
  {
    hide OlderThan, InOrder;
    forall i | a <= i < a + |c.items| && !(s <= i < e) ensures OlderThan(q[i], q[e - 1]) <==> e <= i {
      OnePlace(q, i, s, e);
      EndOfPage(q, i, e);
      assert c.items[i - a] == q[i];
    }
  }

  /** With no misplaced item the fold is a segment with the cursor at its end. */
  lemma CleanFoldIsLoaded(c: Client, q: seq<Item>, at: nat, s: nat, pageSize: Limit)
    requires InOrder(q) && Loaded(c, q, at) && s <= |q| && !Resets(c, PageAt(q, s, pageSize))
    requires
      var page := PageAt(q, s, pageSize);
      forall x | x in c.items && x !in page.items ::
        !WronglyKept(x, page.items[|page.items| - 1]) && !WronglyDropped(x, page.items[|page.items| - 1])
    ensures
      var c' := Merged(c, PageAt(q, s, pageSize));
      && Loaded(c', q, s)
      && c'.hasMore == c.hasMore && c'.cursor == c.cursor && s + |c'.items| == at + |c.items|
      && c.items != [] && c'.items != []
  {
    hide InOrder, Tail, Overlaps, OlderThan, WronglyKept, WronglyDropped, Unloaded, Resets, Merged, OrdersAgree;
    var page := PageAt(q, s, pageSize);
    var b, e := at + |c.items|, s + |page.items|;
    FoldMeansFull(c, q, s, pageSize);
    assert page.items[|page.items| - 1] == q[e - 1];
    AgreeingOrders(c, q, at, s, e);
    FoldedIsASegment(c, q, at, b, s, e, page);
    assert q[s..b][b - s - 1] == q[at..b][b - at - 1];
  }

  lemma FoldMeansFull(c: Client, q: seq<Item>, s: nat, pageSize: Limit)
    requires s <= |q| && !Resets(c, PageAt(q, s, pageSize))
    ensures
      var page := PageAt(q, s, pageSize);
      page.items != [] && page == ListPage(q[s..s + |page.items|], Some(q[s + |page.items| - 1].key))
  {
    hide Tail, Overlaps;
  }

  /** An item from above the page has no place in a list that starts with the page. */
  lemma KeptFromAbove(c: Client, q: seq<Item>, at: nat, s: nat, pageSize: Limit, x: Item)
    requires InOrder(q) && Loaded(c, q, at) && s <= |q|
    requires
      var page := PageAt(q, s, pageSize);
      && page.next.Some? && page.items != [] && Overlaps(c.items, page.items)
      && x in c.items && x !in page.items && WronglyKept(x, page.items[|page.items| - 1])
    ensures !Loaded(Merged(c, PageAt(q, s, pageSize)), q, s)
  {
    hide InOrder, Overlaps, Loaded, Merged, WronglyKept, PageAt, OlderThan, Below, Tail;
    var page := PageAt(q, s, pageSize);
    LoadedIsASegment(c, q, at);
    NotBelowBoundary(x, page);
    KeptMeansFolded(c, page, x);
    var i := PlaceOf(q, x, at, at + |c.items|);
    OffThePage(q, s, pageSize, i);
    StrayFromAbove(Merged(c, page), q, s, i);
  }

  /** Off the page and not below its last item is above it; off the page and below it is below it. */
  lemma OffThePage(q: seq<Item>, s: nat, pageSize: Limit, i: nat)
    requires InOrder(q) && s <= |q| && i < |q| && PageAt(q, s, pageSize).items != []
    requires q[i] !in PageAt(q, s, pageSize).items
    ensures
      var boundary := PageAt(q, s, pageSize).items[|PageAt(q, s, pageSize).items| - 1];
      if Below(q[i].key, boundary.key) then s <= i else i < s
  {
    hide InOrder;
    var e := s + |PageAt(q, s, pageSize).items|;
    OnePlace(q, i, s, e);
    EndOfPage(q, i, e);
  }

  lemma NotBelowBoundary(x: Item, page: ListPage)
    requires page.items != [] && WronglyKept(x, page.items[|page.items| - 1])
    ensures !Below(x.key, page.items[|page.items| - 1].key) && OlderThan(x, page.items[|page.items| - 1])
  {
  }

  lemma StrayFromAbove(c: Client, q: seq<Item>, s: nat, i: nat)
    requires InOrder(q) && i < s <= |q| && q[i] in c.items
    ensures !Loaded(c, q, s)
  {
    hide InOrder, Loaded;
    if Loaded(c, q, s) {
      LoadedIsASegment(c, q, s);
      OnePlace(q, i, s, s + |c.items|);
    }
  }

  lemma LoadedIsASegment(c: Client, q: seq<Item>, at: nat)
    requires Loaded(c, q, at)
    ensures at + |c.items| <= |q| && c.items == q[at..at + |c.items|]
  {
  }

  /** A page that overlaps and leaves something in the tail is folded in. */
  lemma KeptMeansFolded(c: Client, page: ListPage, z: Item)
    requires page.next.Some? && page.items != [] && Overlaps(c.items, page.items)
    requires z in c.items && z !in page.items && OlderThan(z, page.items[|page.items| - 1])
    ensures
      var tail := Tail(c.items, page.items, page.items[|page.items| - 1]);
      && z in tail && Merged(c, page).items == page.items + tail && z in Merged(c, page).items
      && Merged(c, page).hasMore == c.hasMore && Merged(c, page).cursor == c.cursor
  {
    hide Overlaps, OlderThan;
  }

  /** A tail that loses an item from below and keeps another no longer ends where the cursor says. */
  lemma DroppedFromBelow(c: Client, q: seq<Item>, at: nat, s: nat, pageSize: Limit, x: Item, z: Item)
    requires InOrder(q) && Loaded(c, q, at) && s <= |q|
    requires
      var page := PageAt(q, s, pageSize);
      && page.next.Some? && page.items != [] && Overlaps(c.items, page.items)
      && x in c.items && x !in page.items && WronglyDropped(x, page.items[|page.items| - 1])
      && z in c.items && z !in page.items && RightlyKept(z, page.items[|page.items| - 1])
    ensures !Loaded(Merged(c, PageAt(q, s, pageSize)), q, s)
  {
    hide InOrder, Overlaps, Merged, Loaded, RightlyKept, WronglyDropped, PageAt, Below;
    var page := PageAt(q, s, pageSize);
    LoadedIsASegment(c, q, at);
    DroppedIsGone(c, page, x, z);
    BelowBoundary(x, page);
    var i := PlaceOf(q, x, at, at + |c.items|);
    OffThePage(q, s, pageSize, i);
    LostFromBelow(c, Merged(c, page), q, at, s, i);
  }

  lemma BelowBoundary(x: Item, page: ListPage)
    requires page.items != [] && WronglyDropped(x, page.items[|page.items| - 1])
    ensures Below(x.key, page.items[|page.items| - 1].key)
  {
  }

  lemma DroppedIsGone(c: Client, page: ListPage, x: Item, z: Item)
    requires page.next.Some? && page.items != [] && Overlaps(c.items, page.items) && x !in page.items
    requires WronglyDropped(x, page.items[|page.items| - 1])
    requires z in c.items && z !in page.items && RightlyKept(z, page.items[|page.items| - 1])
    ensures
      var c' := Merged(c, page);
      && x !in c'.items && c.items != [] && c'.items != [] && c'.hasMore == c.hasMore && c'.cursor == c.cursor
  {
    hide Overlaps, OlderThan, Merged;
    KeptMeansFolded(c, page, z);
  }

  /** A list that should reach as far as before but lacks an item from below its start is not loaded. */
  lemma LostFromBelow(c: Client, c': Client, q: seq<Item>, at: nat, s: nat, i: nat)
    requires InOrder(q) && Loaded(c, q, at) && c.items != [] && c'.items != []
    requires c'.hasMore == c.hasMore && c'.cursor == c.cursor
    requires s <= i < at + |c.items| <= |q| && q[i] !in c'.items
    ensures !Loaded(c', q, s)
  {
    hide InOrder, Loaded;
    if Loaded(c', q, s) {
      LoadedIsASegment(c', q, s);
      SameEnd(c, c', q, at, s);
      OnePlace(q, i, s, s + |c'.items|);
    }
  }

  /** Two loaded lists with one cursor end at the same place. */
  lemma SameEnd(c: Client, c': Client, q: seq<Item>, at: nat, s: nat)
    requires InOrder(q) && Loaded(c, q, at) && Loaded(c', q, s) && c.items != [] && c'.items != []
    requires c'.hasMore == c.hasMore && c'.cursor == c.cursor
    ensures s + |c'.items| == at + |c.items|
  {
    hide InOrder;
    if c.hasMore {
      assert c.items[|c.items| - 1] == q[at + |c.items| - 1];
      EndsWhere(c', q, s, at + |c.items|);
    }
  }

  /**
   Exactly when folding in a first page leaves a prefix of the list with the cursor at its
   end, over every loaded list and every first page.
   */
  lemma FoldFitsIff(c: Client, q: seq<Item>, at: nat, s: nat, pageSize: Limit)
    requires InOrder(q) && Loaded(c, q, at) && s <= |q|
    ensures
      var page := PageAt(q, s, pageSize);
      Loaded(Merged(c, page), q, s) <==> !TiesMislead(c, page)
  {
    hide InOrder, Loaded, Merged, Overlaps, WronglyKept, WronglyDropped, RightlyKept;
    var page := PageAt(q, s, pageSize);
    if Resets(c, page) {
      ResetIsLoaded(c, q, s, pageSize);
      ResetKeepsNothing(c, page);
    } else {
      FoldMeansFull(c, q, s, pageSize);
      var boundary := page.items[|page.items| - 1];
      if x :| x in c.items && x !in page.items && WronglyKept(x, boundary) {
        KeptFromAbove(c, q, at, s, pageSize, x);
      } else if x :| x in c.items && x !in page.items && WronglyDropped(x, boundary) {
        var z := SomethingKept(c, page);
        DroppedFromBelow(c, q, at, s, pageSize, x, z);
      } else {
        CleanFoldIsLoaded(c, q, at, s, pageSize);
      }
    }
  }

  /** A page that overlaps is only taken for the whole list when the tail keeps nothing, right or wrong. */
  lemma ResetKeepsNothing(c: Client, page: ListPage)
    requires Resets(c, page)
    ensures !TiesMislead(c, page)
  {
    if TiesMislead(c, page) {
      var boundary := page.items[|page.items| - 1];
      var tail := Tail(c.items, page.items, boundary);
      assert forall x :: x !in tail;
    }
  }

  lemma SomethingKept(c: Client, page: ListPage) returns (z: Item)
    requires !Resets(c, page)
    requires forall x | x in c.items && x !in page.items :: !WronglyKept(x, page.items[|page.items| - 1])
    ensures z in c.items && z !in page.items && RightlyKept(z, page.items[|page.items| - 1])
  {
    var boundary := page.items[|page.items| - 1];
    z := Tail(c.items, page.items, boundary)[0];
    assert z in Tail(c.items, page.items, boundary);
  }

  // ---------------------------------------------------------------- appending a page

  lemma OneUnloadedStep(q: seq<Item>, b: nat, t: nat, loaded: seq<Item>)
    requires b < t <= |q|
    ensures Unloaded(q[b..t], loaded) == (if q[b] !in loaded then [q[b]] else []) + Unloaded(q[b + 1..t], loaded)
  {
  }

  lemma NothingToLoad(q: seq<Item>, b: nat, loaded: seq<Item>)
    requires b <= |q|
    ensures Unloaded(q[b..b], loaded) == [] && q[b..b] == []
  {
  }

  /** What a page from position `n` adds to a list that is loaded down to `e`. */
  lemma {:induction false} UnloadedBelow(q: seq<Item>, s: nat, e: nat, n: nat, t: nat)
    requires InOrder(q) && s <= e <= |q| && s <= n <= t <= |q|
    ensures Unloaded(q[n..t], q[s..e]) == if e <= n then q[n..t] else if e <= t then q[e..t] else []
    decreases t - n
  {
    hide InOrder, Unloaded;
    if n == t {
      NothingToLoad(q, n, q[s..e]);
    } else {
      UnloadedBelow(q, s, e, n + 1, t);
      OneUnloadedStep(q, n, t, q[s..e]);
      OnePlace(q, n, s, e);
      if e <= n {
        assert [q[n]] + q[n + 1..t] == q[n..t];
      }
    }
  }

  /** The page continues the list, or repeats its end and goes on from there. */
  predicate Continues(s: nat, e: nat, n: nat, t: nat) {
    s <= n <= e <= t
  }

  lemma ContinuedIsLoaded(c: Client, q: seq<Item>, s: nat, e: nat, n: nat, limit: Limit)
    requires InOrder(q) && s <= e <= |q| && n <= |q| && c.items == q[s..e]
    requires Continues(s, e, n, n + RowsBelow(q, n, limit))
    ensures Loaded(Extended(c, PageAt(q, n, limit)), q, s)
  {
    hide InOrder, Unloaded;
    var t := n + RowsBelow(q, n, limit);
    UnloadedBelow(q, s, e, n, t);
    JoinsUp(q, s, e, t);
  }

  lemma JoinsUp(q: seq<Item>, s: nat, e: nat, t: nat)
    requires s <= e <= t <= |q|
    ensures q[s..e] + q[e..t] == q[s..t]
    ensures t > s ==> q[s..t][t - s - 1] == q[t - 1]
  {
  }

  /**
   Exactly when a further page fits a list loaded from `s` to `e`: it starts no deeper than
   the list ends, no higher than it starts, and reaches its end.
   */
  lemma MoreFitsIff(c: Client, q: seq<Item>, s: nat, e: nat, n: nat, limit: Limit)
    requires InOrder(q) && s <= e <= |q| && n <= |q| && c.items == q[s..e]
    ensures Loaded(Extended(c, PageAt(q, n, limit)), q, s) <==> Continues(s, e, n, n + RowsBelow(q, n, limit))
  {
    hide InOrder, Unloaded, Loaded;
    var t := n + RowsBelow(q, n, limit);
    if Continues(s, e, n, t) {
      ContinuedIsLoaded(c, q, s, e, n, limit);
    } else if n < s {
      StartsTooHigh(c, q, s, e, n, limit);
    } else if e < n {
      StartsTooDeep(c, q, s, e, n, limit);
    } else {
      EndsTooHigh(c, q, s, e, n, limit);
    }
  }

  lemma StartsTooHigh(c: Client, q: seq<Item>, s: nat, e: nat, n: nat, limit: Limit)
    requires InOrder(q) && s <= e <= |q| && n < s && c.items == q[s..e]
    ensures !Loaded(Extended(c, PageAt(q, n, limit)), q, s)
  {
    hide InOrder;
    var c' := Extended(c, PageAt(q, n, limit));
    assert PageAt(q, n, limit).items[0] == q[n];
    OnePlace(q, n, s, e);
    assert q[n] in c'.items;
    if Loaded(c', q, s) {
      OnePlace(q, n, s, s + |c'.items|);
    }
  }

  lemma StartsTooDeep(c: Client, q: seq<Item>, s: nat, e: nat, n: nat, limit: Limit)
    requires InOrder(q) && s <= e < n <= |q| && c.items == q[s..e]
    ensures !Loaded(Extended(c, PageAt(q, n, limit)), q, s)
  {
    hide InOrder, Unloaded;
    var t := n + RowsBelow(q, n, limit);
    var c' := Extended(c, PageAt(q, n, limit));
    UnloadedBelow(q, s, e, n, t);
    assert c'.items == q[s..e] + q[n..t];
    if Loaded(c', q, s) && n < t {
      assert c'.items[e - s] == q[n] && q[s..s + |c'.items|][e - s] == q[e];
      OnePlace(q, e, n, n + 1);
    }
  }

  lemma EndsTooHigh(c: Client, q: seq<Item>, s: nat, e: nat, n: nat, limit: Limit)
    requires InOrder(q) && s <= n <= e <= |q| && n + RowsBelow(q, n, limit) < e && c.items == q[s..e]
    ensures !Loaded(Extended(c, PageAt(q, n, limit)), q, s)
  {
    hide InOrder, Unloaded;
    var t := n + RowsBelow(q, n, limit);
    var c' := Extended(c, PageAt(q, n, limit));
    UnloadedBelow(q, s, e, n, t);
    assert c'.items == q[s..e] + [] == q[s..e];
    if Loaded(c', q, s) {
      EndsWhere(c', q, s, t);
    }
  }
}
