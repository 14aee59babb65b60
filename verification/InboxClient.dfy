/**
 The headless client's copy of the list. The synchronous halves of its async methods
 are methods here; what runs between them (the request on the wire) belongs to the
 runs in `ClientRuns`.
 */
module InboxClient {
  import opened Wrappers
  import opened Keyset
  import opened InboxViews
  import TypeId

  // ---------------------------------------------------------------- items and their order

  datatype Source = FromNotification | FromBroadcast

  /** An item as the client holds it: where it comes from, `occurredAt` and the uuid in its id. */
  datatype Item = Item(source: Source, key: Key)

  /** The TypeID prefixes of `ids.rs`. */
  function PrefixOf(source: Source): string {
    match source
    case FromNotification => "notif"
    case FromBroadcast => "bcast"
  }

  /** The `id` of an item on the wire. */
  function WireId(x: Item): string {
    TypeId.TypeIdOf(PrefixOf(x.source), TypeId.BytesOf(x.key.id, 16))
  }

  /**
   `isOlderThan`: by time, then by prefixed id. Within one source that is the order of the
   uuids; across the sources the prefix decides, whatever the uuids are.
   */
  predicate OlderThan(x: Item, boundary: Item) {
    if x.key.ts != boundary.key.ts then x.key.ts < boundary.key.ts
    else if x.source == boundary.source then x.key.id < boundary.key.id
    else x.source == FromBroadcast
  }

  /** The comparison of the code, string for string. */
  lemma OlderThanComparesIds(x: Item, y: Item)
    requires x.key.id < TypeId.Pow2(128) && y.key.id < TypeId.Pow2(128)
    ensures OlderThan(x, y) <==> x.key.ts < y.key.ts || (x.key.ts == y.key.ts && TypeId.LexLess(WireId(x), WireId(y)))
  {
    hide TypeId.LexLess, TypeId.Encode, TypeId.BytesOf, TypeId.Value256, TypeId.Pow2;
    var a, b := TypeId.BytesOf(x.key.id, 16), TypeId.BytesOf(y.key.id, 16);
    TypeId.BytesHaveTheValue(x.key.id, 16);
    TypeId.BytesHaveTheValue(y.key.id, 16);
    if x.source == y.source {
      TypeId.StringOrderIsUuidOrder(PrefixOf(x.source), a, b);
    } else {
      FirstCharacterDecides(WireId(x), WireId(y));
    }
  }

  lemma FirstCharacterDecides(s: string, t: string)
    requires s != [] && t != [] && s[0] != t[0]
    ensures TypeId.LexLess(s, t) <==> s[0] < t[0]
  {
  }

  // ---------------------------------------------------------------- the list, as a value

  /** A list response: rows and `next_cursor`, the server's key of the last row of a full page. */
  datatype ListPage = ListPage(items: seq<Item>, next: Option<Key>)

  type Etag = string

  datatype Badge = Badge(unread: int, unseen: int)

  /** What the snapshot shows beside the list: the numbers, the spinner, the error, what just arrived. */
  datatype Shown = Shown(badge: Badge, isLoading: bool, error: Option<string>, arrivals: seq<Item>)

  /** The client's state as a value: its list, its validator, its view and its refresh loop. */
  datatype Client = Client(
    items: seq<Item>,
    hasMore: bool,
    cursor: Option<Key>,
    etag: Option<Etag>,
    view: Filter,
    generation: nat,
    refreshing: bool,
    refreshAgain: bool,
    shown: Shown)

  const NEW_CLIENT :=
    Client([], true, None, None, DefaultView, 0, false, false, Shown(Badge(0, 0), false, None, []))

  /** How the two requests of a turn end: a page with its validator, a 304, or a failure. */
  datatype Response =
    | Listed(page: ListPage, etag: Option<Etag>, badge: Badge)
    | NotModified(badge: Badge)
    | Failed(error: string)

  /** The loaded items that are not on the page and that the client takes for older than its last item. */
  function Tail(items: seq<Item>, page: seq<Item>, boundary: Item): (tail: seq<Item>)
    ensures forall x :: x in tail <==> x in items && x !in page && OlderThan(x, boundary)
  {
    if items == [] then []
    else (if items[0] !in page && OlderThan(items[0], boundary) then [items[0]] else []) + Tail(items[1..], page, boundary)
  }

  function Unloaded(rows: seq<Item>, loaded: seq<Item>): (r: seq<Item>)
    ensures forall x :: x in r <==> x in rows && x !in loaded
  {
    if rows == [] then []
    else (if rows[0] !in loaded then [rows[0]] else []) + Unloaded(rows[1..], loaded)
  }

  predicate Overlaps(items: seq<Item>, page: seq<Item>) {
    exists x | x in items :: x in page
  }

  /** Whether a fresh first page replaces the loaded list instead of folding into it. */
  predicate Resets(c: Client, page: ListPage) {
    || page.next.None? || page.items == []
    || Tail(c.items, page.items, page.items[|page.items| - 1]) == []
    || !Overlaps(c.items, page.items)
  }

  /** `mergeFirstPage`. */
  function Merged(c: Client, page: ListPage): Client {
    var c1 := c.(shown := c.shown.(arrivals := Unloaded(page.items, c.items)));
    if page.next.None? || page.items == [] then c1.(items := page.items, hasMore := false, cursor := None)
    else if Resets(c, page) then c1.(items := page.items, hasMore := true, cursor := page.next)
    else c1.(items := page.items + Tail(c.items, page.items, page.items[|page.items| - 1]))
  }

  lemma MergingIgnoresTheEtag(c: Client, page: ListPage, etag: Option<Etag>)
    ensures Merged(c.(etag := etag), page) == Merged(c, page).(etag := etag)
  {
    hide Tail, Unloaded, Overlaps;
  }

  /** A turn under the current view ends. */
  function Refreshed(c: Client, response: Response): Client {
    match response
    case Listed(page, etag, badge) =>
      var merged := Merged(c, page);
      merged.(etag := etag, shown := Shown(badge, false, None, merged.shown.arrivals))
    case NotModified(badge) => c.(shown := Shown(badge, false, None, c.shown.arrivals))
    case Failed(error) => c.(shown := c.shown.(isLoading := false, error := Some(error)))
  }

  /** The second half of `doFetchMore`. */
  function Extended(c: Client, page: ListPage): Client {
    c.(items := c.items + Unloaded(page.items, c.items), cursor := page.next, hasMore := page.next.Some?,
       shown := c.shown.(error := None))
  }

  function MoreFailed(c: Client, error: string): Client {
    c.(shown := c.shown.(error := Some(error)))
  }

  /** A turn begins: only the spinner shows it. */
  function Loading(c: Client): Client {
    c.(shown := c.shown.(isLoading := true))
  }

  /** `refresh()`: either a loop starts now, or the running one is asked to go round again. */
  function Asked(c: Client): Client {
    if c.refreshing then c.(refreshAgain := true)
    else Loading(c.(refreshing := true, refreshAgain := false))
  }

  /** The end of one turn of the do/while: go round again, or clear `refreshing`. */
  function TurnOver(c: Client): Client {
    if c.refreshAgain then Loading(c.(refreshAgain := false)) else c.(refreshing := false)
  }

  /** `setFilter` before it asks for a refresh. */
  function Cleared(c: Client, view: Filter): Client {
    c.(items := [], hasMore := true, cursor := None, etag := None, view := view,
       generation := c.generation + 1, shown := c.shown.(arrivals := []))
  }

  class ListClient {
    var items: seq<Item>
    var hasMore: bool
    var cursor: Option<Key>
    var etag: Option<Etag>
    var view: Filter
    var viewGeneration: nat
    var refreshing: bool
    var refreshAgain: bool
    var badge: Badge
    var isLoading: bool
    var error: Option<string>
    var lastRefreshNewItems: seq<Item>

    constructor ()
      ensures State() == NEW_CLIENT
    {
      items, hasMore, cursor, etag, view := [], true, None, None, DefaultView;
      viewGeneration, refreshing, refreshAgain := 0, false, false;
      badge, isLoading, error, lastRefreshNewItems := Badge(0, 0), false, None, [];
    }

    function State(): Client
      reads this
    {
      Client(items, hasMore, cursor, etag, view, viewGeneration, refreshing, refreshAgain,
             Shown(badge, isLoading, error, lastRefreshNewItems))
    }

    method MergeFirstPage(page: ListPage)
      modifies this
      ensures State() == Merged(old(State()), page)
    {
      hide Tail;
      lastRefreshNewItems := Unloaded(page.items, items);
      if page.next == None || |page.items| == 0 {
        cursor := None;
        items, hasMore := page.items, false;
        return;
      }
      var boundary := page.items[|page.items| - 1];
      var tail := Tail(items, page.items, boundary);
      var contiguous := exists x | x in items :: x in page.items;
      if |tail| == 0 || !contiguous {
        cursor := page.next;
        items, hasMore := page.items, true;
        return;
      }
      items := page.items + tail;
    }

    /** The second half of `doRefresh`; what began under another view is dropped, failures included. */
    method ApplyRefresh(generation: nat, response: Response)
      modifies this
      ensures State() == if generation == old(viewGeneration) then Refreshed(old(State()), response) else old(State())
    {
      hide Merged;
      if generation != viewGeneration {
        return;
      }
      match response {
        case Listed(page, tag, counts) =>
          MergingIgnoresTheEtag(State(), page, tag);
          etag := tag;
          MergeFirstPage(page);
          badge, isLoading, error := counts, false, None;
        case NotModified(counts) =>
          badge, isLoading, error := counts, false, None;
        case Failed(cause) =>
          isLoading, error := false, Some(cause);
      }
    }

    method ApplyMore(generation: nat, page: ListPage)
      modifies this
      ensures State() == if generation == old(viewGeneration) then Extended(old(State()), page) else old(State())
    {
      if generation != viewGeneration {
        return;
      }
      var appended := Unloaded(page.items, items);
      cursor := page.next;
      items := items + appended;
      hasMore := page.next.Some?;
      error := None;
    }

    method FailMore(generation: nat, cause: string)
      modifies this`error
      ensures State() == if generation == old(viewGeneration) then MoreFailed(old(State()), cause) else old(State())
    {
      if generation != viewGeneration {
        return;
      }
      error := Some(cause);
    }

    method Refresh() returns (started: bool)
      modifies this`refreshing, this`refreshAgain, this`isLoading
      ensures State() == Asked(old(State())) && started == !old(refreshing)
    {
      if refreshing {
        refreshAgain := true;
        return false;
      }
      refreshing := true;
      refreshAgain := false;
      isLoading := true;
      return true;
    }

    /** `do { refreshAgain = false; await doRefresh(); } while (refreshAgain)`, from one turn's end to the next's start. */
    method EndOfTurn() returns (again: bool)
      modifies this`refreshing, this`refreshAgain, this`isLoading
      ensures State() == TurnOver(old(State())) && again == old(refreshAgain)
    {
      again := refreshAgain;
      if again {
        refreshAgain := false;
        isLoading := true;
      } else {
        refreshing := false;
      }
    }

    method SetFilter(filter: Filter) returns (started: bool)
      modifies this
      ensures State() == if filter == old(view) then old(State()) else Asked(Cleared(old(State()), filter))
      ensures started == (filter != old(view) && !old(refreshing))
    {
      if view == filter {
        return false;
      }
      viewGeneration := viewGeneration + 1;
      cursor := None;
      etag := None;
      view, items, hasMore, lastRefreshNewItems := filter, [], true, [];
      assert State() == Cleared(old(State()), filter);
      hide Cleared, Asked;
      started := Refresh();
    }
  }
}
