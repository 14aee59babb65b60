/**
 Runs of the client against a server whose lists only grow at their heads. Requests
 overlap: a response is computed at any moment while its request is in flight, and
 applied later.

 `h(view)` is everything a view's list will ever hold, newest first, so the list at any
 moment is a suffix of it.
 */
module ClientRuns {
  import opened Wrappers
  import opened Keyset
  import opened InboxViews
  import opened InboxClient
  import opened ClientLists

  type History = Filter -> seq<Item>

  /** A doRefresh on the wire: the view it asks for, and how much was announced when it began. */
  datatype RefreshFlight = RefreshFlight(generation: nat, view: Filter, etag: Option<Etag>, low: nat, calls: nat)

  /** A doFetchMore on the wire; `below` is where the loaded list ended when it was sent. */
  datatype MoreFlight =
    MoreFlight(generation: nat, view: Filter, cursor: Option<Key>, limit: Limit, low: nat, below: nat)

  /** Where each view's list starts at the moment: a smaller index is a longer list. */
  datatype Lows = Lows(plain: nat, unread: nat, archived: nat)

  function LowOf(low: Lows, view: Filter): nat {
    match view
    case DefaultView => low.plain
    case UnreadView => low.unread
    case ArchivedView => low.archived
  }

  function WithLow(low: Lows, view: Filter, n: nat): Lows {
    match view
    case DefaultView => low.(plain := n)
    case UnreadView => low.(unread := n)
    case ArchivedView => low.(archived := n)
  }

  /**
   The client, the two requests that may be in flight, and the server's side of the story:
   `at` is where the list the items were last fetched from started, `tagged` where the one
   the validator came with did, `asked` where the view's list started when refresh() was
   last called; `broken` says that the last turn under the view failed.
   */
  datatype World = World(
    client: Client,
    refresh: Option<RefreshFlight>,
    more: Option<MoreFlight>,
    low: Lows,
    at: nat,
    calls: nat,
    covered: nat,
    asked: nat,
    tagged: nat,
    broken: bool)

  /** A page, or a 304, of the list as it stands at `start`; or no answer. */
  datatype Answer =
    | Fresh(start: nat, etag: Option<Etag>, badge: Badge)
    | Unchanged(start: nat, badge: Badge)
    | NoAnswer(error: string)

  datatype MoreAnswer = More(start: nat) | NoMore(error: string)

  datatype Step =
    | CallRefresh
    | EndRefresh(answer: Answer)
    | CallFetchMore(limit: int)
    | EndFetchMore(more: MoreAnswer)
    | CallSetFilter(view: Filter)
    | ServerGrows(view: Filter, low: nat)

  /** `Math.min(100, Math.max(1, limit))`. */
  function Clamped(limit: int): Limit {
    if limit < 1 then 1 else if limit > 100 then 100 else limit
  }

  /** A page size out of range is taken to the nearest one in it. */
  lemma ClampedIsNearest(limit: int, other: int)
    requires 1 <= other <= 100
    ensures
      var off, elsewhere := Clamped(limit) - limit, other - limit;
      && 1 <= Clamped(limit) <= 100
      && (if off < 0 then -off else off) <= (if elsewhere < 0 then -elsewhere else elsewhere)
  {
  }

  /** The list of a view when it starts at `start`. */
  function ListFrom(h: History, view: Filter, start: nat): seq<Item> {
    if start <= |h(view)| then h(view)[start..] else []
  }

  // ---------------------------------------------------------------- steps

  function Takeoff(w: World): RefreshFlight {
    RefreshFlight(w.client.generation, w.client.view, w.client.etag, LowOf(w.low, w.client.view), w.calls)
  }

  /** `refresh()` is called: start a turn or queue one. */
  function Called(w: World): World {
    var w1 := w.(calls := w.calls + 1, asked := LowOf(w.low, w.client.view), client := Asked(w.client));
    if w.client.refreshing then w1 else w1.(refresh := Some(Takeoff(w1)))
  }

  /** What reaches the client of an answer. */
  ghost function Received(h: History, view: Filter, answer: Answer, pageSize: Limit): Response {
    match answer
    case Fresh(start, etag, badge) => Listed(ServerPage(ListFrom(h, view, start), None, pageSize), etag, badge)
    case Unchanged(_, badge) => NotModified(badge)
    case NoAnswer(error) => Failed(error)
  }

  /** The list half of a turn's end: an answer for the current view is taken in. */
  ghost function Applied(h: History, w: World, answer: Answer, pageSize: Limit): World
    requires w.refresh.Some?
  {
    if w.refresh.value.generation != w.client.generation then w
    else
      var w1 := w.(client := Refreshed(w.client, Received(h, w.refresh.value.view, answer, pageSize)), broken := answer.NoAnswer?);
      if answer.Fresh? then w1.(at := answer.start, tagged := answer.start) else w1
  }

  /** The loop half: go round again or stop. */
  function TurnEnded(w: World): World
    requires w.refresh.Some?
  {
    w.(covered := w.refresh.value.calls, client := TurnOver(w.client),
       refresh := if w.client.refreshAgain then Some(Takeoff(w)) else None)
  }

  ghost function MoreApplied(h: History, w: World, answer: MoreAnswer): World
    requires w.more.Some?
  {
    var flight := w.more.value;
    if flight.generation != w.client.generation then w.(more := None)
    else
      match answer
      case More(start) =>
        var page := ServerPage(ListFrom(h, flight.view, start), flight.cursor, flight.limit);
        w.(client := Extended(w.client, page), more := None, at := if w.client.items == [] then start else w.at)
      case NoMore(error) => w.(client := MoreFailed(w.client, error), more := None)
  }

  function MoreCalled(w: World, limit: int): World {
    if !w.client.hasMore || w.more.Some? then w
    else
      w.(more := Some(MoreFlight(w.client.generation, w.client.view, w.client.cursor, Clamped(limit),
                                 LowOf(w.low, w.client.view), w.at + |w.client.items|)))
  }

  function Switched(w: World, view: Filter): World {
    w.(client := Cleared(w.client, view), at := LowOf(w.low, view))
  }

  ghost function Next(h: History, w: World, step: Step, pageSize: Limit): World {
    match step
    case CallRefresh => Called(w)
    case EndRefresh(answer) => if w.refresh.None? then w else TurnEnded(Applied(h, w, answer, pageSize))
    case CallFetchMore(limit) => MoreCalled(w, limit)
    case EndFetchMore(answer) => if w.more.None? then w else MoreApplied(h, w, answer)
    case CallSetFilter(view) => if view == w.client.view then w else Called(Switched(w, view))
    case ServerGrows(view, low) => w.(low := WithLow(w.low, view, low))
  }

  /** An answer is computed while its request is in flight, and a list only grows at its head. */
  predicate Possible(w: World, step: Step) {
    match step
    case EndRefresh(answer) =>
      w.refresh.Some? && !answer.NoAnswer? ==> LowOf(w.low, w.refresh.value.view) <= answer.start <= w.refresh.value.low
    case EndFetchMore(answer) =>
      w.more.Some? && answer.More? ==> LowOf(w.low, w.more.value.view) <= answer.start <= w.more.value.low
    case ServerGrows(view, low) => low <= LowOf(w.low, view)
    case _ => true
  }

  // ---------------------------------------------------------------- harm

  /** The first page a turn folds in, if it folds one in. */
  predicate Folds(w: World, step: Step) {
    step.EndRefresh? && step.answer.Fresh? && w.refresh.Some? && w.refresh.value.generation == w.client.generation
  }

  /** The further page a fetchMore appends, if it appends one. */
  predicate Appends(w: World, step: Step) {
    step.EndFetchMore? && step.more.More? && w.more.Some? && w.more.value.generation == w.client.generation
  }

  ghost function FirstPageOf(h: History, w: World, step: Step, pageSize: Limit): ListPage
    requires Folds(w, step)
  {
    ServerPage(ListFrom(h, w.refresh.value.view, step.answer.start), None, pageSize)
  }

  /** Where the list the items are appended to starts, and where the page does. */
  function StartAfter(w: World, start: nat): nat {
    if w.client.items == [] then start else w.at
  }

  function PlaceAfter(flight: MoreFlight, start: nat): nat {
    if flight.cursor.None? then start else flight.below
  }

  /** The page of a late answer continues the loaded list or repeats its end. */
  predicate Fits(h: History, w: World, start: nat)
    requires w.more.Some?
  {
    var q := h(w.client.view);
    var s, n := StartAfter(w, start), PlaceAfter(w.more.value, start);
    n <= |q| && Continues(s, s + |w.client.items|, n, n + RowsBelow(q, n, w.more.value.limit))
  }

  /** What a step must not do, as a condition on the moment before it. */
  ghost predicate Harmless(h: History, w: World, step: Step, pageSize: Limit) {
    && (Folds(w, step) ==> !TiesMislead(w.client, FirstPageOf(h, w, step, pageSize)))
    && (Appends(w, step) ==> Fits(h, w, step.more.start))
  }

  // ---------------------------------------------------------------- invariant

  ghost predicate HistoryOk(h: History) {
    forall f :: InOrder(h(f))
  }

  ghost predicate LowsOk(h: History, low: Lows) {
    forall f :: LowOf(low, f) <= |h(f)|
  }

  predicate FlightOk(h: History, w: World, generation: nat, view: Filter, low: nat) {
    && LowOf(w.low, view) <= low <= |h(view)| && generation <= w.client.generation
    && (generation == w.client.generation ==> view == w.client.view)
  }

  ghost predicate FlightsOk(h: History, w: World) {
    && HistoryOk(h) && LowsOk(h, w.low)
    && (w.refresh.Some? ==> FlightOk(h, w, w.refresh.value.generation, w.refresh.value.view, w.refresh.value.low))
    && (w.more.Some? ==> FlightOk(h, w, w.more.value.generation, w.more.value.view, w.more.value.low))
  }

  /** A cursor in flight is that of the item just above `below`. */
  predicate CursorOk(h: History, w: World) {
    w.more.Some? && w.more.value.generation == w.client.generation && w.more.value.cursor.Some? ==>
      && w.more.value.low < w.more.value.below <= |h(w.client.view)|
      && w.more.value.cursor == Some(h(w.client.view)[w.more.value.below - 1].key)
  }

  predicate ListOk(h: History, w: World) {
    LowOf(w.low, w.client.view) <= w.at && Loaded(w.client, h(w.client.view), w.at)
  }

  /** Every refresh() call is answered by a turn that began at or after it, now or soon. */
  predicate CallsOk(w: World) {
    && (w.client.refreshing <==> w.refresh.Some?)
    && w.covered <= w.calls
    && (w.refresh.Some? ==> w.refresh.value.calls <= w.calls && (w.client.refreshAgain || w.refresh.value.calls == w.calls))
    && (w.refresh.None? ==> w.covered == w.calls && !w.client.refreshAgain)
  }

  /** Where the list starts is in range, whatever the client holds. */
  predicate StartsInRange(h: History, w: World) {
    LowOf(w.low, w.client.view) <= w.at <= |h(w.client.view)|
  }

  /** What holds of every run, harmful steps included. */
  ghost predicate WorldOk(h: History, w: World) {
    FlightsOk(h, w) && StartsInRange(h, w) && CallsOk(w)
  }

  ghost predicate Ok(h: History, w: World) {
    FlightsOk(h, w) && CursorOk(h, w) && ListOk(h, w) && CallsOk(w)
  }

  // ---------------------------------------------------------------- steps keep the invariant

  lemma ListOfAView(h: History, view: Filter, start: nat)
    requires start <= |h(view)|
    ensures ListFrom(h, view, start) == h(view)[start..]
  {
  }

  lemma CallKeepsOk(h: History, w: World)
    requires Ok(h, w)
    ensures Ok(h, Called(w))
  {
    hide InOrder, Loaded;
    LoadedFrame(w.client, Asked(w.client), h(w.client.view), w.at);
  }

  /** A fold touches the list and nothing else of the client. */
  lemma MergedFrame(c: Client, page: ListPage)
    ensures
      var c' := Merged(c, page);
      c' == c.(items := c'.items, hasMore := c'.hasMore, cursor := c'.cursor, shown := c'.shown)
  {
    hide Tail, Overlaps, Unloaded;
  }

  /** Taking an answer in keeps the list right exactly when it is harmless, and all else in any case. */
  lemma AppliedIsOkIff(h: History, w: World, answer: Answer, pageSize: Limit)
    requires Ok(h, w) && w.refresh.Some? && Possible(w, EndRefresh(answer))
    ensures
      var w' := Applied(h, w, answer, pageSize);
      && w'.refresh == w.refresh && FlightsOk(h, w') && CursorOk(h, w') && CallsOk(w')
      && (ListOk(h, w') <==> Harmless(h, w, EndRefresh(answer), pageSize))
  {
    hide InOrder, TiesMislead, Loaded, ServerPage, Merged;
    if w.refresh.value.generation == w.client.generation {
      var c' := Applied(h, w, answer, pageSize).client;
      if answer.Fresh? {
        var q := h(w.client.view);
        ListOfAView(h, w.client.view, answer.start);
        ServerPageIsASegment(q, answer.start, answer.start, pageSize);
        var page := PageAt(q, answer.start, pageSize);
        MergedFrame(w.client, page);
        FoldFitsIff(w.client, q, w.at, answer.start, pageSize);
        LoadedFrame(Merged(w.client, page), c', q, answer.start);
      } else {
        LoadedFrame(w.client, c', h(w.client.view), w.at);
      }
    }
  }

  lemma TurnKeepsOk(h: History, w: World)
    requires FlightsOk(h, w) && CursorOk(h, w) && CallsOk(w) && w.refresh.Some?
    ensures
      var w' := TurnEnded(w);
      FlightsOk(h, w') && CursorOk(h, w') && CallsOk(w') && (ListOk(h, w') <==> ListOk(h, w))
  {
    hide InOrder, Loaded;
    LoadedFrame(w.client, TurnOver(w.client), h(w.client.view), w.at);
  }

  /** The page of a fetchMore is the one at the place of its cursor. */
  lemma PageOfMore(h: History, w: World, start: nat)
    requires FlightsOk(h, w) && CursorOk(h, w) && Possible(w, EndFetchMore(More(start))) && Appends(w, EndFetchMore(More(start)))
    ensures
      var f, q := w.more.value, h(w.client.view);
      var n := PlaceAfter(f, start);
      start <= n <= |q| && ServerPage(ListFrom(h, f.view, start), f.cursor, f.limit) == PageAt(q, n, f.limit)
  {
    hide InOrder, ServerPage;
    ListOfAView(h, w.client.view, start);
    ServerPageIsASegment(h(w.client.view), start, PlaceAfter(w.more.value, start), w.more.value.limit);
  }

  lemma MoreIsOkIff(h: History, w: World, answer: MoreAnswer)
    requires Ok(h, w) && w.more.Some? && Possible(w, EndFetchMore(answer))
    ensures
      var w' := MoreApplied(h, w, answer);
      && FlightsOk(h, w') && CursorOk(h, w') && CallsOk(w')
      && (ListOk(h, w') <==> (Appends(w, EndFetchMore(answer)) ==> Fits(h, w, answer.start)))
  {
    hide InOrder, Loaded, ServerPage, Unloaded;
    var f, q := w.more.value, h(w.client.view);
    if f.generation == w.client.generation {
      LoadedIsASegment(w.client, q, w.at);
      match answer
      case More(start) =>
        PageOfMore(h, w, start);
        var s := StartAfter(w, start);
        MoreFitsIff(w.client, q, s, s + |w.client.items|, PlaceAfter(f, start), f.limit);
      case NoMore(error) => LoadedFrame(w.client, MoreFailed(w.client, error), q, w.at);
    }
  }

  lemma SwitchKeepsOk(h: History, w: World, view: Filter)
    requires Ok(h, w)
    ensures Ok(h, Switched(w, view))
  {
    hide InOrder;
  }

  lemma MoreCallKeepsOk(h: History, w: World, limit: int)
    requires Ok(h, w)
    ensures Ok(h, MoreCalled(w, limit))
  {
    hide InOrder;
  }

  lemma GrowthKeepsOk(h: History, w: World, view: Filter, low: nat)
    requires Ok(h, w) && low <= LowOf(w.low, view)
    ensures Ok(h, w.(low := WithLow(w.low, view, low)))
  {
    hide InOrder, Loaded;
  }

  /** A step leaves the client right exactly when it is harmless. */
  lemma StepIsOkIff(h: History, w: World, step: Step, pageSize: Limit)
    requires Ok(h, w) && Possible(w, step)
    ensures Ok(h, Next(h, w, step, pageSize)) <==> Harmless(h, w, step, pageSize)
    ensures ListOk(h, Next(h, w, step, pageSize)) <==> Harmless(h, w, step, pageSize)
  {
    hide FlightsOk, CursorOk, ListOk, CallsOk, Called, Applied, TurnEnded, MoreApplied, Switched, MoreCalled, TiesMislead, Fits,
         ServerPage;
    match step
    case CallRefresh => CallKeepsOk(h, w);
    case EndRefresh(answer) =>
      if w.refresh.Some? {
        AppliedIsOkIff(h, w, answer, pageSize);
        TurnKeepsOk(h, Applied(h, w, answer, pageSize));
      }
    case CallFetchMore(limit) => MoreCallKeepsOk(h, w, limit);
    case EndFetchMore(answer) =>
      if w.more.Some? {
        MoreIsOkIff(h, w, answer);
      }
    case CallSetFilter(view) =>
      if view != w.client.view {
        SwitchKeepsOk(h, w, view);
        CallKeepsOk(h, Switched(w, view));
      }
    case ServerGrows(view, low) => GrowthKeepsOk(h, w, view, low);
  }

  // ---------------------------------------------------------------- runs

  function Start(low: Lows): World {
    World(NEW_CLIENT, None, None, low, LowOf(low, DefaultView), 0, 0, LowOf(low, DefaultView), 0, false)
  }

  ghost function After(h: History, low: Lows, steps: seq<Step>, pageSize: Limit): World {
    if steps == [] then Start(low)
    else Next(h, After(h, low, steps[..|steps| - 1], pageSize), steps[|steps| - 1], pageSize)
  }

  ghost predicate IsRun(h: History, low: Lows, steps: seq<Step>, pageSize: Limit) {
    if steps == [] then HistoryOk(h) && LowsOk(h, low)
    else
      var init := steps[..|steps| - 1];
      IsRun(h, low, init, pageSize) && Possible(After(h, low, init, pageSize), steps[|steps| - 1])
  }

  /** No step of the run does harm, each judged at its own moment. */
  ghost predicate AllHarmless(h: History, low: Lows, steps: seq<Step>, pageSize: Limit) {
    steps == [] ||
    var init := steps[..|steps| - 1];
    AllHarmless(h, low, init, pageSize) && Harmless(h, After(h, low, init, pageSize), steps[|steps| - 1], pageSize)
  }

  lemma StartIsOk(h: History, low: Lows)
    requires HistoryOk(h) && LowsOk(h, low)
    ensures Ok(h, Start(low))
  {
    hide InOrder;
  }

  lemma {:induction false} RunsAreOk(h: History, low: Lows, steps: seq<Step>, pageSize: Limit)
    requires IsRun(h, low, steps, pageSize) && AllHarmless(h, low, steps, pageSize)
    ensures Ok(h, After(h, low, steps, pageSize))
  {
    hide Ok, Harmless;
    if steps == [] {
      StartIsOk(h, low);
    } else {
      var init := steps[..|steps| - 1];
      RunsAreOk(h, low, init, pageSize);
      StepIsOkIff(h, After(h, low, init, pageSize), steps[|steps| - 1], pageSize);
    }
  }

  /** The list as it was when the loaded items were last fetched from its head. */
  ghost function LastFetched(h: History, w: World): seq<Item> {
    ListFrom(h, w.client.view, w.at)
  }

  /**
   What the reader should see: a prefix of the list last fetched, with the cursor at its
   deepest item while more is offered, and the whole list when it is not.
   */
  ghost predicate ShowsAPrefix(h: History, w: World) {
    && w.client.items <= LastFetched(h, w)
    && (w.client.hasMore ==>
          w.client.cursor == if w.client.items == [] then None else Some(w.client.items[|w.client.items| - 1].key))
    && (!w.client.hasMore ==> w.client.items == LastFetched(h, w))
  }

  ghost predicate AlwaysShowsAPrefix(h: History, low: Lows, steps: seq<Step>, pageSize: Limit) {
    && ShowsAPrefix(h, After(h, low, steps, pageSize))
    && (steps != [] ==> AlwaysShowsAPrefix(h, low, steps[..|steps| - 1], pageSize))
  }

  lemma LoadedShowsAPrefix(h: History, w: World)
    requires StartsInRange(h, w)
    ensures ShowsAPrefix(h, w) <==> ListOk(h, w)
  {
    var q, items := h(w.client.view), w.client.items;
    if w.at + |items| <= |q| {
      assert q[w.at..][..|items|] == q[w.at..w.at + |items|];
    }
  }

  lemma AppliedKeepsWorld(h: History, w: World, answer: Answer, pageSize: Limit)
    requires WorldOk(h, w) && w.refresh.Some? && Possible(w, EndRefresh(answer))
    ensures WorldOk(h, Applied(h, w, answer, pageSize)) && Applied(h, w, answer, pageSize).refresh == w.refresh
  {
    hide InOrder, ServerPage, Merged;
    if answer.Fresh? {
      MergedFrame(w.client, ServerPage(ListFrom(h, w.refresh.value.view, answer.start), None, pageSize));
    }
  }

  lemma CallKeepsWorld(h: History, w: World)
    requires WorldOk(h, w)
    ensures WorldOk(h, Called(w))
  {
    hide InOrder;
  }

  lemma TurnKeepsWorld(h: History, w: World)
    requires WorldOk(h, w) && w.refresh.Some?
    ensures WorldOk(h, TurnEnded(w))
  {
    hide InOrder;
  }

  lemma MoreKeepsWorld(h: History, w: World, answer: MoreAnswer)
    requires WorldOk(h, w) && w.more.Some? && Possible(w, EndFetchMore(answer))
    ensures WorldOk(h, MoreApplied(h, w, answer))
  {
    hide InOrder, ServerPage, Unloaded;
  }

  lemma MoreCallKeepsWorld(h: History, w: World, limit: int)
    requires WorldOk(h, w)
    ensures WorldOk(h, MoreCalled(w, limit))
  {
    hide InOrder;
  }

  lemma SwitchKeepsWorld(h: History, w: World, view: Filter)
    requires WorldOk(h, w)
    ensures WorldOk(h, Switched(w, view))
  {
    hide InOrder;
  }

  lemma GrowthKeepsWorld(h: History, w: World, view: Filter, low: nat)
    requires WorldOk(h, w) && low <= LowOf(w.low, view)
    ensures WorldOk(h, w.(low := WithLow(w.low, view, low)))
  {
    hide InOrder;
  }

  lemma StepKeepsWorldOk(h: History, w: World, step: Step, pageSize: Limit)
    requires WorldOk(h, w) && Possible(w, step)
    ensures WorldOk(h, Next(h, w, step, pageSize))
  {
    hide WorldOk, Called, Applied, TurnEnded, MoreApplied, Switched, MoreCalled;
    match step
    case CallRefresh => CallKeepsWorld(h, w);
    case EndRefresh(answer) =>
      if w.refresh.Some? {
        AppliedKeepsWorld(h, w, answer, pageSize);
        TurnKeepsWorld(h, Applied(h, w, answer, pageSize));
      }
    case CallFetchMore(limit) => MoreCallKeepsWorld(h, w, limit);
    case EndFetchMore(answer) =>
      if w.more.Some? {
        MoreKeepsWorld(h, w, answer);
      }
    case CallSetFilter(view) =>
      if view != w.client.view {
        SwitchKeepsWorld(h, w, view);
        CallKeepsWorld(h, Switched(w, view));
      }
    case ServerGrows(view, low) => GrowthKeepsWorld(h, w, view, low);
  }

  lemma {:induction false} RunsAreWorldOk(h: History, low: Lows, steps: seq<Step>, pageSize: Limit)
    requires IsRun(h, low, steps, pageSize)
    ensures WorldOk(h, After(h, low, steps, pageSize))
  {
    hide WorldOk, Possible;
    if steps == [] {
      StartIsOk(h, low);
      OkIsWorldOk(h, Start(low));
    } else {
      var init := steps[..|steps| - 1];
      RunsAreWorldOk(h, low, init, pageSize);
      StepKeepsWorldOk(h, After(h, low, init, pageSize), steps[|steps| - 1], pageSize);
    }
  }

  lemma OkIsWorldOk(h: History, w: World)
    requires Ok(h, w)
    ensures WorldOk(h, w)
  {
    hide InOrder;
  }

  /**
   The client always shows a prefix of its list if and only if no step of the run is
   harmful: over every run of overlapping requests, ties and late answers included.
   */
  lemma {:induction false} AlwaysAPrefixIff(h: History, low: Lows, steps: seq<Step>, pageSize: Limit)
    requires IsRun(h, low, steps, pageSize)
    ensures AlwaysShowsAPrefix(h, low, steps, pageSize) <==> AllHarmless(h, low, steps, pageSize)
  {
    hide Ok, Harmless, ShowsAPrefix, FlightsOk, CallsOk, StartsInRange, ListOk;
    if steps == [] {
      StartIsOk(h, low);
      OkShowsAPrefix(h, Start(low));
    } else {
      var init, step := steps[..|steps| - 1], steps[|steps| - 1];
      AlwaysAPrefixIff(h, low, init, pageSize);
      if AllHarmless(h, low, init, pageSize) {
        var w := After(h, low, init, pageSize);
        RunsAreOk(h, low, init, pageSize);
        StepIsOkIff(h, w, step, pageSize);
        RunsAreWorldOk(h, low, steps, pageSize);
        LoadedShowsAPrefix(h, Next(h, w, step, pageSize));
      }
    }
  }

  lemma OkShowsAPrefix(h: History, w: World)
    requires Ok(h, w)
    ensures ShowsAPrefix(h, w) && InOrder(w.client.items) && StartsInRange(h, w)
  {
    LoadedShowsAPrefix(h, w);
  }

  /** The easy half, for one moment: the items are a prefix, newest first and each once. */
  lemma ItemsAreAPrefix(h: History, low: Lows, steps: seq<Step>, pageSize: Limit)
    requires IsRun(h, low, steps, pageSize) && AllHarmless(h, low, steps, pageSize)
    ensures
      var w := After(h, low, steps, pageSize);
      ShowsAPrefix(h, w) && InOrder(w.client.items)
  {
    hide Ok, ShowsAPrefix, After, StartsInRange;
    RunsAreOk(h, low, steps, pageSize);
    OkShowsAPrefix(h, After(h, low, steps, pageSize));
  }

  /** When no refresh is running, a turn that began at or after the last refresh() call has completed. */
  lemma IdleMeansAllCallsServed(h: History, low: Lows, steps: seq<Step>, pageSize: Limit)
    requires IsRun(h, low, steps, pageSize)
    ensures
      var w := After(h, low, steps, pageSize);
      !w.client.refreshing ==> w.covered == w.calls
  {
    hide After, FlightsOk;
    RunsAreWorldOk(h, low, steps, pageSize);
  }

  // ---------------------------------------------------------------- runs in which nothing can go wrong

  /** No notification and broadcast of one list share an instant. */
  ghost predicate NoSharedInstants(h: History) {
    forall f, x, y | x in h(f) && y in h(f) && x.source != y.source :: x.key.ts != y.key.ts
  }

  /** No reset of the list while a fetchMore of the same view is in flight. */
  ghost predicate NoResetInFlight(h: History, w: World, step: Step, pageSize: Limit) {
    && Folds(w, step)
    && w.more.Some? && w.more.value.generation == w.client.generation
    ==> !Resets(w.client, FirstPageOf(h, w, step, pageSize))
  }

  ghost predicate NeverResetInFlight(h: History, low: Lows, steps: seq<Step>, pageSize: Limit) {
    steps == [] ||
    var init := steps[..|steps| - 1];
    NeverResetInFlight(h, low, init, pageSize) && NoResetInFlight(h, After(h, low, init, pageSize), steps[|steps| - 1], pageSize)
  }

  /** A fetchMore of this view in flight continues the loaded list. */
  predicate MoreOk(w: World) {
    w.more.Some? && w.more.value.generation == w.client.generation ==>
      && w.client.hasMore && w.more.value.cursor == w.client.cursor
      && (w.client.items != [] ==> w.more.value.below == w.at + |w.client.items|)
  }

  lemma ApartNeverMislead(h: History, c: Client, q: seq<Item>, at: nat, s: nat, pageSize: Limit)
    requires NoSharedInstants(h) && q == h(c.view) && Loaded(c, q, at) && s <= |q|
    ensures !TiesMislead(c, PageAt(q, s, pageSize))
    ensures PageAt(q, s, pageSize).items != [] ==>
              var boundary := PageAt(q, s, pageSize).items[|PageAt(q, s, pageSize).items| - 1];
              forall x | x in c.items :: !WronglyKept(x, boundary) && !WronglyDropped(x, boundary)
  {
    hide Overlaps;
    var page := PageAt(q, s, pageSize);
    if page.items != [] {
      var boundary := page.items[|page.items| - 1];
      assert boundary == q[s + |page.items| - 1];
      forall x | x in c.items ensures !WronglyKept(x, boundary) && !WronglyDropped(x, boundary) {
        assert x in q;
        OrdersDifferAtTies(x, boundary);
      }
    }
  }

  lemma QuietStep(h: History, w: World, step: Step, pageSize: Limit)
    requires Ok(h, w) && MoreOk(w) && Possible(w, step) && NoSharedInstants(h) && NoResetInFlight(h, w, step, pageSize)
    ensures Harmless(h, w, step, pageSize) && MoreOk(Next(h, w, step, pageSize))
  {
    hide InOrder, ServerPage, TiesMislead, NoSharedInstants, Resets, Merged, Unloaded;
    if Folds(w, step) {
      QuietFold(h, w, step, pageSize);
    }
  }

  lemma QuietFold(h: History, w: World, step: Step, pageSize: Limit)
    requires Ok(h, w) && MoreOk(w) && Possible(w, step) && NoSharedInstants(h) && NoResetInFlight(h, w, step, pageSize)
    requires Folds(w, step)
    ensures !TiesMislead(w.client, FirstPageOf(h, w, step, pageSize)) && MoreOk(Next(h, w, step, pageSize))
  {
    hide InOrder, ServerPage, TiesMislead, NoSharedInstants, Resets, Merged, WronglyKept, WronglyDropped, Loaded;
    var c, q, s := w.client, h(w.client.view), step.answer.start;
    ListOfAView(h, c.view, s);
    ServerPageIsASegment(q, s, s, pageSize);
    var page := PageAt(q, s, pageSize);
    ApartNeverMislead(h, c, q, w.at, s, pageSize);
    MergedFrame(c, page);
    if !Resets(c, page) {
      FoldMeansFull(c, q, s, pageSize);
      CleanFoldIsLoaded(c, q, w.at, s, pageSize);
    }
  }

  /** Apart from ties and late answers nothing does harm, so the client always shows a prefix. */
  lemma {:induction false} QuietRunsAreHarmless(h: History, low: Lows, steps: seq<Step>, pageSize: Limit)
    requires IsRun(h, low, steps, pageSize) && NoSharedInstants(h) && NeverResetInFlight(h, low, steps, pageSize)
    ensures AllHarmless(h, low, steps, pageSize) && MoreOk(After(h, low, steps, pageSize))
  {
    hide Harmless, NoSharedInstants, NoResetInFlight;
    if steps != [] {
      var init := steps[..|steps| - 1];
      QuietRunsAreHarmless(h, low, init, pageSize);
      RunsAreOk(h, low, init, pageSize);
      QuietStep(h, After(h, low, init, pageSize), steps[|steps| - 1], pageSize);
    }
  }

  // ---------------------------------------------------------------- as new as the last call

  /** The validators a server sends: one for each list a view has had. */
  type Validators = (Filter, nat) -> Etag

  ghost predicate TellsListsApart(v: Validators) {
    forall f, s, t :: v(f, s) == v(f, t) ==> s == t
  }

  /** A page comes with the validator of its list; a 304 means the one sent is that of the list. */
  predicate Validated(v: Validators, w: World, step: Step) {
    && step.EndRefresh? && w.refresh.Some?
    ==>
      && (step.answer.Fresh? ==> step.answer.etag == Some(v(w.refresh.value.view, step.answer.start)))
      && (step.answer.Unchanged? ==> w.refresh.value.etag == Some(v(w.refresh.value.view, step.answer.start)))
  }

  ghost predicate AllValidated(v: Validators, h: History, low: Lows, steps: seq<Step>, pageSize: Limit) {
    steps == [] ||
    var init := steps[..|steps| - 1];
    AllValidated(v, h, low, init, pageSize) && Validated(v, After(h, low, init, pageSize), steps[|steps| - 1])
  }

  /** The validator held is the one of the list it came with, and the items are no older. */
  predicate EtagOk(v: Validators, w: World) {
    w.client.etag.Some? ==> w.client.etag == Some(v(w.client.view, w.tagged)) && w.at <= w.tagged
  }

  /** Nothing but its own answer replaces the validator a turn was sent with. */
  predicate SentIsHeld(w: World) {
    w.refresh.Some? && w.refresh.value.generation == w.client.generation ==> w.refresh.value.etag == w.client.etag
  }

  /** What is held is as new as the last call asked for, or a turn that will see to it is running. */
  predicate NewEnough(v: Validators, w: World) {
    && EtagOk(v, w)
    && LowOf(w.low, w.client.view) <= w.asked
    && (w.refresh.Some? && !w.client.refreshAgain ==>
          w.refresh.value.generation == w.client.generation && w.refresh.value.low <= w.asked)
    && (w.refresh.None? && !w.broken ==> w.at <= w.asked)
    && (w.client.items == [] && w.more.Some? && w.more.value.generation == w.client.generation ==>
          w.more.value.low <= w.at)
  }

  lemma CallKeepsNewEnough(v: Validators, h: History, w: World)
    requires FlightsOk(h, w) && CallsOk(w) && NewEnough(v, w)
    ensures NewEnough(v, Called(w)) && (SentIsHeld(w) ==> SentIsHeld(Called(w)))
  {
  }

  lemma SwitchKeepsNewEnough(v: Validators, h: History, w: World, view: Filter)
    requires FlightsOk(h, w) && CallsOk(w)
    ensures NewEnough(v, Called(Switched(w, view))) && SentIsHeld(Called(Switched(w, view)))
  {
  }

  lemma TurnKeepsNewEnough(v: Validators, h: History, w: World)
    requires FlightsOk(h, w) && CallsOk(w) && NewEnough(v, w) && w.refresh.Some?
    requires !w.client.refreshAgain && !w.broken ==> w.at <= w.refresh.value.low
    ensures NewEnough(v, TurnEnded(w)) && SentIsHeld(TurnEnded(w))
  {
  }

  /** A page that leaves nothing loaded came from an empty list, and no list is shorter. */
  lemma AppliedKeepsNewEnough(v: Validators, h: History, w: World, answer: Answer, pageSize: Limit)
    requires WorldOk(h, w) && NewEnough(v, w) && w.refresh.Some? && Possible(w, EndRefresh(answer))
    requires TellsListsApart(v) && Validated(v, w, EndRefresh(answer)) && SentIsHeld(w)
    ensures
      var w' := Applied(h, w, answer, pageSize);
      && NewEnough(v, w') && (!w'.client.refreshAgain && !w'.broken ==> w'.at <= w'.refresh.value.low)
  {
    hide InOrder, ServerPage, Merged;
    if answer.Fresh? && w.refresh.value.generation == w.client.generation {
      MergedFrame(w.client, ServerPage(ListFrom(h, w.client.view, answer.start), None, pageSize));
      EmptyMeansEmptyList(h, w.client, answer.start, pageSize);
    }
  }

  lemma EmptyMeansEmptyList(h: History, c: Client, start: nat, pageSize: Limit)
    requires InOrder(h(c.view)) && start <= |h(c.view)|
    ensures Merged(c, ServerPage(ListFrom(h, c.view, start), None, pageSize)).items == [] ==> start == |h(c.view)|
  {
    hide InOrder, ServerPage, Tail, Overlaps;
    ListOfAView(h, c.view, start);
    ServerPageIsASegment(h(c.view), start, start, pageSize);
  }

  lemma MoreKeepsNewEnough(v: Validators, h: History, w: World, answer: MoreAnswer)
    requires FlightsOk(h, w) && NewEnough(v, w) && w.more.Some? && Possible(w, EndFetchMore(answer))
    ensures NewEnough(v, MoreApplied(h, w, answer)) && (SentIsHeld(w) ==> SentIsHeld(MoreApplied(h, w, answer)))
  {
    hide ServerPage, Unloaded;
  }

  lemma MoreCallKeepsNewEnough(v: Validators, h: History, w: World, limit: int)
    requires StartsInRange(h, w) && NewEnough(v, w)
    ensures NewEnough(v, MoreCalled(w, limit))
  {
  }

  lemma GrowthKeepsNewEnough(v: Validators, w: World, view: Filter, low: nat)
    requires NewEnough(v, w) && low <= LowOf(w.low, view)
    ensures NewEnough(v, w.(low := WithLow(w.low, view, low)))
  {
  }

  lemma StepKeepsNewEnough(v: Validators, h: History, w: World, step: Step, pageSize: Limit)
    requires WorldOk(h, w) && NewEnough(v, w) && Possible(w, step)
    requires TellsListsApart(v) && Validated(v, w, step) && SentIsHeld(w)
    ensures NewEnough(v, Next(h, w, step, pageSize)) && SentIsHeld(Next(h, w, step, pageSize))
  {
    hide NewEnough, Called, Applied, TurnEnded, MoreApplied, Switched, Validated, TellsListsApart;
    match step
    case CallRefresh => CallKeepsNewEnough(v, h, w);
    case EndRefresh(answer) =>
      if w.refresh.Some? {
        AppliedKeepsNewEnough(v, h, w, answer, pageSize);
        AppliedKeepsWorld(h, w, answer, pageSize);
        TurnKeepsNewEnough(v, h, Applied(h, w, answer, pageSize));
      }
    case CallFetchMore(limit) => MoreCallKeepsNewEnough(v, h, w, limit);
    case EndFetchMore(answer) =>
      if w.more.Some? {
        MoreKeepsNewEnough(v, h, w, answer);
      }
    case CallSetFilter(view) =>
      if view != w.client.view {
        SwitchKeepsNewEnough(v, h, w, view);
      }
    case ServerGrows(view, low) => GrowthKeepsNewEnough(v, w, view, low);
  }

  lemma {:induction false} RunsAreNewEnough(v: Validators, h: History, low: Lows, steps: seq<Step>, pageSize: Limit)
    requires IsRun(h, low, steps, pageSize) && TellsListsApart(v) && AllValidated(v, h, low, steps, pageSize)
    ensures NewEnough(v, After(h, low, steps, pageSize)) && SentIsHeld(After(h, low, steps, pageSize))
  {
    hide TellsListsApart;
    if steps != [] {
      var init := steps[..|steps| - 1];
      RunsAreNewEnough(v, h, low, init, pageSize);
      RunsAreWorldOk(h, low, init, pageSize);
      StepKeepsNewEnough(v, h, After(h, low, init, pageSize), steps[|steps| - 1], pageSize);
    }
  }

  /**
   When no refresh is running and the last turn did not fail, the list last fetched is at
   least as new as the one the server had when refresh() was last called, whatever else
   the run did; the items are a prefix of it if nothing did harm. The server's validators
   are taken to tell the lists of a view apart.
   */
  lemma IdleShowsTheLastCall(v: Validators, h: History, low: Lows, steps: seq<Step>, pageSize: Limit)
    requires IsRun(h, low, steps, pageSize) && TellsListsApart(v) && AllValidated(v, h, low, steps, pageSize)
    ensures
      var w := After(h, low, steps, pageSize);
      !w.client.refreshing && !w.broken ==>
        w.at <= w.asked && (AllHarmless(h, low, steps, pageSize) ==> w.client.items <= LastFetched(h, w))
  {
    hide After, FlightsOk, LastFetched, AllHarmless, IsRun, AllValidated;
    RunsAreWorldOk(h, low, steps, pageSize);
    RunsAreNewEnough(v, h, low, steps, pageSize);
    if AllHarmless(h, low, steps, pageSize) {
      ItemsAreAPrefix(h, low, steps, pageSize);
    }
  }
}
