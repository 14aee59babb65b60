/**
 Two runs, from a fresh client, after which its list has a hole: one through the tie order
 of the ids, one through an answer that was on its way when the list was reset.
 */
module ClientAccidents {
  import opened Wrappers
  import opened Keyset
  import opened InboxViews
  import opened InboxClient
  import opened ClientLists
  import opened ClientRuns

  const BADGE := Badge(0, 0)

  /** The default view holds `q`, the other views nothing. */
  function Holding(q: seq<Item>): History {
    (view: Filter) => if view == DefaultView then q else []
  }

  function LowsAt(n: nat): Lows {
    Lows(n, 0, 0)
  }

  lemma HistoryIsOk(q: seq<Item>, n: nat)
    requires InOrder(q) && n <= |q|
    ensures HistoryOk(Holding(q)) && LowsOk(Holding(q), LowsAt(n))
  {
  }

  lemma OneMore(h: History, low: Lows, steps: seq<Step>, step: Step, w: World, w': World, pageSize: Limit)
    requires IsRun(h, low, steps, pageSize) && After(h, low, steps, pageSize) == w
    requires Possible(w, step) && Next(h, w, step, pageSize) == w'
    ensures IsRun(h, low, steps + [step], pageSize) && After(h, low, steps + [step], pageSize) == w'
  {
    assert (steps + [step])[..|steps|] == steps;
  }

  /** Every page of the default view is a segment of its list. */
  lemma PageOf(q: seq<Item>, start: nat, n: nat, limit: Limit)
    requires InOrder(q) && start <= n <= |q|
    ensures
      var cursor := if n == start then None else Some(q[n - 1].key);
      ServerPage(ListFrom(Holding(q), DefaultView, start), cursor, limit) == PageAt(q, n, limit)
  {
    hide InOrder, ServerPage;
    ServerPageIsASegment(q, start, n, limit);
  }

  // ---------------------------------------------------------------- a tie between the sources

  const TOP := Item(FromBroadcast, Key(4, 9))
  const TIED := Item(FromNotification, Key(4, 5))
  const LAST := Item(FromNotification, Key(3, 1))
  const TIE_LIST := [TOP, TIED, LAST]
  const TIE_HISTORY := Holding(TIE_LIST)

  const FETCH_THREE := CallFetchMore(3)
  const THREE_COME := EndFetchMore(More(0))
  const TOP_COMES := EndRefresh(Fresh(0, None, BADGE))
  const TIE_STEPS := [] + [FETCH_THREE] + [THREE_COME] + [CallRefresh] + [TOP_COMES]

  const FETCHING := Start(LowsAt(0)).(more := Some(MoreFlight(0, DefaultView, None, 3, 0, 0)))
  const ALL_LOADED := Start(LowsAt(0)).(client := NEW_CLIENT.(items := TIE_LIST, cursor := Some(LAST.key)))
  const TIE_ASKED := ALL_LOADED.(
    client := Asked(ALL_LOADED.client), calls := 1, refresh := Some(RefreshFlight(0, DefaultView, None, 0, 1)))

  lemma TiePages()
    ensures ServerPage(ListFrom(TIE_HISTORY, DefaultView, 0), None, 3) == ListPage(TIE_LIST, Some(LAST.key))
    ensures ServerPage(ListFrom(TIE_HISTORY, DefaultView, 0), None, 1) == ListPage([TOP], Some(TOP.key))
  {
    hide ServerPage;
    PageOf(TIE_LIST, 0, 0, 3);
    PageOf(TIE_LIST, 0, 0, 1);
    assert TIE_LIST[0..3] == TIE_LIST && TIE_LIST[0..1] == [TOP];
  }

  lemma AllThreeLoad()
    ensures Next(TIE_HISTORY, Start(LowsAt(0)), FETCH_THREE, 1) == FETCHING
    ensures Possible(FETCHING, THREE_COME) && Next(TIE_HISTORY, FETCHING, THREE_COME, 1) == ALL_LOADED
  {
    hide ServerPage;
    TiePages();
    AllAreNew(TIE_LIST);
  }

  lemma AllAreNew(rows: seq<Item>)
    ensures Unloaded(rows, []) == rows
  {
    if rows != [] {
      AllAreNew(rows[1..]);
    }
  }

  /** The tied notification is taken for newer than the broadcast above it. */
  lemma TheTiedOneGoes()
    ensures Possible(TIE_ASKED, TOP_COMES) && TiesMislead(TIE_ASKED.client, ListPage([TOP], Some(TOP.key)))
    ensures
      var w := Next(TIE_HISTORY, TIE_ASKED, TOP_COMES, 1);
      && w.client.items == [TOP, LAST] && w.client.hasMore && w.client.cursor == Some(LAST.key) && w.at == 0
      && w.client.view == DefaultView
  {
    hide ServerPage;
    TiePages();
    var c := TIE_ASKED.client;
    assert WronglyDropped(c.items[1], TOP) && RightlyKept(c.items[2], TOP);
    TailOfThree();
    assert Overlaps(c.items, [TOP]) by { assert c.items[0] == TOP; }
  }

  lemma TailOfThree()
    ensures Tail(TIE_LIST, [TOP], TOP) == [LAST]
  {
    assert Tail([LAST], [TOP], TOP) == [LAST];
    assert TIE_LIST[1..] == [TIED, LAST] && [TIED, LAST][1..] == [LAST];
  }

  /**
   A broadcast, a notification of the same instant and an older notification are loaded.
   A refresh whose page holds only the broadcast drops the notification of that instant,
   keeps the older one, and leaves the cursor below both.
   */
  lemma TieLeavesAHole()
    ensures IsRun(TIE_HISTORY, LowsAt(0), TIE_STEPS, 1)
    ensures
      var w := After(TIE_HISTORY, LowsAt(0), TIE_STEPS, 1);
      && w.client.items == [TOP, LAST] && w.client.hasMore && w.client.cursor == Some(LAST.key)
      && LastFetched(TIE_HISTORY, w) == TIE_LIST && !ShowsAPrefix(TIE_HISTORY, w)
  {
    hide IsRun, After, Next, Possible;
    StartsAsARun(TIE_LIST, 0);
    AllThreeLoad();
    OneMore(TIE_HISTORY, LowsAt(0), [], FETCH_THREE, Start(LowsAt(0)), FETCHING, 1);
    OneMore(TIE_HISTORY, LowsAt(0), [] + [FETCH_THREE], THREE_COME, FETCHING, ALL_LOADED, 1);
    TieIsAsked();
    OneMore(TIE_HISTORY, LowsAt(0), [] + [FETCH_THREE] + [THREE_COME], CallRefresh, ALL_LOADED, TIE_ASKED, 1);
    TheTiedOneGoes();
    OneMore(TIE_HISTORY, LowsAt(0), [] + [FETCH_THREE] + [THREE_COME] + [CallRefresh], TOP_COMES, TIE_ASKED,
            Next(TIE_HISTORY, TIE_ASKED, TOP_COMES, 1), 1);
    assert [TOP, LAST][1] != TIE_LIST[1];
  }

  lemma TieIsAsked()
    ensures Possible(ALL_LOADED, CallRefresh) && Next(TIE_HISTORY, ALL_LOADED, CallRefresh, 1) == TIE_ASKED
    ensures Possible(Start(LowsAt(0)), FETCH_THREE)
  {
  }

  lemma StartsAsARun(q: seq<Item>, n: nat)
    requires InOrder(q) && n <= |q|
    ensures IsRun(Holding(q), LowsAt(n), [], 1) && After(Holding(q), LowsAt(n), [], 1) == Start(LowsAt(n))
  {
    hide InOrder;
    HistoryIsOk(q, n);
  }

  // ---------------------------------------------------------------- an answer from before a reset

  function Nth(ts: int): Item {
    Item(FromNotification, Key(ts, 0))
  }

  const LATE_LIST := [Nth(4), Nth(3), Nth(2), Nth(1)]
  const LATE_HISTORY := Holding(LATE_LIST)

  const SECOND_COMES := EndRefresh(Fresh(2, None, BADGE))
  const FETCH_ONE := CallFetchMore(1)
  const TWO_ARRIVE := ServerGrows(DefaultView, 0)
  const FOURTH_COMES := EndRefresh(Fresh(0, None, BADGE))
  const FIRST_COMES := EndFetchMore(More(0))
  const EARLY_STEPS := [] + [CallRefresh] + [SECOND_COMES] + [FETCH_ONE] + [TWO_ARRIVE]
  const LATE_STEPS := EARLY_STEPS + [CallRefresh] + [FOURTH_COMES] + [FIRST_COMES]

  /** A client whose turns have all ended, with one item on show that has just arrived. */
  function Showing(x: Item): Client {
    NEW_CLIENT.(items := [x], cursor := Some(x.key), shown := Shown(BADGE, false, None, [x]))
  }

  const LATE_START := Start(LowsAt(2))
  const FIRST_TURN := LATE_START.(
    client := Asked(NEW_CLIENT), calls := 1, refresh := Some(RefreshFlight(0, DefaultView, None, 2, 1)))
  const ONE_LOADED := LATE_START.(client := Showing(Nth(2)), calls := 1, covered := 1, tagged := 2)
  const IN_FLIGHT := ONE_LOADED.(more := Some(MoreFlight(0, DefaultView, Some(Nth(2).key), 1, 2, 3)))
  const GROWN := IN_FLIGHT.(low := LowsAt(0))
  const SECOND_TURN := GROWN.(
    client := Asked(GROWN.client), calls := 2, asked := 0, refresh := Some(RefreshFlight(0, DefaultView, None, 0, 2)))
  const RESET := GROWN.(client := Showing(Nth(4)), calls := 2, covered := 2, asked := 0, at := 0, tagged := 0)

  lemma LatePages()
    ensures ServerPage(ListFrom(LATE_HISTORY, DefaultView, 2), None, 1) == ListPage([Nth(2)], Some(Nth(2).key))
    ensures ServerPage(ListFrom(LATE_HISTORY, DefaultView, 0), None, 1) == ListPage([Nth(4)], Some(Nth(4).key))
    ensures ServerPage(ListFrom(LATE_HISTORY, DefaultView, 0), Some(Nth(2).key), 1) == ListPage([Nth(1)], Some(Nth(1).key))
  {
    hide ServerPage;
    PageOf(LATE_LIST, 2, 2, 1);
    PageOf(LATE_LIST, 0, 0, 1);
    PageOf(LATE_LIST, 0, 3, 1);
    assert LATE_LIST[2..3] == [Nth(2)] && LATE_LIST[0..1] == [Nth(4)] && LATE_LIST[3..4] == [Nth(1)];
  }

  lemma OneLoads()
    ensures Possible(LATE_START, CallRefresh) && Next(LATE_HISTORY, LATE_START, CallRefresh, 1) == FIRST_TURN
    ensures Possible(FIRST_TURN, SECOND_COMES) && Next(LATE_HISTORY, FIRST_TURN, SECOND_COMES, 1) == ONE_LOADED
  {
    hide ServerPage;
    LatePages();
    AllAreNew([Nth(2)]);
  }

  lemma TheListGrows()
    ensures Possible(ONE_LOADED, FETCH_ONE) && Next(LATE_HISTORY, ONE_LOADED, FETCH_ONE, 1) == IN_FLIGHT
    ensures Possible(IN_FLIGHT, TWO_ARRIVE) && Next(LATE_HISTORY, IN_FLIGHT, TWO_ARRIVE, 1) == GROWN
    ensures Possible(GROWN, CallRefresh) && Next(LATE_HISTORY, GROWN, CallRefresh, 1) == SECOND_TURN
  {
  }

  /** The page does not overlap what is loaded, so the list is reset to it. */
  lemma TheListIsReset()
    ensures Possible(SECOND_TURN, FOURTH_COMES) && Next(LATE_HISTORY, SECOND_TURN, FOURTH_COMES, 1) == RESET
  {
    hide ServerPage, Tail;
    LatePages();
    assert Unloaded([Nth(4)], [Nth(2)]) == [Nth(4)];
    assert !Overlaps([Nth(2)], [Nth(4)]);
  }

  lemma TheLateOneComes()
    ensures Possible(RESET, FIRST_COMES) && !Fits(LATE_HISTORY, RESET, 0)
    ensures
      var w := Next(LATE_HISTORY, RESET, FIRST_COMES, 1);
      && w.client.items == [Nth(4), Nth(1)] && w.client.generation == 0 && w.at == 0 && w.client.view == DefaultView
  {
    hide ServerPage;
    LatePages();
    assert Unloaded([Nth(1)], [Nth(4)]) == [Nth(1)];
  }

  lemma EarlySteps()
    ensures IsRun(LATE_HISTORY, LowsAt(2), EARLY_STEPS, 1) && After(LATE_HISTORY, LowsAt(2), EARLY_STEPS, 1) == GROWN
  {
    hide IsRun, After, Next, Possible;
    StartsAsARun(LATE_LIST, 2);
    OneLoads();
    OneMore(LATE_HISTORY, LowsAt(2), [], CallRefresh, LATE_START, FIRST_TURN, 1);
    OneMore(LATE_HISTORY, LowsAt(2), [] + [CallRefresh], SECOND_COMES, FIRST_TURN, ONE_LOADED, 1);
    TheListGrows();
    OneMore(LATE_HISTORY, LowsAt(2), [] + [CallRefresh] + [SECOND_COMES], FETCH_ONE, ONE_LOADED, IN_FLIGHT, 1);
    OneMore(LATE_HISTORY, LowsAt(2), [] + [CallRefresh] + [SECOND_COMES] + [FETCH_ONE], TWO_ARRIVE, IN_FLIGHT, GROWN, 1);
  }

  /**
   Item 2 is loaded and the item below it asked for; items 3 and 4 arrive; a refresh with
   pages of one item resets the list to item 4; then the earlier answer appends item 1.
   No view was switched, so `viewGeneration` is what it was and the answer is not dropped.
   */
  lemma LateAnswerLeavesAHole()
    ensures IsRun(LATE_HISTORY, LowsAt(2), LATE_STEPS, 1)
    ensures
      var w := After(LATE_HISTORY, LowsAt(2), LATE_STEPS, 1);
      && w.client.items == [Nth(4), Nth(1)] && w.client.generation == 0
      && LastFetched(LATE_HISTORY, w) == LATE_LIST && !ShowsAPrefix(LATE_HISTORY, w)
  {
    hide IsRun, After, Next, Possible;
    EarlySteps();
    TheListGrows();
    OneMore(LATE_HISTORY, LowsAt(2), EARLY_STEPS, CallRefresh, GROWN, SECOND_TURN, 1);
    TheListIsReset();
    OneMore(LATE_HISTORY, LowsAt(2), EARLY_STEPS + [CallRefresh], FOURTH_COMES, SECOND_TURN, RESET, 1);
    TheLateOneComes();
    OneMore(LATE_HISTORY, LowsAt(2), EARLY_STEPS + [CallRefresh] + [FOURTH_COMES], FIRST_COMES, RESET,
            Next(LATE_HISTORY, RESET, FIRST_COMES, 1), 1);
    assert [Nth(4), Nth(1)][1] != LATE_LIST[1];
  }
}
