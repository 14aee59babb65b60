/**
 What the snapshot shows beside the list, over every run: the spinner, the numbers, the
 error and what has just arrived.
 */
module ClientShows {
  import opened Wrappers
  import opened InboxClient
  import opened ClientLists
  import opened ClientRuns

  // ---------------------------------------------------------------- the spinner

  /** A turn under an old view is always followed by another one. */
  predicate SpinnerOk(w: World) {
    && w.client.shown.isLoading == w.client.refreshing == w.refresh.Some?
    && (w.refresh.Some? ==> w.refresh.value.generation <= w.client.generation)
    && (w.refresh.Some? && w.refresh.value.generation != w.client.generation ==> w.client.refreshAgain)
  }

  lemma StepKeepsSpinner(h: History, w: World, step: Step, pageSize: Limit)
    requires SpinnerOk(w)
    ensures SpinnerOk(Next(h, w, step, pageSize))
  {
    hide ServerPage, Merged, Unloaded;
    if step.EndRefresh? && w.refresh.Some? {
      TurnKeepsSpinner(h, w, step.answer, pageSize);
    }
  }

  lemma TurnKeepsSpinner(h: History, w: World, answer: Answer, pageSize: Limit)
    requires SpinnerOk(w) && w.refresh.Some?
    ensures SpinnerOk(TurnEnded(Applied(h, w, answer, pageSize)))
  {
    hide ServerPage;
    if answer.Fresh? {
      MergedFrame(w.client, ServerPage(ListFrom(h, w.refresh.value.view, answer.start), None, pageSize));
      hide Merged;
    }
  }

  /** The spinner turns exactly while a refresh is on its way, view switches and failures included. */
  lemma {:induction false} SpinnerMeansRefreshing(h: History, low: Lows, steps: seq<Step>, pageSize: Limit)
    ensures
      var w := After(h, low, steps, pageSize);
      SpinnerOk(w) && (w.client.shown.isLoading <==> w.refresh.Some?)
  {
    hide Next;
    if steps != [] {
      var init := steps[..|steps| - 1];
      SpinnerMeansRefreshing(h, low, init, pageSize);
      StepKeepsSpinner(h, After(h, low, init, pageSize), steps[|steps| - 1], pageSize);
    }
  }

  /**
   Calls that come in while a refresh runs queue exactly one more turn: the loop goes round
   if and only if there was such a call, and stops after that turn unless another came.
   */
  lemma ExactlyOneRerun(h: History, w: World, first: Answer, second: Answer, pageSize: Limit)
    requires SpinnerOk(w) && w.refresh.Some?
    ensures
      var w1 := Next(h, w, EndRefresh(first), pageSize);
      && (w1.refresh.Some? <==> w.client.refreshAgain)
      && Next(h, w1, EndRefresh(second), pageSize).refresh.None?
  {
    AgainUntouched(h, w, first, pageSize);
    var w1 := Next(h, w, EndRefresh(first), pageSize);
    if w1.refresh.Some? {
      AgainUntouched(h, w1, second, pageSize);
    }
    hide Applied;
  }

  lemma AgainUntouched(h: History, w: World, answer: Answer, pageSize: Limit)
    requires w.refresh.Some?
    ensures Applied(h, w, answer, pageSize).client.refreshAgain == w.client.refreshAgain
    ensures Applied(h, w, answer, pageSize).refresh == w.refresh
  {
    hide ServerPage, Tail, Unloaded, Overlaps;
  }

  /**
   At most one further page is on its way: nothing but its answer ends a request, and a new
   one is sent only by a call while more is offered, from the end of the list, showing nothing yet.
   */
  lemma OneFetchAtATime(h: History, w: World, step: Step, pageSize: Limit)
    ensures
      var w' := Next(h, w, step, pageSize);
      && (w.more.Some? ==> w'.more == if step.EndFetchMore? then None else w.more)
      && (w.more.None? && w'.more.Some? ==>
            step.CallFetchMore? && w.client.hasMore && w'.client == w.client
            && w'.more.value.cursor == w.client.cursor && w'.more.value.view == w.client.view)
      && (w.more.None? && step.CallFetchMore? && w.client.hasMore ==> w'.more.Some?)
  {
    hide ServerPage, Refreshed, Extended;
  }

  // ---------------------------------------------------------------- numbers, error, arrivals

  /** The answer of a turn that is taken in: it began under the view on show. */
  predicate TakesAnswer(w: World, step: Step) {
    step.EndRefresh? && w.refresh.Some? && w.refresh.value.generation == w.client.generation
  }

  predicate TakesMore(w: World, step: Step) {
    step.EndFetchMore? && w.more.Some? && w.more.value.generation == w.client.generation
  }

  /** The numbers of the last answer taken in, a 304 included. */
  ghost function LastBadge(h: History, low: Lows, steps: seq<Step>, pageSize: Limit): Badge {
    if steps == [] then Badge(0, 0)
    else
      var init, step := steps[..|steps| - 1], steps[|steps| - 1];
      if TakesAnswer(After(h, low, init, pageSize), step) && !step.answer.NoAnswer? then step.answer.badge
      else LastBadge(h, low, init, pageSize)
  }

  /** The error of the last request that ended under its own view, none if that went well. */
  ghost function LastError(h: History, low: Lows, steps: seq<Step>, pageSize: Limit): Option<string> {
    if steps == [] then None
    else
      var init, step := steps[..|steps| - 1], steps[|steps| - 1];
      var w := After(h, low, init, pageSize);
      if TakesAnswer(w, step) then (if step.answer.NoAnswer? then Some(step.answer.error) else None)
      else if TakesMore(w, step) then (if step.more.NoMore? then Some(step.more.error) else None)
      else LastError(h, low, init, pageSize)
  }

  lemma OneStepShows(h: History, w: World, step: Step, pageSize: Limit)
    ensures
      var shown, shown' := w.client.shown, Next(h, w, step, pageSize).client.shown;
      && shown'.badge == (if TakesAnswer(w, step) && !step.answer.NoAnswer? then step.answer.badge else shown.badge)
      && shown'.error == (if TakesAnswer(w, step) then (if step.answer.NoAnswer? then Some(step.answer.error) else None)
                          else if TakesMore(w, step) then (if step.more.NoMore? then Some(step.more.error) else None)
                          else shown.error)
  {
    hide ServerPage, Tail, Unloaded, Overlaps;
    if step.EndRefresh? && w.refresh.Some? && step.answer.Fresh? {
      MergedFrame(w.client, ServerPage(ListFrom(h, w.refresh.value.view, step.answer.start), None, pageSize));
      hide Merged;
    }
  }

  /** After every run the snapshot shows the last numbers and the last outcome. */
  lemma {:induction false} ShowsTheLastAnswer(h: History, low: Lows, steps: seq<Step>, pageSize: Limit)
    ensures
      var shown := After(h, low, steps, pageSize).client.shown;
      shown.badge == LastBadge(h, low, steps, pageSize) && shown.error == LastError(h, low, steps, pageSize)
  {
    hide Next, TakesAnswer, TakesMore;
    if steps != [] {
      var init := steps[..|steps| - 1];
      ShowsTheLastAnswer(h, low, init, pageSize);
      OneStepShows(h, After(h, low, init, pageSize), steps[|steps| - 1], pageSize);
    }
  }

  lemma TurnArrivals(h: History, w: World, answer: Answer, pageSize: Limit)
    requires w.refresh.Some?
    ensures
      TurnEnded(Applied(h, w, answer, pageSize)).client.shown.arrivals ==
        if w.refresh.value.generation == w.client.generation && answer.Fresh?
        then Unloaded(ServerPage(ListFrom(h, w.refresh.value.view, answer.start), None, pageSize).items, w.client.items)
        else w.client.shown.arrivals
  {
    hide ServerPage, Tail, Overlaps, Unloaded;
  }

  /**
   What counts as arrived: exactly the rows of a first page that were not loaded when it
   came; nothing after a view switch; and nothing else changes it.
   */
  lemma ArrivalsAreNew(h: History, w: World, step: Step, pageSize: Limit, x: Item)
    ensures
      var arrivals := Next(h, w, step, pageSize).client.shown.arrivals;
      x in arrivals <==>
        if Folds(w, step) then x in FirstPageOf(h, w, step, pageSize).items && x !in w.client.items
        else if step.CallSetFilter? && step.view != w.client.view then false
        else x in w.client.shown.arrivals
  {
    hide ServerPage, Merged, Unloaded;
    if step.EndRefresh? && w.refresh.Some? {
      TurnArrivals(h, w, step.answer, pageSize);
      hide Applied, TurnEnded;
    }
  }
}
