/** The listener against the running engines, live and under any interleaving: what it shows when it
    has applied all that was published so far, and at exactly which moments that is right. */
module Listener {
  import opened Types
  import opened EngineModel
  import opened RouterModel
  import opened ReplicaModel
  import opened ReplicaAgreement
  import opened ReplicaRuns
  import opened ReplicaMidway
  import opened MatcherTask
  import opened Pipeline
  import opened PipelineFlow
  import opened Interleavings

  /** Everything pushed to the publisher has been sent. */
  predicate AllOut(s: State) {
    s.market.queue == [] && HeldEvent(s.publisher) == []
  }

  lemma AllPublished(s: State)
    requires FlowInv(s) && AllOut(s)
    ensures s.published == s.market.pushed
  {
    assert s.published + [] + [] == s.published;
  }

  // ----- between commands -----

  lemma BetweenCommands(s: State)
    requires FlowInv(s) && AllOut(s) && !s.matcher.Working?
    ensures s.published == Feed(s.consumed) && s.router == RunRouter(s.consumed).engines
  {
    AllPublished(s);
    assert s.market.pushed + [] == s.market.pushed;
  }

  /** Between commands, with all market data out and every earlier command well behaved: a listener
      holds exactly what the running engines hold if and only if the last command was too. */
  lemma ListenerCatchesUp(actions: seq<Action>)
    requires CanRun(START, actions)
    requires AllOut(After(START, actions)) && !After(START, actions).matcher.Working?
    requires var consumed := After(START, actions).consumed;
             consumed == [] || WellBehavedRun(consumed[..|consumed| - 1])
    ensures var s := After(START, actions);
            Holds(ApplyEvents(map[], s.published), s.router) <==> WellBehavedRun(s.consumed)
  {
    Reachable(actions);
    BetweenCommands(After(START, actions));
    FollowedExactly(After(START, actions).consumed);
  }

  lemma FollowedExactly(cmds: seq<Command>)
    requires cmds == [] || WellBehavedRun(cmds[..|cmds| - 1])
    ensures Followed(cmds) <==> WellBehavedRun(cmds)
  {
    if cmds == [] {
      EmptySeparate();
      SeparateOnePerId(ALL_EMPTY);
    } else {
      FollowedOneMore(cmds);
    }
  }

  // ----- in the middle of a command -----

  function Before(s: State): Engines
    requires s.consumed != []
  {
    RunRouter(s.consumed[..|s.consumed| - 1]).engines
  }

  /** The last command taken came when all before it had been well behaved. */
  predicate GoodSoFar(s: State) {
    s.consumed != [] && WellBehavedRun(s.consumed[..|s.consumed| - 1])
  }

  lemma BeforeFollowed(s: State, more: seq<Event>)
    requires GoodSoFar(s)
    ensures Separate(Before(s))
    ensures ApplyEvents(map[], Feed(s.consumed[..|s.consumed| - 1]) + more) == ApplyEvents(Mirror(Before(s)), more)
  {
    var init := s.consumed[..|s.consumed| - 1];
    ReplicaFollows(init);
    ApplyConcat(map[], Feed(init), more);
  }

  lemma ShownIn(s: State, task: Task)
    requires FlowInv(s) && AllOut(s) && GoodSoFar(s) && s.matcher == Working(task) && FillsUnderWay(task)
    ensures MidAdd(s, task) && Separate(Before(s))
    ensures ApplyEvents(map[], s.published) == Shown(Before(s), task.progress.order, Announced(task))
  {
    MidAddIn(s, task);
    AllPublished(s);
    BeforeFollowed(s, Published(Add(task.progress.order), Announced(task)));
  }

  /** In the middle of an add, under whatever id, a listener with all market data shows the running
      books with every announced fill applied, the one in hand too, and besides them its own figure
      of what is left of the add, which no engine holds. */
  lemma ListenerMidAdd(actions: seq<Action>, task: Task)
    requires CanRun(START, actions) && After(START, actions).matcher == Working(task) && FillsUnderWay(task)
    requires AllOut(After(START, actions)) && GoodSoFar(After(START, actions))
    ensures var s, o := After(START, actions), task.progress.order;
            && s.router == Running(Before(s), o, task.progress.done)
            && ApplyEvents(map[], s.published)
               == (Mirror(Running(Before(s), o, Announced(task))) - {o.orderId}) + OwnEntry(o, Announced(task))
  {
    Reachable(actions);
    var s := After(START, actions);
    ShownIn(s, task);
    ShownMidAdd(Before(s), task.progress.order, Announced(task));
  }

  /** The moments of a command at which a listener with all market data is right. */
  predicate RightAt(before: Engines, task: Task) {
    match task
    case Adding(_) | Cancelling(_) | Marking(_) => true
    case Matching(p) => OwnIdSettled(before, p.order, p.done)
    case Printing(p, _) => OwnIdSettled(before, p.order, p.done)
    case Handing(_, _) | Filling(_, _) | Resting(_) => false
    case Announcing(c) => !(Listed(Cancel(c)) && OwnRests(before[TickerIndex(c.ticker)], c))
  }

  predicate IsRight(s: State) {
    ApplyEvents(map[], s.published) == Mirror(s.router)
  }

  lemma UnannouncedPublished(s: State, task: Task)
    requires FlowInv(s) && AllOut(s) && GoodSoFar(s) && s.matcher == Working(task)
    requires task.Adding? || task.Cancelling? || task.Announcing?
    ensures ApplyEvents(map[], s.published) == Mirror(Before(s)) && Separate(Before(s))
    ensures SoFar(Before(s), s.router, task, s.consumed[|s.consumed| - 1])
  {
    PushedSoFar(s, task);
    HandUnderWay(s, task);
    AllPublished(s);
    BeforeFollowed(s, []);
    assert Feed(s.consumed[..|s.consumed| - 1]) + [] == s.published;
  }

  lemma RightUnannounced(s: State, task: Task)
    requires FlowInv(s) && AllOut(s) && GoodSoFar(s) && s.matcher == Working(task)
    requires task.Adding? || task.Cancelling? || task.Announcing?
    ensures IsRight(s) <==> RightAt(Before(s), task)
  {
    UnannouncedPublished(s, task);
    if task.Announcing? {
      CancelTakenShows(Before(s), task.cancel);
    }
  }

  /** A cancel changes the books exactly if it names an order of the sender's on that ticker. */
  lemma CancelTakenShows(engines: Engines, c: OrderCancel)
    requires Separate(engines)
    ensures Mirror(engines) == Mirror(Route(engines, Cancel(c)).engines)
       <==> !(Listed(Cancel(c)) && OwnRests(engines[TickerIndex(c.ticker)], c))
  {
    if Listed(Cancel(c)) && OwnRests(engines[TickerIndex(c.ticker)], c) {
      CancelAccepted(engines, c);
      CancelEventRemoves(Mirror(engines), c);
      OwnOrderShown(engines, c);
    } else {
      CancelIgnored(engines, c);
    }
  }

  lemma OwnOrderShown(engines: Engines, c: OrderCancel)
    requires Listed(Cancel(c)) && OwnRests(engines[TickerIndex(c.ticker)], c)
    ensures c.orderId in Mirror(engines)
  {
    MirrorKeys(engines, LISTED, c.orderId);
    assert EngineHasId(engines, TickerIndex(c.ticker), c.orderId);
  }

  lemma MarkingEngines(s: State, p: Progress)
    requires FlowInv(s) && s.matcher == Working(Marking(p))
    ensures s.consumed != [] && ListedTicker(p.order.ticker)
    ensures RunRouter(s.consumed).engines
         == s.router[TickerIndex(p.order.ticker) := Publish(s.router[TickerIndex(p.order.ticker)])]
    ensures s.market.pushed == Feed(s.consumed)
  {
    HandUnderWay(s, Marking(p));
    LastCommand(s.consumed);
    assert Unsent(s) == [];
    assert s.market.pushed + [] == s.market.pushed;
  }

  /** With the remainder queued the books are final; only the mid is still to come. */
  lemma RightMarking(s: State, p: Progress)
    requires FlowInv(s) && AllOut(s) && s.matcher == Working(Marking(p)) && WellBehavedRun(s.consumed)
    ensures IsRight(s)
  {
    MarkingEngines(s, p);
    AllPublished(s);
    ReplicaFollows(s.consumed);
    var i := TickerIndex(p.order.ticker);
    SameMirror(s.router, i, Publish(s.router[i]), LISTED);
  }

  lemma RestingIsLast(s: State, p: Progress)
    requires FlowInv(s) && s.matcher == Working(Resting(p)) && s.consumed != []
    ensures p.done == AddOrder(EngineOf(Before(s), p.order.ticker), p.order).trades && p.remaining > 0
  {
    HandUnderWay(s, Resting(p));
    var cmd := s.consumed[|s.consumed| - 1];
    SentAndUnsent(Before(s), s.router, Resting(p), cmd);
    SentCarries(Resting(p));
    AddUnderWay(Before(s), s.router, Resting(p), cmd);
  }

  lemma RightFilling(s: State, task: Task)
    requires FlowInv(s) && AllOut(s) && GoodSoFar(s) && s.matcher == Working(task) && FillsUnderWay(task)
    requires WellBehaved(Before(s), s.consumed[|s.consumed| - 1])
    ensures IsRight(s) <==> RightAt(Before(s), task)
  {
    var p := task.progress;
    ShownIn(s, task);
    if task.Handing? || task.Filling? {
      WrongWithFillInHand(Before(s), p.order, p.done, task.trade);
    } else {
      RightBetweenFills(Before(s), p.order, p.done);
      if task.Resting? {
        RestingIsLast(s, p);
        RestingUnsettled(Before(s), p.order);
      }
    }
  }

  lemma RightIn(s: State, task: Task)
    requires FlowInv(s) && AllOut(s) && GoodSoFar(s) && s.matcher == Working(task)
    requires s.consumed[|s.consumed| - 1].Add? ==> WellBehaved(Before(s), s.consumed[|s.consumed| - 1])
    ensures IsRight(s) <==> RightAt(Before(s), task)
  {
    if task.Adding? || task.Cancelling? || task.Announcing? {
      RightUnannounced(s, task);
    } else if task.Marking? {
      HandUnderWay(s, task);
      RightMarking(s, task.progress);
    } else {
      HandUnderWay(s, task);
      RightFilling(s, task);
    }
  }

  lemma NewIdIn(s: State, task: Task)
    requires FlowInv(s) && GoodSoFar(s) && s.matcher == Working(task) && (task.Matching? || task.Printing?)
    requires task.progress.order.orderId !in Mirror(Before(s))
    ensures RightAt(Before(s), task) <==> task.progress.remaining <= 0
  {
    MidAddIn(s, task);
    BeforeFollowed(s, []);
    NewIdSettled(Before(s), task.progress.order, task.progress.done);
  }

  /** Between two fills of an add under a new id, it is right if and only if the add is wholly
      filled; with a trade still to announce that is never so. */
  lemma RightAtNewId(actions: seq<Action>, task: Task)
    requires CanRun(START, actions) && After(START, actions).matcher == Working(task)
    requires (task.Matching? || task.Printing?) && GoodSoFar(After(START, actions))
    requires task.progress.order.orderId !in Mirror(Before(After(START, actions)))
    ensures RightAt(Before(After(START, actions)), task) <==> task.progress.remaining <= 0
    ensures task.Printing? ==> !RightAt(Before(After(START, actions)), task)
  {
    Reachable(actions);
    NewIdIn(After(START, actions), task);
    HandUnderWay(After(START, actions), task);
  }

  /** In the middle of a command, in every interleaving, with all market data out: the listener has
      the running books if and only if the command is at one of the moments `RightAt` names. Every
      earlier command was well behaved, and so is this one if it is an add; a cancel may be any. */
  lemma ListenerExactlyWhen(actions: seq<Action>, task: Task)
    requires CanRun(START, actions) && After(START, actions).matcher == Working(task)
    requires AllOut(After(START, actions)) && GoodSoFar(After(START, actions))
    requires var s := After(START, actions);
             s.consumed[|s.consumed| - 1].Add? ==> WellBehaved(Before(s), s.consumed[|s.consumed| - 1])
    ensures var s := After(START, actions);
            ApplyEvents(map[], s.published) == Mirror(s.router) <==> RightAt(Before(s), task)
  {
    Reachable(actions);
    RightIn(After(START, actions), task);
  }

  // ----- shown before it is matched -----

  /** The first add of a listed ticker, announced and sent while the engine has not seen it. */
  function Announcement(o: OrderAdd): seq<Action> {
    [Receive(Add(o)), Dispatch, Matcher(Take)] + [Matcher(Work), Publisher(Take), Publisher(Work)]
  }

  /** The add taken, and about to be announced. */
  function JustTaken(o: OrderAdd): State {
    START.(inbound := Channel([Add(o)], []), consumed := [Add(o)], matcher := Working(Adding(o)))
  }

  lemma TakenRuns(o: OrderAdd)
    requires KnownUser(Add(o))
    ensures var a := [Receive(Add(o)), Dispatch, Matcher(Take)];
            CanRun(START, a) && After(START, a) == JustTaken(o)
  {
    RunStep(START, [], Receive(Add(o)));
    RunStep(START, [] + [Receive(Add(o))], Dispatch);
    RunStep(START, [] + [Receive(Add(o))] + [Dispatch], Matcher(Take));
    assert [] + [Receive(Add(o))] + [Dispatch] + [Matcher(Take)] == [Receive(Add(o)), Dispatch, Matcher(Take)];
  }

  lemma SentRuns(o: OrderAdd)
    requires ListedTicker(o.ticker)
    ensures var a := [Matcher(Work), Publisher(Take), Publisher(Work)];
            && CanRun(JustTaken(o), a)
            && After(JustTaken(o), a)
               == JustTaken(o).(matcher := Working(Matching(Progress(o, o.volume, []))),
                                market := Channel([AddEvent(o)], []), published := [AddEvent(o)])
  {
    var s := JustTaken(o);
    RunStep(s, [], Matcher(Work));
    RunStep(s, [] + [Matcher(Work)], Publisher(Take));
    RunStep(s, [] + [Matcher(Work)] + [Publisher(Take)], Publisher(Work));
    assert [] + [Matcher(Work)] + [Publisher(Take)] + [Publisher(Work)]
        == [Matcher(Work), Publisher(Take), Publisher(Work)];
  }

  lemma AnnouncementRuns(o: OrderAdd)
    requires KnownUser(Add(o)) && ListedTicker(o.ticker)
    ensures CanRun(START, Announcement(o))
    ensures After(START, Announcement(o))
         == JustTaken(o).(matcher := Working(Matching(Progress(o, o.volume, []))),
                          market := Channel([AddEvent(o)], []), published := [AddEvent(o)])
  {
    TakenRuns(o);
    SentRuns(o);
    RunConcat(START, [Receive(Add(o)), Dispatch, Matcher(Take)], [Matcher(Work), Publisher(Take), Publisher(Work)]);
  }

  /** So a listener can show an order that no engine holds, with all market data out and nothing
      amiss: the code publishes an add before it matches it. */
  lemma AddShownBeforeMatched(o: OrderAdd)
    requires KnownUser(Add(o)) && ListedTicker(o.ticker)
    ensures CanRun(START, Announcement(o))
    ensures var s := After(START, Announcement(o));
            && AllOut(s) && Mirror(s.router) == map[]
            && ApplyEvents(map[], s.published) == map[o.orderId := OpenOf(o, o.volume)]
  {
    AnnouncementRuns(o);
    EmptySeparate();
    assert [AddEvent(o)][1..] == [];
  }
}
