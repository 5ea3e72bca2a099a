/** The same gap at the inventory thread: runs in which every trade is printed and published and none
    is settled, so that the final snapshot contradicts the tape. */
module LostTrades {
  import opened Types
  import opened Quotes
  import opened EngineModel
  import opened RouterModel
  import opened ReplicaModel
  import opened AccountsModel
  import opened MatcherTask
  import opened Pipeline
  import opened PipelineFlow
  import opened Interleavings

  /** Serving, with the inventory thread stuck between a failed pop of an empty queue and its look
      at the flag, and `cmds` dispatched and taken. */
  ghost predicate Stalled(s: State, cmds: seq<Command>) {
    && Inv(s) && s.main.Serving? && s.gateway.Reading?
    && s.inbound.pushed == cmds && s.inbound.queue == []
    && s.inventory == Checking(0, false) && s.settled == []
    && (s.matcher.Popping? || s.matcher.Working?) && (s.publisher.Popping? || s.publisher.Working?)
  }

  /** And nothing of them left to match or to publish. */
  predicate Idle(s: State) {
    s.matcher.Popping? && s.publisher.Popping? && s.market.queue == []
  }

  lemma StalledQueues(s: State, cmds: seq<Command>)
    requires Stalled(s, cmds)
    ensures s.consumed == cmds && s.trades.queue == s.trades.pushed
    ensures |s.trades.queue| + |TradesIn(Unsent(s))| == |RunRouter(cmds).trades|
  {
    assert s.consumed + [] + [] == s.consumed;
    assert s.trades.pushed[0..] == s.trades.pushed;
  }

  lemma PublishesStalled(s: State, step: Step, cmds: seq<Command>)
    requires Stalled(s, cmds) && PublisherCan(s, step) && (step.Take? || step.Work?)
    ensures Stalled(PublisherDo(s, step), cmds)
  {
    PublisherStep(s, step);
  }

  lemma MatchesStalled(s: State, cmds: seq<Command>)
    requires Stalled(s, cmds) && MatcherCan(s, Work)
    ensures Stalled(MatcherDo(s, Work), cmds)
  {
    MatcherStep(s, Work);
    MatcherFrame(s);
  }

  lemma MatcherFrame(s: State)
    requires MatcherCan(s, Work)
    ensures var s' := MatcherDo(s, Work);
            && s'.main == s.main && s'.gateway == s.gateway && s'.inbound == s.inbound && s'.inventory == s.inventory
            && s'.settled == s.settled && s'.publisher == s.publisher && (s'.matcher.Popping? || s'.matcher.Working?)
  {
  }

  lemma StalledAgain(s: State, a: Action, cmds: seq<Command>)
    requires Stalled(s, cmds) && Enabled(s, a)
    requires a == Matcher(Work) || a == Publisher(Take) || a == Publisher(Work)
    ensures Stalled(Do(s, a), cmds)
  {
    if a.Matcher? { MatchesStalled(s, cmds); } else { PublishesStalled(s, a.step, cmds); }
  }

  lemma WorkHasRoom(s: State, cmds: seq<Command>)
    requires Stalled(s, cmds) && s.matcher.Working? && s.market.queue == []
    requires |RunRouter(cmds).trades| <= QUEUE_CAPACITY
    ensures MatcherCan(s, Work)
  {
    StalledQueues(s, cmds);
    if s.matcher.item.Handing? {
      var p, t := s.matcher.item.progress, s.matcher.item.trade;
      CarryFirst(ToTrades(t), FillAhead(s.router, p, t).outs);
    }
  }

  function Left(s: State): nat {
    if s.matcher.Working? then StepsLeft(s.router, s.matcher.item) else 0
  }

  function ToPublish(s: State): nat {
    2 * |s.market.queue| + (if s.publisher.Working? then 1 else 0)
  }

  lemma WorkCloser(s: State)
    requires MatcherCan(s, Work) && TaskOk(s.router, s.matcher.item)
    ensures Left(MatcherDo(s, Work)) < Left(s)
  {
    if IsPush(s.matcher.item) {
      PushLessToDo(s.router, s.matcher.item);
    } else {
      WorkLessToDo(s.router, s.matcher.item);
    }
  }

  lemma PublishCloser(s: State, step: Step)
    requires PublisherCan(s, step) && (step.Take? || step.Work?)
    ensures Left(PublisherDo(s, step)) == Left(s) && ToPublish(PublisherDo(s, step)) < ToPublish(s)
  {
  }

  predicate Closer(s': State, s: State) {
    Left(s') < Left(s) || (Left(s') == Left(s) && ToPublish(s') < ToPublish(s))
  }

  lemma ActionCloser(s: State, a: Action)
    requires Enabled(s, a) && (a == Matcher(Work) ==> TaskOk(s.router, s.matcher.item))
    requires a == Matcher(Work) || a == Publisher(Take) || a == Publisher(Work)
    ensures Closer(Do(s, a), s)
  {
    if a.Matcher? { WorkCloser(s); } else { PublishCloser(s, a.step); }
  }

  function Choice(s: State): Action {
    if s.publisher.Working? then Publisher(Work) else if s.market.queue != [] then Publisher(Take) else Matcher(Work)
  }

  /** One more step of the matching thread or the publisher. */
  lemma NextOf(s: State, cmds: seq<Command>) returns (a: Action)
    requires Stalled(s, cmds) && !Idle(s) && |RunRouter(cmds).trades| <= QUEUE_CAPACITY
    ensures Enabled(s, a) && Stalled(Do(s, a), cmds) && Closer(Do(s, a), s)
  {
    a := Choice(s);
    if a.Matcher? {
      WorkHasRoom(s, cmds);
    }
    ActionCloser(s, a);
    StalledAgain(s, a, cmds);
  }

  lemma {:induction false} Quiesce(s: State, cmds: seq<Command>) returns (more: seq<Action>)
    requires Stalled(s, cmds) && |RunRouter(cmds).trades| <= QUEUE_CAPACITY
    ensures CanRun(s, more) && Stalled(After(s, more), cmds) && Idle(After(s, more))
    decreases Left(s), ToPublish(s)
  {
    if Idle(s) {
      more := [];
    } else {
      var a := NextOf(s, cmds);
      var rest := Quiesce(Do(s, a), cmds);
      RunAfter(s, a, rest);
      more := [a] + rest;
    }
  }

  lemma Dispatched(s: State, cmds: seq<Command>, cmd: Command) returns (s2: State)
    requires Stalled(s, cmds) && Idle(s) && KnownUser(cmd)
    ensures CanRun(s, [Receive(cmd)] + ([Dispatch] + [])) && After(s, [Receive(cmd)] + ([Dispatch] + [])) == s2
    ensures Inv(s2) && s2 == s.(inbound := Push(s.inbound, cmd))
  {
    var s1 := Do(s, Receive(cmd));
    s2 := Do(s1, Dispatch);
    StepInv(s, Receive(cmd));
    StepInv(s1, Dispatch);
    RunAfter(s1, Dispatch, []);
    RunAfter(s, Receive(cmd), [Dispatch] + []);
  }

  lemma Arrival(s: State, cmds: seq<Command>, cmd: Command) returns (more: seq<Action>)
    requires Stalled(s, cmds) && Idle(s) && KnownUser(cmd)
    ensures CanRun(s, more) && Stalled(After(s, more), cmds + [cmd])
  {
    var s2 := Dispatched(s, cmds, cmd);
    StepInv(s2, Matcher(Take));
    more := [Receive(cmd)] + ([Dispatch] + []);
    RunStep(s, more, Matcher(Take));
    more := more + [Matcher(Take)];
  }

  predicate AllKnown(cmds: seq<Command>) {
    forall i :: 0 <= i < |cmds| ==> KnownUser(cmds[i])
  }

  lemma FirstMiss() returns (more: seq<Action>)
    ensures CanRun(START, more) && Stalled(After(START, more), []) && Idle(After(START, more))
  {
    StartInv();
    StepInv(START, Inventory(Miss));
    RunAfter(START, Inventory(Miss), []);
    more := [Inventory(Miss)] + [];
  }

  lemma OneMoreTaken(s: State, cmds: seq<Command>, cmd: Command) returns (more: seq<Action>)
    requires Stalled(s, cmds) && Idle(s) && KnownUser(cmd) && |RunRouter(cmds + [cmd]).trades| <= QUEUE_CAPACITY
    ensures CanRun(s, more) && Stalled(After(s, more), cmds + [cmd]) && Idle(After(s, more))
  {
    var arrive := Arrival(s, cmds, cmd);
    var drain := Quiesce(After(s, arrive), cmds + [cmd]);
    RunConcat(s, arrive, drain);
    more := arrive + drain;
  }

  lemma {:induction false} AllTaken(cmds: seq<Command>) returns (more: seq<Action>)
    requires AllKnown(cmds) && |RunRouter(cmds).trades| <= QUEUE_CAPACITY
    ensures CanRun(START, more) && Stalled(After(START, more), cmds) && Idle(After(START, more))
  {
    if cmds == [] {
      more := FirstMiss();
    } else {
      var init, cmd := cmds[..|cmds| - 1], cmds[|cmds| - 1];
      assert init + [cmd] == cmds;
      LongerRunMoreTrades(init, cmds);
      var before := AllTaken(init);
      var last := OneMoreTaken(After(START, before), init, cmd);
      RunConcat(START, before, last);
      more := before + last;
    }
  }

  // ----- closing time -----

  lemma CloseDown(s: State, cmds: seq<Command>) returns (more: seq<Action>)
    requires Stalled(s, cmds) && Idle(s)
    ensures CanRun(s, more)
    ensures After(s, more) == s.(main := FlagEngine, gatewayFinished := true, gateway := Closed,
                                 matcher := Exited(|s.inbound.pushed|, true))
  {
    more := [];
    RunStep(s, more, Signal);          more := more + [Signal];
    RunStep(s, more, CloseGateway);    more := more + [CloseGateway];
    RunStep(s, more, MainStep);        more := more + [MainStep];
    RunStep(s, more, MainStep);        more := more + [MainStep];
    RunStep(s, more, Matcher(Miss));   more := more + [Matcher(Miss)];
    RunStep(s, more, Matcher(Check));  more := more + [Matcher(Check)];
    RunStep(s, more, MainStep);        more := more + [MainStep];
  }

  lemma LeaveDown(s: State) returns (more: seq<Action>)
    requires s.main.FlagEngine? && s.inventory == Checking(0, false) && s.publisher.Popping? && s.market.queue == []
    ensures CanRun(s, more)
    ensures After(s, more) == s.(main := Snapshot, engineFinished := true, inventory := Exited(0, false),
                                 publisher := Exited(|s.market.pushed|, true))
  {
    more := [];
    RunStep(s, more, MainStep);          more := more + [MainStep];
    RunStep(s, more, Inventory(Check));  more := more + [Inventory(Check)];
    RunStep(s, more, Publisher(Miss));   more := more + [Publisher(Miss)];
    RunStep(s, more, Publisher(Check));  more := more + [Publisher(Check)];
    RunStep(s, more, MainStep);          more := more + [MainStep];
    RunStep(s, more, MainStep);          more := more + [MainStep];
  }

  /** At the snapshot: everything dispatched has been matched and published, nothing is settled. */
  predicate NothingSettled(s: State, cmds: seq<Command>) {
    && s.main.Snapshot?
    && s.inbound.pushed == s.consumed == cmds && s.published == Feed(cmds)
    && s.trades.queue == RunRouter(cmds).trades && s.settled == [] && s.accounts == Opened(USERS)
  }

  lemma IdleOutputs(s: State, cmds: seq<Command>)
    requires Stalled(s, cmds) && Idle(s)
    ensures s.consumed == cmds && s.published == Feed(cmds) && s.trades.queue == RunRouter(cmds).trades
    ensures s.accounts == Opened(USERS)
  {
    StalledQueues(s, cmds);
    assert s.published + [] + [] == s.published;
    assert s.market.pushed + [] == s.market.pushed && s.trades.pushed + [] == s.trades.pushed;
  }

  /** For any commands whose trades fit in the queue there is a run that ends with all of them
      matched, every trade on the published tape, and every account still untouched. */
  lemma SnapshotCanMissTrades(cmds: seq<Command>) returns (actions: seq<Action>)
    requires AllKnown(cmds) && |RunRouter(cmds).trades| <= QUEUE_CAPACITY
    ensures CanRun(START, actions) && NothingSettled(After(START, actions), cmds)
  {
    actions := AllTaken(cmds);
    var s := After(START, actions);
    IdleOutputs(s, cmds);
    var close := CloseDown(s, cmds);
    RunConcat(START, actions, close);
    actions := actions + close;
    var leave := LeaveDown(After(START, actions));
    RunConcat(START, actions, leave);
    actions := actions + leave;
  }

  // ----- for example -----

  /** A sell and a buy that meet it. */
  predicate Meet(sell: OrderAdd, buy: OrderAdd) {
    && sell.side.Sell? && buy.side.Buy? && sell.ticker == buy.ticker && ListedTicker(sell.ticker)
    && sell.volume > 0 && buy.volume > 0 && sell.price <= buy.price
    && KnownUser(Add(sell)) && KnownUser(Add(buy))
  }

  function Meeting(sell: OrderAdd, buy: OrderAdd): Trade {
    Execute(buy, AsQuote(sell, sell.volume), Min(buy.volume, sell.volume))
  }

  lemma SellRests(sell: OrderAdd)
    requires sell.side.Sell? && sell.volume > 0 && ListedTicker(sell.ticker)
    ensures var routed := Route(ALL_EMPTY, Add(sell));
            routed.trades == [] && routed.engines[TickerIndex(sell.ticker)].asks == [AsQuote(sell, sell.volume)]
  {
    assert ALL_EMPTY[TickerIndex(sell.ticker)] == EMPTY;
  }

  lemma BuyMeets(engines: Engines, sell: OrderAdd, buy: OrderAdd)
    requires Meet(sell, buy) && engines[TickerIndex(sell.ticker)].asks == [AsQuote(sell, sell.volume)]
    ensures Route(engines, Add(buy)).trades == [Meeting(sell, buy)]
  {
    var q := engines[TickerIndex(sell.ticker)].asks;
    assert q[1..] == [];
    assert Sweep([], buy, buy.volume - sell.volume).trades == [];
    assert Sweep(q, buy, buy.volume).trades == [Meeting(sell, buy)];
  }

  lemma MeetingTrades(sell: OrderAdd, buy: OrderAdd)
    requires Meet(sell, buy)
    ensures RunRouter([Add(sell)] + [Add(buy)]).trades == [Meeting(sell, buy)]
  {
    RouteOneMore([], Add(sell));
    RouteOneMore([Add(sell)], Add(buy));
    assert [] + [Add(sell)] == [Add(sell)];
    SellRests(sell);
    BuyMeets(RunRouter([Add(sell)]).engines, sell, buy);
  }

  /** Any two orders that meet can trade, with the trade on the tape and in nobody's account. */
  lemma TradeCanBeLost(sell: OrderAdd, buy: OrderAdd) returns (actions: seq<Action>)
    requires Meet(sell, buy)
    ensures CanRun(START, actions)
    ensures NothingSettled(After(START, actions), [Add(sell)] + [Add(buy)])
    ensures After(START, actions).trades.queue == [Meeting(sell, buy)]
  {
    MeetingTrades(sell, buy);
    actions := SnapshotCanMissTrades([Add(sell)] + [Add(buy)]);
  }
}
