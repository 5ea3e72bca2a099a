/** What every step of every thread keeps: the queues lose and reorder nothing, the running engines
    are the sequential ones with the command in hand part done, and the registry is the settled
    trades with the trade in hand part done. */
module PipelineFlow {
  import opened Types
  import opened RouterModel
  import opened ReplicaModel
  import opened AccountsModel
  import opened MatcherTask
  import opened Settlement
  import opened Pipeline

  // ----- queues -----

  /** Taken, then in hand, then queued, is what was pushed. */
  ghost predicate Drained<T>(taken: seq<T>, hand: seq<T>, ch: Channel<T>) {
    taken + hand + ch.queue == ch.pushed
  }

  /** Pushed, then still to push, is all there is. */
  ghost predicate Emitted<T>(pushed: seq<T>, unsent: seq<T>, all: seq<T>) {
    pushed + unsent == all
  }

  lemma DrainPush<T>(taken: seq<T>, hand: seq<T>, ch: Channel<T>, x: T)
    requires Drained(taken, hand, ch)
    ensures Drained(taken, hand, Push(ch, x))
  {
    assert taken + hand + (ch.queue + [x]) == taken + hand + ch.queue + [x];
  }

  lemma DrainPop<T>(taken: seq<T>, ch: Channel<T>)
    requires Drained(taken, [], ch) && ch.queue != []
    ensures Drained(taken, [ch.queue[0]], Pop(ch))
  {
    assert ch.queue == [ch.queue[0]] + ch.queue[1..];
  }

  lemma DrainDone<T>(taken: seq<T>, x: T, ch: Channel<T>)
    requires Drained(taken, [x], ch)
    ensures Drained(taken + [x], [], ch)
  {
    assert taken + [x] + [] == taken + [x];
  }

  lemma EmitOne<T>(pushed: seq<T>, x: T, rest: seq<T>, all: seq<T>)
    requires Emitted(pushed, [x] + rest, all)
    ensures Emitted(pushed + [x], rest, all)
  {
    assert pushed + ([x] + rest) == pushed + [x] + rest;
  }

  lemma EmitMore<T>(pushed: seq<T>, all: seq<T>, more: seq<T>)
    requires Emitted(pushed, [], all)
    ensures Emitted(pushed, more, all + more)
  {
    assert pushed + [] == pushed;
  }

  // ----- invariants -----

  function HeldTrade(c: Consumer<Stage>): seq<Trade> {
    if c.Working? then [c.item.trade] else []
  }

  function HeldEvent(c: Consumer<Event>): seq<Event> {
    if c.Working? then [c.item] else []
  }

  /** What the matching thread has still to push for the command in hand. */
  function Unsent(s: State): seq<Output> {
    UnsentBy(s.router, s.matcher)
  }

  function UnsentBy(router: Engines, matcher: Consumer<Task>): seq<Output> {
    if matcher.Working? then WorkAhead(router, matcher.item).outs else []
  }

  /** Commands: consumed, then queued, is what was dispatched. */
  ghost predicate InboundFlow(s: State) {
    Drained(s.consumed, [], s.inbound)
  }

  /** Part way through `cmd`: the running engines are those before it with what has been done to
      them so far, what has been pushed and what is to come are the command's outputs, and the
      engines it will leave are the sequential ones. */
  predicate UnderWay(before: Engines, engines: Engines, task: Task, cmd: Command) {
    && TaskOk(engines, task) && SoFar(before, engines, task, cmd)
    && Outputs(cmd, Route(before, cmd).trades) == Sent(task) + WorkAhead(engines, task).outs
    && WorkAhead(engines, task).engines == Route(before, cmd).engines
  }

  /** Between commands the running engines are the sequential ones. */
  predicate RouterSound(router: Engines, matcher: Consumer<Task>, consumed: seq<Command>) {
    if matcher.Working? then
      && consumed != []
      && UnderWay(RunRouter(consumed[..|consumed| - 1]).engines, router, matcher.item, consumed[|consumed| - 1])
    else router == RunRouter(consumed).engines
  }

  predicate RouterInv(s: State) {
    RouterSound(s.router, s.matcher, s.consumed)
  }

  /** Trades: settled, in hand, queued and not yet pushed are what the sequential router prints
      on the commands consumed so far. */
  ghost predicate TradeFlow(s: State) {
    && Drained(s.settled, HeldTrade(s.inventory), s.trades)
    && Emitted(s.trades.pushed, TradesIn(Unsent(s)), RunRouter(s.consumed).trades)
  }

  /** Market data: likewise, against the feed of the commands consumed so far. */
  ghost predicate MarketFlow(s: State) {
    && Drained(s.published, HeldEvent(s.publisher), s.market)
    && Emitted(s.market.pushed, EventsIn(Unsent(s)), Feed(s.consumed))
  }

  predicate UsersInv(s: State) {
    && (s.gateway.Dispatching? ==> KnownUser(s.gateway.cmd))
    && UsersKnown(s.inbound.pushed, USERS)
  }

  /** The registry is the trades settled so far, folded in order, and the stages of the trade in
      hand that have been executed. */
  predicate AccountsInv(s: State) {
    && |s.accounts| == USERS
    && |s.mids| == |s.settled| && AllSettle(s.settled, USERS)
    && var base := SettleAll(USERS, s.settled, s.mids);
       if s.inventory.Working? && Settles(s.inventory.item.trade, USERS)
       then s.accounts == Reached(base, s.inventory.item)
       else s.accounts == base
  }

  // ----- the matching thread -----

  lemma RouteOneMore(consumed: seq<Command>, cmd: Command)
    ensures var before := RunRouter(consumed);
            var routed := Route(before.engines, cmd);
            && RunRouter(consumed + [cmd]).engines == routed.engines
            && RunRouter(consumed + [cmd]).trades == before.trades + routed.trades
            && Feed(consumed + [cmd]) == Feed(consumed) + Published(cmd, routed.trades)
  {
    var more := consumed + [cmd];
    assert more[..|more| - 1] == consumed;
  }

  lemma TakeUnderWay(before: Engines, cmd: Command)
    ensures UnderWay(before, before, Begin(cmd), cmd)
    ensures WorkAhead(before, Begin(cmd)).outs == Outputs(cmd, Route(before, cmd).trades)
  {
    BeginAhead(before, cmd);
    assert [] + Outputs(cmd, Route(before, cmd).trades) == Outputs(cmd, Route(before, cmd).trades);
  }

  lemma ShiftOne<T>(all: seq<T>, sent: seq<T>, x: T, rest: seq<T>)
    requires all == sent + ([x] + rest)
    ensures all == (sent + [x]) + rest
  {
  }

  lemma PushUnderWay(before: Engines, engines: Engines, task: Task, cmd: Command)
    requires UnderWay(before, engines, task, cmd) && IsPush(task)
    ensures var next := AfterPush(task);
            && (next.Some? ==> UnderWay(before, engines, next.value, cmd))
            && (next.None? ==> engines == Route(before, cmd).engines)
  {
    var next := AfterPush(task);
    PushAhead(engines, task);
    if next.Some? {
      PushSoFar(before, engines, task, cmd);
      PushSent(task);
      ShiftOne(Outputs(cmd, Route(before, cmd).trades), Sent(task), Pushed(task), AheadOf(engines, next).outs);
    }
  }

  lemma WorkUnderWay(before: Engines, engines: Engines, task: Task, cmd: Command)
    requires UnderWay(before, engines, task, cmd) && !IsPush(task)
    ensures var (engines', next) := AfterWork(engines, task);
            && (next.Some? ==> UnderWay(before, engines', next.value, cmd))
            && (next.None? ==> engines' == Route(before, cmd).engines)
  {
    WorkKeepsAhead(engines, task);
    WorkSoFar(before, engines, task, cmd);
  }

  lemma LastCommand(consumed: seq<Command>)
    requires consumed != []
    ensures var n := |consumed| - 1;
            RunRouter(consumed).engines == Route(RunRouter(consumed[..n]).engines, consumed[n]).engines
  {
  }

  lemma TakeRouter(s: State)
    requires MatcherCan(s, Take) && RouterInv(s)
    ensures RouterInv(MatcherDo(s, Take))
  {
    var cmd := s.inbound.queue[0];
    var more := s.consumed + [cmd];
    assert more[..|more| - 1] == s.consumed;
    TakeUnderWay(s.router, cmd);
  }

  lemma ResumeSound(before: Engines, router: Engines, next: Option<Task>, consumed: seq<Command>)
    requires consumed != [] && before == RunRouter(consumed[..|consumed| - 1]).engines
    requires next.Some? ==> UnderWay(before, router, next.value, consumed[|consumed| - 1])
    requires next.None? ==> router == Route(before, consumed[|consumed| - 1]).engines
    ensures RouterSound(router, Resume(next), consumed)
  {
    LastCommand(consumed);
  }

  lemma PushRouter(s: State)
    requires MatcherCan(s, Work) && RouterInv(s) && IsPush(s.matcher.item)
    ensures RouterInv(MatcherDo(s, Work))
  {
    var n, task := |s.consumed| - 1, s.matcher.item;
    var before := RunRouter(s.consumed[..n]).engines;
    PushUnderWay(before, s.router, task, s.consumed[n]);
    ResumeSound(before, s.router, AfterPush(task), s.consumed);
  }

  lemma WorkRouter(s: State)
    requires MatcherCan(s, Work) && RouterInv(s) && !IsPush(s.matcher.item)
    ensures RouterInv(MatcherDo(s, Work))
  {
    var n, task := |s.consumed| - 1, s.matcher.item;
    var before := RunRouter(s.consumed[..n]).engines;
    WorkUnderWay(before, s.router, task, s.consumed[n]);
    var (engines, next) := AfterWork(s.router, task);
    ResumeSound(before, engines, next, s.consumed);
  }

  lemma MatcherRouter(s: State, step: Step)
    requires MatcherCan(s, step) && RouterInv(s)
    ensures RouterInv(MatcherDo(s, step))
  {
    match step
    case Take => TakeRouter(s);
    case Work => if IsPush(s.matcher.item) { PushRouter(s); } else { WorkRouter(s); }
    case _ => SameRouter(s, MatcherDo(s, step));
  }

  lemma SameRouter(s: State, s': State)
    requires RouterInv(s) && s'.router == s.router && s'.consumed == s.consumed
    requires s'.matcher == s.matcher || (!s'.matcher.Working? && !s.matcher.Working?)
    ensures RouterInv(s')
  {
  }

  lemma TakeFlow(s: State)
    requires MatcherCan(s, Take) && RouterInv(s) && TradeFlow(s) && MarketFlow(s)
    ensures TradeFlow(MatcherDo(s, Take)) && MarketFlow(MatcherDo(s, Take))
  {
    var cmd := s.inbound.queue[0];
    var ts := Route(s.router, cmd).trades;
    RouteOneMore(s.consumed, cmd);
    TakeUnderWay(s.router, cmd);
    OutputsCarry(cmd, ts);
    EmitMore(s.trades.pushed, RunRouter(s.consumed).trades, ts);
    EmitMore(s.market.pushed, Feed(s.consumed), Published(cmd, ts));
  }

  lemma CarryFirst(out: Output, rest: seq<Output>)
    ensures TradesIn([out] + rest) == (if out.ToTrades? then [out.trade] else []) + TradesIn(rest)
    ensures EventsIn([out] + rest) == (if out.ToMarket? then [out.event] else []) + EventsIn(rest)
  {
    assert ([out] + rest)[1..] == rest;
  }

  lemma PushUnsent(s: State)
    requires MatcherCan(s, Work) && RouterInv(s) && IsPush(s.matcher.item)
    ensures Unsent(s) == [Pushed(s.matcher.item)] + Unsent(MatcherDo(s, Work))
  {
    PushAhead(s.router, s.matcher.item);
  }

  lemma PushFlow(s: State)
    requires MatcherCan(s, Work) && RouterInv(s) && IsPush(s.matcher.item) && TradeFlow(s) && MarketFlow(s)
    ensures TradeFlow(MatcherDo(s, Work)) && MarketFlow(MatcherDo(s, Work))
  {
    var s' := MatcherDo(s, Work);
    PushUnsent(s);
    CarryFirst(Pushed(s.matcher.item), Unsent(s'));
    match Pushed(s.matcher.item)
    case ToMarket(e) =>
      DrainPush(s.published, HeldEvent(s.publisher), s.market, e);
      EmitOne(s.market.pushed, e, EventsIn(Unsent(s')), Feed(s.consumed));
    case ToTrades(t) =>
      DrainPush(s.settled, HeldTrade(s.inventory), s.trades, t);
      EmitOne(s.trades.pushed, t, TradesIn(Unsent(s')), RunRouter(s.consumed).trades);
  }

  lemma WorkUnsent(s: State)
    requires MatcherCan(s, Work) && RouterInv(s) && !IsPush(s.matcher.item)
    ensures Unsent(MatcherDo(s, Work)) == Unsent(s)
  {
    WorkKeepsAhead(s.router, s.matcher.item);
  }

  /** Steps that move no work between hands leave the flows alone. */
  lemma SameFlow(s: State, s': State)
    requires TradeFlow(s) && MarketFlow(s)
    requires s'.consumed == s.consumed && s'.trades == s.trades && s'.settled == s.settled
    requires s'.market == s.market && s'.published == s.published
    requires HeldTrade(s'.inventory) == HeldTrade(s.inventory) && HeldEvent(s'.publisher) == HeldEvent(s.publisher)
    requires Unsent(s') == Unsent(s)
    ensures TradeFlow(s') && MarketFlow(s')
  {
  }

  lemma MatcherFlow(s: State, step: Step)
    requires MatcherCan(s, step) && RouterInv(s) && TradeFlow(s) && MarketFlow(s)
    ensures TradeFlow(MatcherDo(s, step)) && MarketFlow(MatcherDo(s, step))
  {
    if step.Take? {
      TakeFlow(s);
    } else if step.Work? && IsPush(s.matcher.item) {
      PushFlow(s);
    } else {
      if step.Work? { WorkUnsent(s); }
      SameFlow(s, MatcherDo(s, step));
    }
  }

  // ----- the two drainers -----

  lemma InventoryFlow(s: State, step: Step)
    requires InventoryCan(s, step) && TradeFlow(s) && MarketFlow(s)
    ensures TradeFlow(InventoryDo(s, step)) && MarketFlow(InventoryDo(s, step))
  {
    var s' := InventoryDo(s, step);
    if step.Take? {
      DrainPop(s.settled, s.trades);
    } else if step.Work? && s'.inventory.Popping? {
      DrainDone(s.settled, s.inventory.item.trade, s.trades);
    } else {
      SameFlow(s, s');
    }
  }

  lemma PublisherFlow(s: State, step: Step)
    requires PublisherCan(s, step) && TradeFlow(s) && MarketFlow(s)
    ensures TradeFlow(PublisherDo(s, step)) && MarketFlow(PublisherDo(s, step))
  {
    if step.Take? {
      DrainPop(s.published, s.market);
    } else if step.Work? {
      DrainDone(s.published, s.publisher.item, s.market);
    } else {
      SameFlow(s, PublisherDo(s, step));
    }
  }

  lemma SettledOneMore(settled: seq<Trade>, mids: seq<Option<Price>>, t: Trade, mid: Option<Price>)
    requires AllSettle(settled, USERS) && |mids| == |settled| && Settles(t, USERS)
    ensures AllSettle(settled + [t], USERS)
    ensures SettleAll(USERS, settled + [t], mids + [mid]) == Settle(SettleAll(USERS, settled, mids), t, mid)
  {
    assert (settled + [t])[..|settled|] == settled && (mids + [mid])[..|mids|] == mids;
  }

  lemma InventoryAccounts(s: State, step: Step)
    requires InventoryCan(s, step) && AccountsInv(s)
    ensures AccountsInv(InventoryDo(s, step))
  {
    if step.Work? {
      var stage, base := s.inventory.item, SettleAll(USERS, s.settled, s.mids);
      StageReaches(base, stage, MidOf(s.router, stage.trade.ticker));
      SettledOneMore(s.settled, s.mids, stage.trade, MidUsed(stage));
    }
  }

  // ----- who may still be running -----

  function Phase(m: Main): nat {
    match m
    case Serving => 0
    case JoinGateway => 1
    case FlagGateway => 2
    case JoinMatcher => 3
    case FlagEngine => 4
    case JoinInventory => 5
    case JoinPublisher => 6
    case Snapshot => 7
  }

  /** Flags follow joins, and nobody leaves before the thread feeding them has. */
  predicate OrderInv(s: State) {
    && (s.gateway.Closed? ==> !s.main.Serving?)
    && (Phase(s.main) >= 2 ==> s.gateway.Closed?)
    && (s.gatewayFinished <==> Phase(s.main) >= 3)
    && (s.matcher.Exited? ==> s.gatewayFinished)
    && (Phase(s.main) >= 4 ==> s.matcher.Exited?)
    && (s.engineFinished <==> Phase(s.main) >= 5)
    && (s.inventory.Exited? ==> s.engineFinished)
    && (s.publisher.Exited? ==> s.engineFinished)
    && (Phase(s.main) >= 6 ==> s.inventory.Exited?)
    && (Phase(s.main) >= 7 ==> s.publisher.Exited?)
  }

  /** Whose exits and flags are as they were. */
  lemma SameOrder(s: State, s': State)
    requires OrderInv(s) && s'.main == s.main && s'.gateway == s.gateway
    requires s'.gatewayFinished == s.gatewayFinished && s'.engineFinished == s.engineFinished
    requires s'.matcher.Exited? == s.matcher.Exited? || (s'.matcher.Exited? && s.gatewayFinished)
    requires s'.inventory.Exited? == s.inventory.Exited? || (s'.inventory.Exited? && s.engineFinished)
    requires s'.publisher.Exited? == s.publisher.Exited? || (s'.publisher.Exited? && s.engineFinished)
    ensures OrderInv(s')
  {
  }

  // ----- what a failed pop says -----

  predicate Marked<T>(c: Consumer<T>) {
    c.Checking? || c.Exited?
  }

  /** What is queued after a failed pop is exactly what was pushed since; and if the flag was
      already up at the failed pop, that is nothing. */
  ghost predicate MarkInv<T, U>(c: Consumer<U>, ch: Channel<T>, flag: bool) {
    Marked(c) ==>
      && c.mark <= |ch.pushed| && ch.queue == ch.pushed[c.mark..]
      && (c.flagThen ==> flag && c.mark == |ch.pushed|)
  }

  ghost predicate MarksInv(s: State) {
    && MarkInv(s.matcher, s.inbound, s.gatewayFinished)
    && MarkInv(s.inventory, s.trades, s.engineFinished)
    && MarkInv(s.publisher, s.market, s.engineFinished)
  }

  lemma PushMark<T, U>(c: Consumer<U>, ch: Channel<T>, x: T)
    requires MarkInv(c, ch, false)
    ensures MarkInv(c, Push(ch, x), false)
  {
  }

  lemma MatcherMarks(s: State, step: Step)
    requires MatcherCan(s, step) && OrderInv(s) && MarksInv(s)
    ensures MarksInv(MatcherDo(s, step))
  {
    if step.Work? && IsPush(s.matcher.item) {
      assert !s.engineFinished;
      match Pushed(s.matcher.item)
      case ToMarket(e) => PushMark(s.publisher, s.market, e);
      case ToTrades(t) => PushMark(s.inventory, s.trades, t);
    }
  }

  // ----- every reachable state -----

  ghost predicate FlowInv(s: State) {
    InboundFlow(s) && RouterInv(s) && TradeFlow(s) && MarketFlow(s)
  }

  ghost predicate Inv(s: State) {
    FlowInv(s) && BooksInv(s) && OrderInv(s) && MarksInv(s)
  }

  lemma StartInv()
    ensures Inv(START)
  {
    assert RunRouter([]) == Routed(ALL_EMPTY, []) && Feed([]) == [];
  }

  lemma MatcherInbound(s: State, step: Step)
    requires MatcherCan(s, step) && InboundFlow(s)
    ensures InboundFlow(MatcherDo(s, step))
  {
    if step.Take? {
      DrainPop(s.consumed, s.inbound);
      DrainDone(s.consumed, s.inbound.queue[0], Pop(s.inbound));
    }
  }

  predicate BooksInv(s: State) {
    UsersInv(s) && AccountsInv(s)
  }

  lemma SameBooks(s: State, s': State)
    requires BooksInv(s) && s'.inbound.pushed == s.inbound.pushed && s'.gateway == s.gateway
    requires s'.accounts == s.accounts && s'.settled == s.settled && s'.mids == s.mids && s'.inventory == s.inventory
    ensures BooksInv(s')
  {
  }

  lemma MatcherFlowInv(s: State, step: Step)
    requires MatcherCan(s, step) && FlowInv(s)
    ensures FlowInv(MatcherDo(s, step))
  {
    MatcherInbound(s, step);
    MatcherRouter(s, step);
    MatcherFlow(s, step);
  }

  lemma MatcherRest(s: State, step: Step)
    requires MatcherCan(s, step) && BooksInv(s) && OrderInv(s)
    ensures BooksInv(MatcherDo(s, step)) && OrderInv(MatcherDo(s, step))
  {
    SameBooks(s, MatcherDo(s, step));
    SameOrder(s, MatcherDo(s, step));
  }

  lemma MatcherStep(s: State, step: Step)
    requires MatcherCan(s, step) && Inv(s)
    ensures Inv(MatcherDo(s, step))
  {
    MatcherFlowInv(s, step);
    MatcherRest(s, step);
    MatcherMarks(s, step);
  }

  lemma InventoryMarks(s: State, step: Step)
    requires InventoryCan(s, step) && MarksInv(s)
    ensures MarksInv(InventoryDo(s, step))
  {
  }

  lemma InventoryFlowInv(s: State, step: Step)
    requires InventoryCan(s, step) && FlowInv(s)
    ensures FlowInv(InventoryDo(s, step))
  {
    SameRouter(s, InventoryDo(s, step));
    InventoryFlow(s, step);
  }

  lemma InventoryRest(s: State, step: Step)
    requires InventoryCan(s, step) && BooksInv(s) && OrderInv(s)
    ensures BooksInv(InventoryDo(s, step)) && OrderInv(InventoryDo(s, step))
  {
    InventoryAccounts(s, step);
    SameOrder(s, InventoryDo(s, step));
  }

  lemma InventoryStep(s: State, step: Step)
    requires InventoryCan(s, step) && Inv(s)
    ensures Inv(InventoryDo(s, step))
  {
    InventoryFlowInv(s, step);
    InventoryRest(s, step);
    InventoryMarks(s, step);
  }

  lemma PublisherFlowInv(s: State, step: Step)
    requires PublisherCan(s, step) && FlowInv(s)
    ensures FlowInv(PublisherDo(s, step))
  {
    SameRouter(s, PublisherDo(s, step));
    PublisherFlow(s, step);
  }

  lemma PublisherRest(s: State, step: Step)
    requires PublisherCan(s, step) && BooksInv(s) && OrderInv(s) && MarksInv(s)
    ensures BooksInv(PublisherDo(s, step)) && OrderInv(PublisherDo(s, step)) && MarksInv(PublisherDo(s, step))
  {
    SameBooks(s, PublisherDo(s, step));
    SameOrder(s, PublisherDo(s, step));
  }

  lemma PublisherStep(s: State, step: Step)
    requires PublisherCan(s, step) && Inv(s)
    ensures Inv(PublisherDo(s, step))
  {
    PublisherFlowInv(s, step);
    PublisherRest(s, step);
  }

  predicate IsGateway(a: Action) {
    a.Receive? || a.Dispatch? || a.CloseGateway?
  }

  predicate IsMain(a: Action) {
    a.Signal? || a.MainStep?
  }

  lemma GatewayFlow(s: State, a: Action)
    requires Enabled(s, a) && IsGateway(a) && FlowInv(s)
    ensures FlowInv(Do(s, a))
  {
    SameRouter(s, Do(s, a));
    SameFlow(s, Do(s, a));
    if a.Dispatch? {
      DrainPush(s.consumed, [], s.inbound, s.gateway.cmd);
    }
  }

  lemma GatewayRest(s: State, a: Action)
    requires Enabled(s, a) && IsGateway(a) && BooksInv(s) && OrderInv(s) && MarksInv(s)
    ensures BooksInv(Do(s, a)) && OrderInv(Do(s, a)) && MarksInv(Do(s, a))
  {
    if a.Dispatch? {
      PushMark(s.matcher, s.inbound, s.gateway.cmd);
    }
  }

  lemma MainFrame(s: State, a: Action)
    requires Enabled(s, a) && IsMain(a)
    ensures var s' := Do(s, a);
            s' == s.(main := s'.main, gatewayFinished := s'.gatewayFinished, engineFinished := s'.engineFinished)
  {
  }

  lemma FlagsOnly(s: State, s': State)
    requires FlowInv(s) && BooksInv(s)
    requires s' == s.(main := s'.main, gatewayFinished := s'.gatewayFinished, engineFinished := s'.engineFinished)
    ensures FlowInv(s') && BooksInv(s')
  {
    SameRouter(s, s');
    SameFlow(s, s');
    SameBooks(s, s');
  }

  lemma MainFlow(s: State, a: Action)
    requires Enabled(s, a) && IsMain(a) && FlowInv(s) && BooksInv(s)
    ensures FlowInv(Do(s, a)) && BooksInv(Do(s, a))
  {
    MainFrame(s, a);
    FlagsOnly(s, Do(s, a));
  }

  lemma MainRest(s: State, a: Action)
    requires Enabled(s, a) && IsMain(a) && OrderInv(s) && MarksInv(s)
    ensures OrderInv(Do(s, a)) && MarksInv(Do(s, a))
  {
  }

  lemma ControlStep(s: State, a: Action)
    requires Enabled(s, a) && (IsGateway(a) || IsMain(a)) && Inv(s)
    ensures Inv(Do(s, a))
  {
    if IsGateway(a) {
      GatewayFlow(s, a);
      GatewayRest(s, a);
    } else {
      MainFlow(s, a);
      MainRest(s, a);
    }
  }

  lemma StepInv(s: State, a: Action)
    requires Enabled(s, a) && Inv(s)
    ensures Inv(Do(s, a))
  {
    match a
    case Matcher(step) => MatcherStep(s, step);
    case Inventory(step) => InventoryStep(s, step);
    case Publisher(step) => PublisherStep(s, step);
    case _ => ControlStep(s, a);
  }

  lemma {:induction false} RunInv(s: State, actions: seq<Action>)
    requires Inv(s) && CanRun(s, actions)
    ensures Inv(After(s, actions))
    decreases |actions|
  {
    if actions == [] {
    } else {
      StepInv(s, actions[0]);
      RunInv(Do(s, actions[0]), actions[1..]);
    }
  }

  // ----- runs -----

  lemma RunAfter(s: State, a: Action, rest: seq<Action>)
    requires Enabled(s, a) && CanRun(Do(s, a), rest)
    ensures CanRun(s, [a] + rest) && After(s, [a] + rest) == After(Do(s, a), rest)
  {
    assert ([a] + rest)[1..] == rest;
  }

  lemma {:induction false} RunStep(s: State, actions: seq<Action>, a: Action)
    requires CanRun(s, actions) && Enabled(After(s, actions), a)
    ensures CanRun(s, actions + [a]) && After(s, actions + [a]) == Do(After(s, actions), a)
    decreases |actions|
  {
    if actions == [] {
      assert [a][1..] == [];
    } else {
      RunStep(Do(s, actions[0]), actions[1..], a);
      assert (actions + [a])[1..] == actions[1..] + [a];
    }
  }

  lemma {:induction false} RunConcat(s: State, a: seq<Action>, b: seq<Action>)
    requires CanRun(s, a) && CanRun(After(s, a), b)
    ensures CanRun(s, a + b) && After(s, a + b) == After(After(s, a), b)
    decreases |a|
  {
    if a == [] {
      assert a + b == b;
    } else {
      RunConcat(Do(s, a[0]), a[1..], b);
      assert (a + b)[1..] == a[1..] + b;
    }
  }
}
