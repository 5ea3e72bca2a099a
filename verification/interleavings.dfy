/** What holds at every moment of every interleaving: results are those of a sequential run, and the
    running engines differ from it only by the command in hand. */
module Interleavings {
  import opened Types
  import opened Quotes
  import opened EngineModel
  import opened RouterModel
  import opened ReplicaModel
  import opened AccountsModel
  import opened MatcherTask
  import opened Pipeline
  import opened PipelineFlow

  // ----- results are those of a sequential run -----

  lemma PrefixOfMore<T>(a: seq<T>, b: seq<T>, more: seq<T>)
    requires a <= b
    ensures a <= b + more
  {
  }

  lemma {:induction false} LongerRunMoreTrades(a: seq<Command>, b: seq<Command>)
    requires a <= b
    ensures RunRouter(a).trades <= RunRouter(b).trades
    decreases |b|
  {
    if |a| == |b| {
      assert a == b;
    } else {
      var init := b[..|b| - 1];
      LongerRunMoreTrades(a, init);
      PrefixOfMore(RunRouter(a).trades, RunRouter(init).trades, Route(RunRouter(init).engines, b[|b| - 1]).trades);
    }
  }

  lemma {:induction false} LongerRunMoreEvents(a: seq<Command>, b: seq<Command>)
    requires a <= b
    ensures Feed(a) <= Feed(b)
    decreases |b|
  {
    if |a| == |b| {
      assert a == b;
    } else {
      var init, cmd := b[..|b| - 1], b[|b| - 1];
      LongerRunMoreEvents(a, init);
      PrefixOfMore(Feed(a), Feed(init), Published(cmd, Route(RunRouter(init).engines, cmd).trades));
    }
  }

  lemma PrefixTrans<T>(a: seq<T>, b: seq<T>, c: seq<T>)
    requires a <= b <= c
    ensures a <= c
  {
  }

  lemma TakenIsPrefix<T>(taken: seq<T>, hand: seq<T>, ch: Channel<T>, unsent: seq<T>, all: seq<T>)
    requires Drained(taken, hand, ch) && Emitted(ch.pushed, unsent, all)
    ensures taken <= all
  {
  }

  lemma ResultsIn(s: State)
    requires Inv(s)
    ensures s.consumed <= s.inbound.pushed
    ensures s.settled <= RunRouter(s.inbound.pushed).trades
    ensures s.published <= Feed(s.inbound.pushed)
  {
    LongerRunMoreTrades(s.consumed, s.inbound.pushed);
    LongerRunMoreEvents(s.consumed, s.inbound.pushed);
    TakenIsPrefix(s.settled, HeldTrade(s.inventory), s.trades, TradesIn(Unsent(s)), RunRouter(s.consumed).trades);
    TakenIsPrefix(s.published, HeldEvent(s.publisher), s.market, EventsIn(Unsent(s)), Feed(s.consumed));
    PrefixTrans(s.settled, RunRouter(s.consumed).trades, RunRouter(s.inbound.pushed).trades);
    PrefixTrans(s.published, Feed(s.consumed), Feed(s.inbound.pushed));
  }

  lemma Reachable(actions: seq<Action>)
    requires CanRun(START, actions)
    ensures Inv(After(START, actions))
  {
    StartInv();
    RunInv(START, actions);
  }

  /** At every moment the commands consumed are the first ones dispatched, and trades settled and
      events published are the first ones a sequential router would print for the dispatched
      commands. Between commands the engines are the sequential ones; between trades the registry
      is the settled trades folded in. */
  lemma ResultsAreSequential(actions: seq<Action>)
    requires CanRun(START, actions)
    ensures var s := After(START, actions);
            && s.consumed <= s.inbound.pushed
            && s.settled <= RunRouter(s.inbound.pushed).trades
            && s.published <= Feed(s.inbound.pushed)
            && (!s.matcher.Working? ==> s.router == RunRouter(s.consumed).engines)
            && |s.mids| == |s.settled| && AllSettle(s.settled, USERS)
            && (!s.inventory.Working? ==> s.accounts == SettleAll(USERS, s.settled, s.mids))
  {
    Reachable(actions);
    ResultsIn(After(START, actions));
  }

  // ----- in the middle of a command -----

  predicate FillsUnderWay(task: Task) {
    task.Matching? || task.Printing? || task.Handing? || task.Filling? || task.Resting?
  }

  function HandedOn(task: Task): seq<Trade>
    requires FillsUnderWay(task)
  {
    if task.Filling? then task.progress.done + [task.trade] else task.progress.done
  }

  function Announced(task: Task): seq<Trade>
    requires FillsUnderWay(task)
  {
    if task.Filling? || task.Handing? then task.progress.done + [task.trade] else task.progress.done
  }

  /** In the middle of an add: the engines are the sequential ones before it, except that on its
      own book exactly the fills `done` have been applied; those are its first trades, and they
      and the one in hand are what has been pushed for it. */
  predicate MidAdd(s: State, task: Task)
    requires s.consumed != [] && FillsUnderWay(task)
  {
    var init, cmd := s.consumed[..|s.consumed| - 1], s.consumed[|s.consumed| - 1];
    var before, p := RunRouter(init), task.progress;
    && cmd == Add(p.order) && ListedTicker(p.order.ticker)
    && s.router == WithEngine(before.engines, p.order.ticker,
                              Filled(EngineOf(before.engines, p.order.ticker), Opposite(p.order.side), p.done))
    && p.remaining == p.order.volume - TradedVolume(p.done)
    && Announced(task) <= AddOrder(EngineOf(before.engines, p.order.ticker), p.order).trades
    && s.trades.pushed == before.trades + HandedOn(task)
    && s.market.pushed == Feed(init) + Published(cmd, Announced(task))
  }

  lemma SentCarries(task: Task)
    requires FillsUnderWay(task)
    ensures TradesIn(Sent(task)) == HandedOn(task)
    ensures EventsIn(Sent(task)) == Published(Add(task.progress.order), Announced(task))
  {
    var p := task.progress;
    OutputsCarry(Add(p.order), p.done);
    if task.Handing? {
      var last := [ToMarket(TradeEvent(task.trade))];
      TradesInConcat(SentFills(p), last);
      EventsInConcat(SentFills(p), last);
      assert last[1..] == [];
      AnnounceOneMore(p, task.trade);
    } else if task.Filling? {
      FillsOneMore(p.done, task.trade);
      OutputsCarry(Add(p.order), p.done + [task.trade]);
      assert Sent(task) == Outputs(Add(p.order), p.done + [task.trade]);
    }
  }

  lemma AnnounceOneMore(p: Progress, t: Trade)
    ensures Published(Add(p.order), p.done + [t]) == Published(Add(p.order), p.done) + [TradeEvent(t)]
  {
    assert AsEvents(p.done + [t]) == AsEvents(p.done) + [TradeEvent(t)];
  }

  lemma CancelRight<T>(pushed: seq<T>, before: seq<T>, sent: seq<T>, rest: seq<T>)
    requires pushed + rest == before + (sent + rest)
    ensures pushed == before + sent
  {
    assert before + (sent + rest) == (before + sent) + rest;
    assert |pushed| == |before + sent|;
    assert pushed == (pushed + rest)[..|pushed|];
    assert before + sent == ((before + sent) + rest)[..|pushed|];
  }

  lemma SentAndUnsent(before: Engines, engines: Engines, task: Task, cmd: Command)
    requires UnderWay(before, engines, task, cmd)
    ensures var outs := WorkAhead(engines, task).outs;
            && Route(before, cmd).trades == TradesIn(Sent(task)) + TradesIn(outs)
            && Published(cmd, Route(before, cmd).trades) == EventsIn(Sent(task)) + EventsIn(outs)
  {
    var outs := WorkAhead(engines, task).outs;
    OutputsCarry(cmd, Route(before, cmd).trades);
    TradesInConcat(Sent(task), outs);
    EventsInConcat(Sent(task), outs);
  }

  lemma HandUnderWay(s: State, task: Task)
    requires RouterInv(s) && s.matcher == Working(task)
    ensures s.consumed != []
    ensures var n := |s.consumed| - 1;
            UnderWay(RunRouter(s.consumed[..n]).engines, s.router, task, s.consumed[n])
  {
  }

  lemma LastOutputs(consumed: seq<Command>)
    requires consumed != []
    ensures var n := |consumed| - 1;
            var ts := Route(RunRouter(consumed[..n]).engines, consumed[n]).trades;
            && RunRouter(consumed).trades == RunRouter(consumed[..n]).trades + ts
            && Feed(consumed) == Feed(consumed[..n]) + Published(consumed[n], ts)
  {
  }

  /** What has been pushed is the sequential output before the command, and what it has sent. */
  lemma PushedSoFar(s: State, task: Task)
    requires FlowInv(s) && s.matcher == Working(task)
    ensures s.consumed != []
    ensures var init := s.consumed[..|s.consumed| - 1];
            && s.trades.pushed == RunRouter(init).trades + TradesIn(Sent(task))
            && s.market.pushed == Feed(init) + EventsIn(Sent(task))
  {
    HandUnderWay(s, task);
    var n := |s.consumed| - 1;
    var init := s.consumed[..n];
    SentAndUnsent(RunRouter(init).engines, s.router, task, s.consumed[n]);
    LastOutputs(s.consumed);
    assert Unsent(s) == WorkAhead(s.router, task).outs;
    CancelRight(s.trades.pushed, RunRouter(init).trades, TradesIn(Sent(task)), TradesIn(Unsent(s)));
    CancelRight(s.market.pushed, Feed(init), EventsIn(Sent(task)), EventsIn(Unsent(s)));
  }

  lemma AddUnderWay(before: Engines, engines: Engines, task: Task, cmd: Command)
    requires UnderWay(before, engines, task, cmd) && FillsUnderWay(task)
    ensures var o := task.progress.order;
            && cmd == Add(o) && ListedTicker(o.ticker)
            && Route(before, cmd).trades == AddOrder(EngineOf(before, o.ticker), o).trades
  {
  }

  lemma HandingFirst(engines: Engines, p: Progress, t: Trade)
    ensures [t] <= TradesIn(WorkAhead(engines, Handing(p, t)).outs)
  {
    CarryFirst(ToTrades(t), FillAhead(engines, p, t).outs);
  }

  lemma PrefixThrough<T>(done: seq<T>, t: T, rest: seq<T>, all: seq<T>)
    requires [t] <= rest && all == done + rest
    ensures done + [t] <= all
  {
    assert rest == [t] + rest[1..];
  }

  lemma AnnouncedIsPrefix(before: Engines, engines: Engines, task: Task, cmd: Command)
    requires UnderWay(before, engines, task, cmd) && FillsUnderWay(task)
    ensures Announced(task) <= Route(before, cmd).trades
  {
    SentAndUnsent(before, engines, task, cmd);
    SentCarries(task);
    if task.Handing? {
      HandingFirst(engines, task.progress, task.trade);
      PrefixThrough(task.progress.done, task.trade, TradesIn(WorkAhead(engines, task).outs), Route(before, cmd).trades);
    }
  }

  lemma MidAddIn(s: State, task: Task)
    requires FlowInv(s) && s.matcher == Working(task) && FillsUnderWay(task)
    ensures s.consumed != [] && MidAdd(s, task)
  {
    HandUnderWay(s, task);
    PushedSoFar(s, task);
    SentCarries(task);
    var n := |s.consumed| - 1;
    AddUnderWay(RunRouter(s.consumed[..n]).engines, s.router, task, s.consumed[n]);
    AnnouncedIsPrefix(RunRouter(s.consumed[..n]).engines, s.router, task, s.consumed[n]);
  }

  /** In every reachable state in the middle of an add the running book is the sequential one with
      exactly the trades handed on so far applied to it, one fewer while the last is being applied. */
  lemma MidAddAlways(actions: seq<Action>, task: Task)
    requires CanRun(START, actions) && After(START, actions).matcher == Working(task) && FillsUnderWay(task)
    ensures After(START, actions).consumed != [] && MidAdd(After(START, actions), task)
  {
    Reachable(actions);
    MidAddIn(After(START, actions), task);
  }
}
