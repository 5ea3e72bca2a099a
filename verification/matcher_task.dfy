/** The matching thread inside one command, statement by statement: an add is announced before the
    engine sees it, each trade is announced and handed on before its fill is applied, and a cancel
    is announced after the engine has taken it. */
module MatcherTask {
  import opened Types
  import opened Quotes
  import opened EngineModel
  import opened RouterModel
  import opened ReplicaModel
  import opened Throughout

  // ----- what is pushed -----

  datatype Output = ToMarket(event: Event) | ToTrades(trade: Trade)

  function Fills(ts: seq<Trade>): seq<Output> {
    if ts == [] then [] else [ToMarket(TradeEvent(ts[0])), ToTrades(ts[0])] + Fills(ts[1..])
  }

  /** What the matching thread pushes for one command, in order. */
  function Outputs(cmd: Command, ts: seq<Trade>): seq<Output> {
    match cmd
    case Add(o) => [ToMarket(AddEvent(o))] + Fills(ts)
    case Cancel(c) => [ToMarket(CancelEvent(c))]
  }

  function TradesIn(outs: seq<Output>): seq<Trade> {
    if outs == [] then []
    else if outs[0].ToTrades? then [outs[0].trade] + TradesIn(outs[1..]) else TradesIn(outs[1..])
  }

  function EventsIn(outs: seq<Output>): seq<Event> {
    if outs == [] then []
    else if outs[0].ToMarket? then [outs[0].event] + EventsIn(outs[1..]) else EventsIn(outs[1..])
  }

  lemma {:induction false} FillsCarry(ts: seq<Trade>)
    ensures TradesIn(Fills(ts)) == ts && EventsIn(Fills(ts)) == AsEvents(ts)
  {
    if ts == [] {
      assert AsEvents(ts) == [];
    } else {
      FillsCarry(ts[1..]);
      var outs := Fills(ts);
      assert outs[1..] == [ToTrades(ts[0])] + Fills(ts[1..]);
      assert outs[1..][1..] == Fills(ts[1..]);
      assert AsEvents(ts) == [TradeEvent(ts[0])] + AsEvents(ts[1..]);
    }
  }

  /** A command's outputs carry exactly its trades and exactly its published events. */
  lemma OutputsCarry(cmd: Command, ts: seq<Trade>)
    requires cmd.Cancel? ==> ts == []
    ensures TradesIn(Outputs(cmd, ts)) == ts && EventsIn(Outputs(cmd, ts)) == Published(cmd, ts)
  {
    match cmd
    case Add(o) =>
      FillsCarry(ts);
      assert Outputs(cmd, ts)[1..] == Fills(ts);
    case Cancel(_) =>
      assert Outputs(cmd, ts)[1..] == [];
  }

  lemma {:induction false} FillsOneMore(ts: seq<Trade>, t: Trade)
    ensures Fills(ts + [t]) == Fills(ts) + [ToMarket(TradeEvent(t)), ToTrades(t)]
  {
    if ts == [] {
      assert [t][1..] == [];
    } else {
      FillsOneMore(ts[1..], t);
      assert (ts + [t])[1..] == ts[1..] + [t];
    }
  }

  lemma {:induction false} TradesInConcat(a: seq<Output>, b: seq<Output>)
    ensures TradesIn(a + b) == TradesIn(a) + TradesIn(b)
  {
    if a == [] {
      assert a + b == b;
    } else {
      TradesInConcat(a[1..], b);
      assert (a + b)[0] == a[0] && (a + b)[1..] == a[1..] + b;
    }
  }

  lemma {:induction false} EventsInConcat(a: seq<Output>, b: seq<Output>)
    ensures EventsIn(a + b) == EventsIn(a) + EventsIn(b)
  {
    if a == [] {
      assert a + b == b;
    } else {
      EventsInConcat(a[1..], b);
      assert (a + b)[0] == a[0] && (a + b)[1..] == a[1..] + b;
    }
  }

  // ----- one fill -----

  /** The fill of the order at the front of one side: it shrinks, or goes and leaves the index. */
  function FillHead(e: Engine, side: Side, volume: int): Engine {
    var q := QuotesOf(e, side);
    if q == [] then e
    else if volume == q[0].volume then WithQuotes(e, side, q[1..]).(index := e.index - {q[0].orderId})
    else WithQuotes(e, side, [q[0].(volume := q[0].volume - volume)] + q[1..])
  }

  /** The fill the loop is about to make, if it goes round again. */
  function NextTrade(e: Engine, o: OrderAdd, remaining: int): Option<Trade> {
    var q := QuotesOf(e, Opposite(o.side));
    if remaining <= 0 || q == [] || !Crosses(o, q[0].price) then None
    else Some(Execute(o, q[0], Min(remaining, q[0].volume)))
  }

  /** All that is still to come of an add with `remaining` unfilled. */
  function Proceed(e: Engine, o: OrderAdd, remaining: int): Outcome {
    var s := Sweep(QuotesOf(e, Opposite(o.side)), o, remaining);
    var m := WithQuotes(e, Opposite(o.side), s.left).(index := e.index - Ids(s.filled));
    Outcome(Publish(if s.remaining > 0 then Rest(m, o, s.remaining) else m), s.trades)
  }

  lemma ProceedIsAdd(e: Engine, o: OrderAdd)
    ensures Proceed(e, o, o.volume) == AddOrder(e, o)
  {
  }

  lemma ErasedFirst(index: map<OrderId, Location>, id: OrderId, ids: seq<OrderId>)
    ensures index - {id} - Ids(ids) == index - Ids([id] + ids)
  {
  }

  /** Making the next fill leaves the rest of the add as it was going to be. */
  lemma FillProceeds(e: Engine, o: OrderAdd, remaining: int)
    requires NextTrade(e, o, remaining).Some?
    ensures var t := NextTrade(e, o, remaining).value;
            var next := Proceed(FillHead(e, Opposite(o.side), t.volume), o, remaining - t.volume);
            Proceed(e, o, remaining) == Outcome(next.engine, [t] + next.trades)
  {
    var opp := Opposite(o.side);
    var q, t := QuotesOf(e, opp), NextTrade(e, o, remaining).value;
    var e' := FillHead(e, opp, t.volume);
    if remaining < q[0].volume {
      assert Sweep(QuotesOf(e', opp), o, 0) == Swept(QuotesOf(e', opp), [], 0, []);
      assert e.index - Ids([]) == e.index;
    } else {
      assert QuotesOf(e', opp) == q[1..];
      ErasedFirst(e.index, q[0].orderId, Sweep(q[1..], o, remaining - t.volume).filled);
    }
  }

  lemma NoFillProceeds(e: Engine, o: OrderAdd, remaining: int)
    requires NextTrade(e, o, remaining).None?
    ensures Proceed(e, o, remaining) == Outcome(Publish(if remaining > 0 then Rest(e, o, remaining) else e), [])
  {
    assert e.index - Ids([]) == e.index;
  }

  // ----- one engine among the others -----

  predicate ListedTicker(ticker: Ticker) {
    TickerIndex(ticker) < LISTED
  }

  function EngineOf(engines: Engines, ticker: Ticker): Engine {
    if ListedTicker(ticker) then engines[TickerIndex(ticker)] else EMPTY
  }

  function WithEngine(engines: Engines, ticker: Ticker, e: Engine): Engines {
    if ListedTicker(ticker) then engines[TickerIndex(ticker) := e] else engines
  }

  lemma EngineSet(engines: Engines, ticker: Ticker, e: Engine, e': Engine)
    requires ListedTicker(ticker)
    ensures EngineOf(WithEngine(engines, ticker, e), ticker) == e
    ensures WithEngine(WithEngine(engines, ticker, e), ticker, e') == WithEngine(engines, ticker, e')
    ensures WithEngine(engines, ticker, EngineOf(engines, ticker)) == engines
  {
  }

  // ----- where the thread is -----

  /** An add under way: what is unfilled, and the trades whose fills have been applied. */
  datatype Progress = Progress(order: OrderAdd, remaining: int, done: seq<Trade>)

  /** The statement the thread is about to execute. */
  datatype Task =
    | Adding(order: OrderAdd)                         // push the add event
    | Matching(progress: Progress)                    // the two loop conditions
    | Printing(progress: Progress, trade: Trade)      // push the trade event
    | Handing(progress: Progress, trade: Trade)       // push the trade
    | Filling(progress: Progress, trade: Trade)       // apply the fill
    | Resting(progress: Progress)                     // queue the remainder
    | Marking(progress: Progress)                     // store the mid price
    | Cancelling(cancel: OrderCancel)                 // let the router take the cancel
    | Announcing(cancel: OrderCancel)                 // push the cancel event

  function Begin(cmd: Command): Task {
    match cmd
    case Add(o) => Adding(o)
    case Cancel(c) => Cancelling(c)
  }

  predicate IsPush(task: Task) {
    task.Adding? || task.Printing? || task.Handing? || task.Announcing?
  }

  function Pushed(task: Task): Output
    requires IsPush(task)
  {
    match task
    case Adding(o) => ToMarket(AddEvent(o))
    case Printing(_, t) => ToMarket(TradeEvent(t))
    case Handing(_, t) => ToTrades(t)
    case Announcing(c) => ToMarket(CancelEvent(c))
  }

  /** What follows a push; `None` when the command is finished. An unlisted add ends here. */
  function AfterPush(task: Task): Option<Task>
    requires IsPush(task)
  {
    match task
    case Adding(o) => if ListedTicker(o.ticker) then Some(Matching(Progress(o, o.volume, []))) else None
    case Printing(p, t) => Some(Handing(p, t))
    case Handing(p, t) => Some(Filling(p, t))
    case Announcing(_) => None
  }

  /** What follows any other statement, which may change the engines. */
  function AfterWork(engines: Engines, task: Task): (Engines, Option<Task>)
    requires !IsPush(task)
  {
    match task
    case Matching(p) =>
      var next := NextTrade(EngineOf(engines, p.order.ticker), p.order, p.remaining);
      (engines, Some(if next.Some? then Printing(p, next.value)
                     else if p.remaining > 0 then Resting(p) else Marking(p)))
    case Filling(p, t) =>
      var e := FillHead(EngineOf(engines, p.order.ticker), Opposite(p.order.side), t.volume);
      (WithEngine(engines, p.order.ticker, e),
       Some(Matching(Progress(p.order, p.remaining - t.volume, p.done + [t]))))
    case Resting(p) =>
      var e := Rest(EngineOf(engines, p.order.ticker), p.order, p.remaining);
      (WithEngine(engines, p.order.ticker, e), Some(Marking(p)))
    case Marking(p) =>
      (WithEngine(engines, p.order.ticker, Publish(EngineOf(engines, p.order.ticker))), None)
    case Cancelling(c) => (Route(engines, Cancel(c)).engines, Some(Announcing(c)))
  }

  // ----- forward: what is still to come -----

  predicate TaskOk(engines: Engines, task: Task) {
    match task
    case Adding(_) | Cancelling(_) | Announcing(_) => true
    case Matching(p) => ListedTicker(p.order.ticker)
    case Resting(p) => ListedTicker(p.order.ticker) && p.remaining > 0
    case Marking(p) => ListedTicker(p.order.ticker)
    case Printing(p, t) => InHand(engines, p, t)
    case Handing(p, t) => InHand(engines, p, t)
    case Filling(p, t) => InHand(engines, p, t)
  }

  predicate InHand(engines: Engines, p: Progress, t: Trade) {
    ListedTicker(p.order.ticker) && NextTrade(EngineOf(engines, p.order.ticker), p.order, p.remaining) == Some(t)
  }

  /** What a command will still push, and the engines it will leave behind. */
  datatype Ahead = Ahead(outs: seq<Output>, engines: Engines)

  /** From the top of the matching loop. */
  function LoopAhead(engines: Engines, o: OrderAdd, remaining: int): Ahead {
    var rest := Proceed(EngineOf(engines, o.ticker), o, remaining);
    Ahead(Fills(rest.trades), WithEngine(engines, o.ticker, rest.engine))
  }

  /** From behind the fill in hand. */
  function FillAhead(engines: Engines, p: Progress, t: Trade): Ahead {
    var e := FillHead(EngineOf(engines, p.order.ticker), Opposite(p.order.side), t.volume);
    LoopAhead(WithEngine(engines, p.order.ticker, e), p.order, p.remaining - t.volume)
  }

  function Behind(outs: seq<Output>, a: Ahead): Ahead {
    Ahead(outs + a.outs, a.engines)
  }

  function WorkAhead(engines: Engines, task: Task): Ahead {
    match task
    case Adding(o) =>
      Behind([ToMarket(AddEvent(o))],
             if ListedTicker(o.ticker) then LoopAhead(engines, o, o.volume) else Ahead([], engines))
    case Matching(p) => LoopAhead(engines, p.order, p.remaining)
    case Printing(p, t) => Behind([ToMarket(TradeEvent(t)), ToTrades(t)], FillAhead(engines, p, t))
    case Handing(p, t) => Behind([ToTrades(t)], FillAhead(engines, p, t))
    case Filling(p, t) => FillAhead(engines, p, t)
    case Resting(p) =>
      var e := Rest(EngineOf(engines, p.order.ticker), p.order, p.remaining);
      Ahead([], WithEngine(engines, p.order.ticker, Publish(e)))
    case Marking(p) =>
      Ahead([], WithEngine(engines, p.order.ticker, Publish(EngineOf(engines, p.order.ticker))))
    case Cancelling(c) => Ahead([ToMarket(CancelEvent(c))], Route(engines, Cancel(c)).engines)
    case Announcing(c) => Ahead([ToMarket(CancelEvent(c))], engines)
  }

  function AheadOf(engines: Engines, task: Option<Task>): Ahead {
    match task
    case None => Ahead([], engines)
    case Some(t) => WorkAhead(engines, t)
  }

  /** A command as the sequential router takes it is all ahead of its first statement. */
  lemma BeginAhead(engines: Engines, cmd: Command)
    ensures var routed := Route(engines, cmd);
            WorkAhead(engines, Begin(cmd)) == Ahead(Outputs(cmd, routed.trades), routed.engines)
    ensures TaskOk(engines, Begin(cmd))
  {
    match cmd
    case Add(o) => ProceedIsAdd(EngineOf(engines, o.ticker), o);
    case Cancel(_) =>
  }

  /** A push takes its message off the front of what is to come. */
  lemma PushAhead(engines: Engines, task: Task)
    requires IsPush(task) && TaskOk(engines, task)
    ensures WorkAhead(engines, task) == Behind([Pushed(task)], AheadOf(engines, AfterPush(task)))
    ensures AfterPush(task).Some? ==> TaskOk(engines, AfterPush(task).value)
  {
  }

  lemma LoopEntersFill(engines: Engines, p: Progress, t: Trade)
    requires InHand(engines, p, t)
    ensures LoopAhead(engines, p.order, p.remaining)
         == Behind([ToMarket(TradeEvent(t)), ToTrades(t)], FillAhead(engines, p, t))
  {
    var o := p.order;
    var e := EngineOf(engines, o.ticker);
    var e' := FillHead(e, Opposite(o.side), t.volume);
    FillProceeds(e, o, p.remaining);
    var next := Proceed(e', o, p.remaining - t.volume);
    EngineSet(engines, o.ticker, e', next.engine);
    assert ([t] + next.trades)[1..] == next.trades;
  }

  lemma LoopLeaves(engines: Engines, p: Progress)
    requires ListedTicker(p.order.ticker)
    requires NextTrade(EngineOf(engines, p.order.ticker), p.order, p.remaining).None?
    ensures LoopAhead(engines, p.order, p.remaining)
         == WorkAhead(engines, if p.remaining > 0 then Resting(p) else Marking(p))
  {
    NoFillProceeds(EngineOf(engines, p.order.ticker), p.order, p.remaining);
  }

  /** Any other statement leaves what is to come as it was. */
  lemma WorkKeepsAhead(engines: Engines, task: Task)
    requires !IsPush(task) && TaskOk(engines, task)
    ensures var (engines', next) := AfterWork(engines, task);
            && AheadOf(engines', next) == WorkAhead(engines, task)
            && (next.Some? ==> TaskOk(engines', next.value))
  {
    match task
    case Matching(p) =>
      var next := NextTrade(EngineOf(engines, p.order.ticker), p.order, p.remaining);
      if next.Some? {
        LoopEntersFill(engines, p, next.value);
      } else {
        LoopLeaves(engines, p);
      }
    case Resting(p) =>
      var e := Rest(EngineOf(engines, p.order.ticker), p.order, p.remaining);
      EngineSet(engines, p.order.ticker, e, Publish(e));
    case _ =>
  }

  // ----- backward: what has been done -----

  /** The engine with the given fills applied one by one, and nothing else done to it. */
  function Filled(e: Engine, side: Side, fills: seq<Trade>): Engine {
    Fold(FillOf(side), e, fills)
  }

  function FillOf(side: Side): (Engine, Trade) -> Engine {
    (e, t: Trade) => FillHead(e, side, t.volume)
  }

  lemma FilledOneMore(e: Engine, side: Side, fills: seq<Trade>, t: Trade)
    ensures Filled(e, side, fills + [t]) == FillHead(Filled(e, side, fills), side, t.volume)
  {
    FoldOneMore(FillOf(side), e, fills, t);
  }

  function Matched(before: Engines, p: Progress): Engine {
    Filled(EngineOf(before, p.order.ticker), Opposite(p.order.side), p.done)
  }

  /** The running engines in the middle of `cmd`, against those before it: the fills applied so
      far are the only difference, until the remainder is queued and the mid is stored. */
  predicate SoFar(before: Engines, engines: Engines, task: Task, cmd: Command) {
    match task
    case Adding(o) => cmd == Add(o) && engines == before
    case Cancelling(c) => cmd == Cancel(c) && engines == before
    case Announcing(c) => cmd == Cancel(c) && engines == Route(before, cmd).engines
    case Matching(p) => FilledSoFar(before, engines, p, cmd)
    case Printing(p, _) => FilledSoFar(before, engines, p, cmd)
    case Handing(p, _) => FilledSoFar(before, engines, p, cmd)
    case Filling(p, _) => FilledSoFar(before, engines, p, cmd)
    case Resting(p) => FilledSoFar(before, engines, p, cmd)
    case Marking(p) =>
      && cmd == Add(p.order) && p.remaining == p.order.volume - TradedVolume(p.done)
      && engines == WithEngine(before, p.order.ticker,
                               if p.remaining > 0 then Rest(Matched(before, p), p.order, p.remaining)
                               else Matched(before, p))
  }

  predicate FilledSoFar(before: Engines, engines: Engines, p: Progress, cmd: Command) {
    && cmd == Add(p.order) && p.remaining == p.order.volume - TradedVolume(p.done)
    && engines == WithEngine(before, p.order.ticker, Matched(before, p))
  }

  /** What the command has pushed. */
  function Sent(task: Task): seq<Output> {
    match task
    case Adding(_) | Cancelling(_) | Announcing(_) => []
    case Matching(p) => SentFills(p)
    case Printing(p, _) => SentFills(p)
    case Handing(p, t) => SentFills(p) + [ToMarket(TradeEvent(t))]
    case Filling(p, t) => SentFills(p) + [ToMarket(TradeEvent(t)), ToTrades(t)]
    case Resting(p) => SentFills(p)
    case Marking(p) => SentFills(p)
  }

  function SentFills(p: Progress): seq<Output> {
    [ToMarket(AddEvent(p.order))] + Fills(p.done)
  }

  lemma PushSent(task: Task)
    requires IsPush(task) && AfterPush(task).Some?
    ensures Sent(AfterPush(task).value) == Sent(task) + [Pushed(task)]
  {
  }

  lemma PushSoFar(before: Engines, engines: Engines, task: Task, cmd: Command)
    requires IsPush(task) && AfterPush(task).Some? && SoFar(before, engines, task, cmd)
    ensures SoFar(before, engines, AfterPush(task).value, cmd)
  {
    if task.Adding? && ListedTicker(task.order.ticker) {
      EngineSet(before, task.order.ticker, EMPTY, EMPTY);
    }
  }

  lemma {:induction false} TradedOneMore(ts: seq<Trade>, t: Trade)
    ensures TradedVolume(ts + [t]) == TradedVolume(ts) + t.volume
  {
    if ts == [] {
      assert [t][1..] == [];
    } else {
      TradedOneMore(ts[1..], t);
      assert (ts + [t])[1..] == ts[1..] + [t];
    }
  }

  lemma FillSoFar(before: Engines, engines: Engines, p: Progress, t: Trade, cmd: Command)
    requires ListedTicker(p.order.ticker) && FilledSoFar(before, engines, p, cmd)
    ensures var (engines', next) := AfterWork(engines, Filling(p, t));
            SoFar(before, engines', next.value, cmd) && Sent(next.value) == Sent(Filling(p, t))
  {
    var o, opp := p.order, Opposite(p.order.side);
    var e := EngineOf(before, o.ticker);
    TradedOneMore(p.done, t);
    FilledOneMore(e, opp, p.done, t);
    FillsOneMore(p.done, t);
    EngineSet(before, o.ticker, Filled(e, opp, p.done), Filled(e, opp, p.done + [t]));
  }

  lemma WorkSoFar(before: Engines, engines: Engines, task: Task, cmd: Command)
    requires !IsPush(task) && TaskOk(engines, task) && SoFar(before, engines, task, cmd)
    ensures var (engines', next) := AfterWork(engines, task);
            next.Some? ==> SoFar(before, engines', next.value, cmd) && Sent(next.value) == Sent(task)
  {
    match task
    case Filling(p, t) => FillSoFar(before, engines, p, t, cmd);
    case Resting(p) =>
      var e := Matched(before, p);
      EngineSet(before, p.order.ticker, e, Rest(e, p.order, p.remaining));
    case _ =>
  }

  /** All fills of an add, one by one, are its match. */
  lemma AllFilled(e: Engine, o: OrderAdd)
    ensures Filled(e, Opposite(o.side), Sweep(QuotesOf(e, Opposite(o.side)), o, o.volume).trades) == AfterMatch(e, o)
  {
    FilledFrom(e, Opposite(o.side), o, o.volume);
  }

  /** The engine a sweep of one side leaves, matters of price and mid aside. */
  function SweptEngine(e: Engine, side: Side, s: Swept): Engine {
    WithQuotes(e, side, s.left).(index := e.index - Ids(s.filled))
  }

  lemma SweptNothing(e: Engine, side: Side, remaining: int)
    ensures SweptEngine(e, side, Swept(QuotesOf(e, side), [], remaining, [])) == e
  {
    assert e.index - Ids([]) == e.index;
  }

  lemma SweptPart(e: Engine, side: Side, o: OrderAdd, remaining: int)
    requires var q := QuotesOf(e, side); q != [] && Crosses(o, q[0].price) && 0 < remaining < q[0].volume
    ensures SweptEngine(e, side, Sweep(QuotesOf(e, side), o, remaining)) == FillHead(e, side, remaining)
    ensures Sweep(QuotesOf(e, side), o, remaining).trades == [Execute(o, QuotesOf(e, side)[0], remaining)]
  {
    assert e.index - Ids([]) == e.index;
  }

  lemma SweptFirst(e: Engine, side: Side, o: OrderAdd, remaining: int)
    requires var q := QuotesOf(e, side); q != [] && Crosses(o, q[0].price) && 0 < remaining && q[0].volume <= remaining
    ensures var q := QuotesOf(e, side);
            var e', rest := FillHead(e, side, q[0].volume), Sweep(q[1..], o, remaining - q[0].volume);
            && QuotesOf(e', side) == q[1..]
            && SweptEngine(e, side, Sweep(q, o, remaining)) == SweptEngine(e', side, rest)
            && Sweep(q, o, remaining).trades == [Execute(o, q[0], q[0].volume)] + rest.trades
  {
    var q := QuotesOf(e, side);
    ErasedFirst(e.index, q[0].orderId, Sweep(q[1..], o, remaining - q[0].volume).filled);
  }

  predicate FillsAreSweep(e: Engine, side: Side, o: OrderAdd, remaining: int) {
    var s := Sweep(QuotesOf(e, side), o, remaining);
    Filled(e, side, s.trades) == SweptEngine(e, side, s)
  }

  lemma FullFillFirst(e: Engine, side: Side, o: OrderAdd, remaining: int)
    requires var q := QuotesOf(e, side); q != [] && Crosses(o, q[0].price) && 0 < remaining && q[0].volume <= remaining
    requires var v := QuotesOf(e, side)[0].volume; FillsAreSweep(FillHead(e, side, v), side, o, remaining - v)
    ensures FillsAreSweep(e, side, o, remaining)
  {
    var q := QuotesOf(e, side);
    SweptFirst(e, side, o, remaining);
    FilledFirst(e, side, Execute(o, q[0], q[0].volume), Sweep(q[1..], o, remaining - q[0].volume).trades);
  }

  lemma {:induction false} FilledFrom(e: Engine, side: Side, o: OrderAdd, remaining: int)
    ensures FillsAreSweep(e, side, o, remaining)
    decreases |QuotesOf(e, side)|
  {
    var q := QuotesOf(e, side);
    if remaining <= 0 || q == [] || !Crosses(o, q[0].price) {
      SweptNothing(e, side, remaining);
    } else if remaining < q[0].volume {
      SweptPart(e, side, o, remaining);
      FilledOnce(e, side, Execute(o, q[0], remaining));
    } else {
      FilledFrom(FillHead(e, side, q[0].volume), side, o, remaining - q[0].volume);
      FullFillFirst(e, side, o, remaining);
    }
  }

  lemma FilledOnce(e: Engine, side: Side, t: Trade)
    ensures Filled(e, side, [t]) == FillHead(e, side, t.volume)
  {
    FoldOneMore(FillOf(side), e, [], t);
    assert [] + [t] == [t];
  }

  lemma FilledFirst(e: Engine, side: Side, t: Trade, rest: seq<Trade>)
    ensures Filled(e, side, [t] + rest) == Filled(FillHead(e, side, t.volume), side, rest)
  {
    FoldFirst(FillOf(side), e, t, rest);
  }

  // ----- how much is left to do -----

  /** Statements still to execute, the one that ends the command included. */
  function StepsLeft(engines: Engines, task: Task): nat {
    match task
    case Adding(o) => if ListedTicker(o.ticker) then LoopSteps(engines, o, o.volume) + 1 else 1
    case Matching(p) => LoopSteps(engines, p.order, p.remaining)
    case Printing(p, _) => LoopSteps(engines, p.order, p.remaining) - 1
    case Handing(p, _) => LoopSteps(engines, p.order, p.remaining) - 2
    case Filling(p, _) => LoopSteps(engines, p.order, p.remaining) - 3
    case Resting(_) => 2
    case Marking(_) => 1
    case Cancelling(_) => 2
    case Announcing(_) => 1
  }

  function LoopSteps(engines: Engines, o: OrderAdd, remaining: int): nat
    ensures LoopSteps(engines, o, remaining) >= 4
  {
    4 + 4 * |Proceed(EngineOf(engines, o.ticker), o, remaining).trades|
  }

  lemma FillLessToDo(engines: Engines, p: Progress, t: Trade)
    requires InHand(engines, p, t)
    ensures var (engines', next) := AfterWork(engines, Filling(p, t));
            StepsLeft(engines', next.value) < StepsLeft(engines, Filling(p, t))
  {
    var o := p.order;
    var e' := FillHead(EngineOf(engines, o.ticker), Opposite(o.side), t.volume);
    FillProceeds(EngineOf(engines, o.ticker), o, p.remaining);
    EngineSet(engines, o.ticker, e', e');
  }

  lemma WorkLessToDo(engines: Engines, task: Task)
    requires !IsPush(task) && TaskOk(engines, task)
    ensures var (engines', next) := AfterWork(engines, task);
            next.Some? ==> StepsLeft(engines', next.value) < StepsLeft(engines, task)
  {
    if task.Filling? {
      FillLessToDo(engines, task.progress, task.trade);
    }
  }

  lemma PushLessToDo(engines: Engines, task: Task)
    requires IsPush(task)
    ensures AfterPush(task).Some? ==> StepsLeft(engines, AfterPush(task).value) < StepsLeft(engines, task)
  {
  }
}
