/** One engine per listed instrument, as values: what routing a command does, and what a
    multi-instrument run looks like from one ticker's point of view. */
module RouterModel {
  import opened Types
  import opened Quotes
  import opened EngineModel
  import opened Runs

  const LISTED: nat := |INSTRUMENTS|

  /** First position of `ticker` in `list`, or `|list|`. */
  function Position(list: seq<Ticker>, ticker: Ticker): (i: nat)
    ensures i <= |list|
    ensures i < |list| ==> list[i] == ticker
    ensures forall j :: 0 <= j < i ==> list[j] != ticker
  {
    if list == [] || list[0] == ticker then 0 else 1 + Position(list[1..], ticker)
  }

  function TickerIndex(ticker: Ticker): nat {
    Position(INSTRUMENTS, ticker)
  }

  /** Listed tickers are pairwise different, so each has its own engine. */
  lemma TickerIndexOfListed(i: nat)
    requires i < LISTED
    ensures TickerIndex(INSTRUMENTS[i]) == i
  {
    assert INSTRUMENTS[0][0] == 'A' && INSTRUMENTS[0][1] == 'A';
    assert INSTRUMENTS[1][0] == 'G' && INSTRUMENTS[2][0] == 'M';
    assert INSTRUMENTS[3][0] == 'A' && INSTRUMENTS[3][1] == 'M';
  }

  /** There are four of them, and no other ticker has an engine. */
  lemma FourInstruments(ticker: Ticker)
    ensures TickerIndex(ticker) == if ticker == "AAPL" then 0 else if ticker == "GOOG" then 1
                                   else if ticker == "MSFT" then 2 else if ticker == "AMZN" then 3 else LISTED
    ensures LISTED == 4
  {
    TickerIndexOfListed(0);
    TickerIndexOfListed(1);
    TickerIndexOfListed(2);
    TickerIndexOfListed(3);
  }

  function TickerOf(cmd: Command): Ticker {
    match cmd
    case Add(o) => o.ticker
    case Cancel(c) => c.ticker
  }

  type Engines = s: seq<Engine> | |s| == LISTED witness [EMPTY, EMPTY, EMPTY, EMPTY]

  const ALL_EMPTY: Engines := [EMPTY, EMPTY, EMPTY, EMPTY]

  datatype Routed = Routed(engines: Engines, trades: seq<Trade>)

  /** Commands for unlisted tickers are dropped. */
  function Route(engines: Engines, cmd: Command): Routed {
    var i := TickerIndex(TickerOf(cmd));
    if i < LISTED then
      var step := Apply(engines[i], cmd);
      Routed(engines[i := step.engine], step.trades)
    else Routed(engines, [])
  }

  function RunRouter(cmds: seq<Command>): Routed {
    if cmds == [] then Routed(ALL_EMPTY, [])
    else
      var before := RunRouter(cmds[..|cmds| - 1]);
      var step := Route(before.engines, cmds[|cmds| - 1]);
      Routed(step.engines, before.trades + step.trades)
  }

  lemma RunOneMore(cmds: seq<Command>, k: nat)
    requires k < |cmds|
    ensures var before, cmd := RunRouter(cmds[..k]), cmds[k];
            && RunRouter(cmds[..k + 1]).engines == Route(before.engines, cmd).engines
            && RunRouter(cmds[..k + 1]).trades == before.trades + Route(before.engines, cmd).trades
  {
    assert cmds[..k + 1][..k] == cmds[..k];
  }

  // ----- projection to one ticker -----

  function CommandsOf(cmds: seq<Command>, ticker: Ticker): seq<Command> {
    if cmds == [] then []
    else
      var before := CommandsOf(cmds[..|cmds| - 1], ticker);
      if TickerOf(cmds[|cmds| - 1]) == ticker then before + [cmds[|cmds| - 1]] else before
  }

  function TradesOf(ts: seq<Trade>, ticker: Ticker): seq<Trade> {
    if ts == [] then []
    else if ts[0].ticker == ticker then [ts[0]] + TradesOf(ts[1..], ticker)
    else TradesOf(ts[1..], ticker)
  }

  lemma {:induction false} TradesOfConcat(a: seq<Trade>, b: seq<Trade>, ticker: Ticker)
    ensures TradesOf(a + b, ticker) == TradesOf(a, ticker) + TradesOf(b, ticker)
  {
    if a == [] {
      assert a + b == b;
    } else {
      TradesOfConcat(a[1..], b, ticker);
      assert (a + b)[1..] == a[1..] + b;
    }
  }

  predicate AllOn(ts: seq<Trade>, ticker: Ticker) {
    forall i :: 0 <= i < |ts| ==> ts[i].ticker == ticker
  }

  lemma {:induction false} TradesOfUniform(ts: seq<Trade>, own: Ticker, ticker: Ticker)
    requires AllOn(ts, own)
    ensures TradesOf(ts, ticker) == if own == ticker then ts else []
  {
    if ts == [] {
    } else {
      TradesOfUniform(ts[1..], own, ticker);
    }
  }

  /** A step prints trades on the command's own ticker only. */
  lemma {:induction false} SweepTicker(q: seq<Quote>, o: OrderAdd, remaining: int)
    ensures AllOn(Sweep(q, o, remaining).trades, o.ticker)
  {
    if !(remaining <= 0 || q == [] || !Crosses(o, q[0].price)) && remaining >= q[0].volume {
      SweepTicker(q[1..], o, remaining - q[0].volume);
    }
  }

  lemma RouteTicker(engines: Engines, cmd: Command)
    ensures AllOn(Route(engines, cmd).trades, TickerOf(cmd))
  {
    var i := TickerIndex(TickerOf(cmd));
    if i < LISTED && cmd.Add? {
      SweepTicker(QuotesOf(engines[i], Opposite(cmd.order.side)), cmd.order, cmd.order.volume);
    }
  }

  /** Instruments do not interfere: whatever commands for other or unlisted tickers are mixed
      in, and even if order ids repeat across tickers, one listed ticker's book, index, mid and
      trades are those of a lone engine fed only its own commands. */
  lemma {:induction false} ProjectionIsStandalone(cmds: seq<Command>, i: nat)
    requires i < LISTED
    ensures RunRouter(cmds).engines[i] == Run(CommandsOf(cmds, INSTRUMENTS[i])).engine
    ensures TradesOf(RunRouter(cmds).trades, INSTRUMENTS[i]) == Run(CommandsOf(cmds, INSTRUMENTS[i])).trades
  {
    if cmds == [] {
      assert RunRouter(cmds).engines[i] == EMPTY;
    } else {
      var ticker := INSTRUMENTS[i];
      var init, cmd := cmds[..|cmds| - 1], cmds[|cmds| - 1];
      var before := RunRouter(init);
      ProjectionIsStandalone(init, i);
      TickerIndexOfListed(i);
      RouteTicker(before.engines, cmd);
      var step := Route(before.engines, cmd);
      TradesOfConcat(before.trades, step.trades, ticker);
      TradesOfUniform(step.trades, TickerOf(cmd), ticker);
      var own := CommandsOf(cmds, ticker);
      if TickerOf(cmd) == ticker {
        assert own[..|own| - 1] == CommandsOf(init, ticker);
      }
    }
  }

  /** Hence every engine of every router run is well formed. */
  lemma RouterWellFormed(cmds: seq<Command>, i: nat)
    requires i < LISTED
    ensures WellFormed(RunRouter(cmds).engines[i])
  {
    ProjectionIsStandalone(cmds, i);
    RunWellFormed(CommandsOf(cmds, INSTRUMENTS[i]));
  }

  // ----- every trade the router prints can be settled -----

  predicate UsersKnown(cmds: seq<Command>, n: nat) {
    forall k :: 0 <= k < |cmds| && cmds[k].Add? ==> UserIn(cmds[k].order.userId, n)
  }

  predicate SettleableAmong(t: Trade, n: nat) {
    t.volume > 0 && UserIn(t.makerId, n) && UserIn(t.takerId, n) && TickerIndex(t.ticker) < LISTED
  }

  /** If adds come from the `n` known users, every trade is a positive fill of a listed ticker
      between two of them, so settlement never divides by zero nor looks up a stranger. */
  lemma {:induction false} RouterTradesSettleable(cmds: seq<Command>, n: nat)
    requires UsersKnown(cmds, n)
    ensures forall i :: 0 <= i < LISTED ==> OwnedBy(RunRouter(cmds).engines[i], n)
    ensures forall t :: t in RunRouter(cmds).trades ==> SettleableAmong(t, n)
  {
    if cmds == [] {
    } else {
      var init, cmd := cmds[..|cmds| - 1], cmds[|cmds| - 1];
      RouterTradesSettleable(init, n);
      var i := TickerIndex(TickerOf(cmd));
      if i < LISTED {
        RouterWellFormed(init, i);
        StepSettleable(RunRouter(init).engines[i], cmd, n);
      }
    }
  }
}
