/** The registry at every moment of every interleaving: how far it is from balance, and which mid
    prices it was marked with. */
module InterleavedAccounts {
  import opened Types
  import opened EngineModel
  import opened RouterModel
  import opened AccountsModel
  import opened Ledger
  import opened MatcherTask
  import opened Settlement
  import opened Pipeline
  import opened PipelineFlow
  import opened Interleavings

  // ----- balance -----

  /** A trade in hand was printed by the router, so it can be settled. */
  lemma HeldTradeSettles(s: State)
    requires Inv(s) && s.inventory.Working?
    ensures Settles(s.inventory.item.trade, USERS)
    ensures |s.settled| < |RunRouter(s.consumed).trades|
    ensures RunRouter(s.consumed).trades[|s.settled|] == s.inventory.item.trade
  {
    var ts, t := RunRouter(s.consumed).trades, s.inventory.item.trade;
    assert HeldTrade(s.inventory) == [t];
    assert s.trades.pushed[|s.settled|] == t;
    assert ts[|s.settled|] == t;
    assert forall k :: 0 <= k < |s.consumed| ==> s.consumed[k] == s.inbound.pushed[k];
    RouterTradesSettleable(s.consumed, USERS);
    assert t in ts;
  }

  /** The maker of the trade in hand has been filled in this ticker, the taker has not. */
  predicate BetweenFills(s: State, ticker: Ticker) {
    s.inventory.Working? && s.inventory.item.FillTaker? && s.inventory.item.trade.ticker == ticker
  }

  function MakersFill(t: Trade): int {
    if t.takerSide.Buy? then -t.volume else t.volume
  }

  /** Shares and cash of a fill whose counterpart is still to come. */
  function InTransit(s: State, ticker: Ticker): (int, real) {
    if BetweenFills(s, ticker)
    then var t := s.inventory.item.trade;
         (MakersFill(t), -Cost(MakersFill(t), ToUsd(t.executionPrice)))
    else (0, 0.0)
  }

  lemma TotalsIn(s: State, ticker: Ticker)
    requires Inv(s)
    ensures TotalPosition(s.accounts, ticker) == InTransit(s, ticker).0
    ensures TotalCash(s.accounts, ticker) == InTransit(s, ticker).1
  {
    TotalsStayZero(USERS, s.settled, s.mids, ticker);
    if s.inventory.Working? {
      HeldTradeSettles(s);
      ReachedTotals(SettleAll(USERS, s.settled, s.mids), s.inventory.item, ticker);
    }
  }

  lemma ValueOfFill(accounts: AccountsModel.Accounts, ticker: Ticker, shares: int, price: real, mark: real)
    requires TotalPosition(accounts, ticker) == shares && TotalCash(accounts, ticker) == -Cost(shares, price)
    ensures TotalNet(accounts, ticker, mark) == shares as real * (mark - price)
  {
    TotalNetIsCashPlusMark(accounts, ticker, mark);
    MarkedFill(shares as real, price, mark);
  }

  lemma MarkedFill(shares: real, price: real, mark: real)
    ensures -(shares * price) + shares * mark == shares * (mark - price)
  {
  }

  /** Zero, or between the fills the maker's fill and what it is worth at `mark`. */
  predicate Accounted(s: State, ticker: Ticker, mark: real) {
    if BetweenFills(s, ticker) then
      var t := s.inventory.item.trade;
      && TotalPosition(s.accounts, ticker) == MakersFill(t)
      && TotalNet(s.accounts, ticker, mark) == MakersFill(t) as real * (mark - t.executionPrice as real / 1000000.0)
    else
      TotalPosition(s.accounts, ticker) == 0 && TotalNet(s.accounts, ticker, mark) == 0.0
  }

  lemma AccountedFrom(s: State, ticker: Ticker, mark: real)
    requires TotalPosition(s.accounts, ticker) == InTransit(s, ticker).0
    requires TotalCash(s.accounts, ticker) == InTransit(s, ticker).1
    ensures Accounted(s, ticker, mark)
  {
    if BetweenFills(s, ticker) {
      var t := s.inventory.item.trade;
      ValueOfFill(s.accounts, ticker, MakersFill(t), ToUsd(t.executionPrice), mark);
    } else {
      ValueOfFill(s.accounts, ticker, 0, 0.0, mark);
    }
  }

  /** At every moment positions in a ticker, and total P&L in it at any mark, sum to zero over all
      users, except between the two fills of a trade in that ticker, when they sum to exactly the
      maker's fill and its value. */
  lemma TotalsAlways(actions: seq<Action>, ticker: Ticker, mark: real)
    requires CanRun(START, actions)
    ensures Accounted(After(START, actions), ticker, mark)
  {
    Reachable(actions);
    TotalsIn(After(START, actions), ticker);
    AccountedFrom(After(START, actions), ticker, mark);
  }

  // ----- which mid a trade is marked with -----

  /** `mid` was the ticker's after the first `j` commands, and trade `k` is printed by one of the
      first `j + 1`: so the mid was still current when that trade's command began, or came later. */
  predicate MidAt(cmds: seq<Command>, j: nat, k: nat, ticker: Ticker, mid: Option<Price>) {
    && j <= |cmds| && k < |RunRouter(cmds[..Min(j + 1, |cmds|)]).trades|
    && mid == if TickerIndex(ticker) < LISTED then RunRouter(cmds[..j]).engines[TickerIndex(ticker)].mid else None
  }

  ghost predicate MidFor(cmds: seq<Command>, k: nat, ticker: Ticker, mid: Option<Price>) {
    exists j: nat :: MidAt(cmds, j, k, ticker, mid)
  }

  lemma MidAtLonger(cmds: seq<Command>, cmd: Command, j: nat, k: nat, ticker: Ticker, mid: Option<Price>)
    requires MidAt(cmds, j, k, ticker, mid)
    ensures MidAt(cmds + [cmd], j, k, ticker, mid)
  {
    var more := cmds + [cmd];
    assert more[..j] == cmds[..j];
    if j < |cmds| {
      assert more[..j + 1] == cmds[..j + 1];
    } else {
      assert more[..j + 1] == more && cmds[..j] == cmds;
      LongerRunMoreTrades(cmds, more);
    }
  }

  lemma MidForLonger(cmds: seq<Command>, cmd: Command, k: nat, ticker: Ticker, mid: Option<Price>)
    requires MidFor(cmds, k, ticker, mid)
    ensures MidFor(cmds + [cmd], k, ticker, mid)
  {
    var j: nat :| MidAt(cmds, j, k, ticker, mid);
    MidAtLonger(cmds, cmd, j, k, ticker, mid);
  }

  lemma {:induction false} FillKeepsMid(e: Engine, side: Side, fills: seq<Trade>)
    ensures Filled(e, side, fills).mid == e.mid
  {
    if fills == [] {
    } else {
      var init, last := fills[..|fills| - 1], fills[|fills| - 1];
      FillKeepsMid(e, side, init);
      FilledOneMore(e, side, init, last);
      assert init + [last] == fills;
    }
  }

  lemma EngineKeepsMid(engines: Engines, ticker: Ticker, e: Engine, other: Ticker)
    requires e.mid == EngineOf(engines, ticker).mid
    ensures MidOf(WithEngine(engines, ticker, e), other) == MidOf(engines, other)
  {
  }

  /** In the middle of a command the mids are those before it; a cancel is taken all at once. */
  lemma MidUnderWay(before: Engines, engines: Engines, task: Task, cmd: Command, ticker: Ticker)
    requires SoFar(before, engines, task, cmd)
    ensures MidOf(engines, ticker) == MidOf(before, ticker) || engines == Route(before, cmd).engines
  {
    if task.Matching? || task.Printing? || task.Handing? || task.Filling? || task.Resting? || task.Marking? {
      var p := task.progress;
      var e := EngineOf(before, p.order.ticker);
      FillKeepsMid(e, Opposite(p.order.side), p.done);
      EngineKeepsMid(before, p.order.ticker, Matched(before, p), ticker);
      EngineKeepsMid(before, p.order.ticker, Rest(Matched(before, p), p.order, p.remaining), ticker);
    }
  }

  /** The mid a read returns is that of the commands completed, the one in hand counted or not. */
  lemma RunningMid(s: State, ticker: Ticker) returns (j: nat)
    requires RouterInv(s)
    ensures |s.consumed| - 1 <= j <= |s.consumed|
    ensures MidOf(s.router, ticker) == MidOf(RunRouter(s.consumed[..j]).engines, ticker)
  {
    var n := |s.consumed|;
    j := n;
    assert s.consumed[..n] == s.consumed;
    if s.matcher.Working? {
      var before, cmd := RunRouter(s.consumed[..n - 1]).engines, s.consumed[n - 1];
      MidUnderWay(before, s.router, s.matcher.item, cmd, ticker);
      if MidOf(s.router, ticker) == MidOf(before, ticker) {
        j := n - 1;
      }
    }
  }

  lemma ReadMidFor(s: State)
    requires Inv(s) && s.inventory.Working?
    ensures var t := s.inventory.item.trade;
            MidFor(s.consumed, |s.settled|, t.ticker, MidOf(s.router, t.ticker))
  {
    var t := s.inventory.item.trade;
    HeldTradeSettles(s);
    var j := RunningMid(s, t.ticker);
    assert s.consumed[..|s.consumed|] == s.consumed;
    assert MidAt(s.consumed, j, |s.settled|, t.ticker, MidOf(s.router, t.ticker));
  }

  ghost predicate SettledMids(consumed: seq<Command>, settled: seq<Trade>, mids: seq<Option<Price>>) {
    && |mids| == |settled|
    && (settled == []
        || var n := |settled| - 1;
           SettledMids(consumed, settled[..n], mids[..n]) && MidFor(consumed, n, settled[n].ticker, mids[n]))
  }

  lemma {:induction false} SettledMid(consumed: seq<Command>, settled: seq<Trade>, mids: seq<Option<Price>>, k: nat)
    requires SettledMids(consumed, settled, mids) && k < |settled|
    ensures MidFor(consumed, k, settled[k].ticker, mids[k])
  {
    var n := |settled| - 1;
    if k == n {
    } else {
      SettledMid(consumed, settled[..n], mids[..n], k);
    }
  }

  lemma {:induction false} SettledMidsLonger(consumed: seq<Command>, cmd: Command, settled: seq<Trade>,
                                             mids: seq<Option<Price>>)
    requires SettledMids(consumed, settled, mids)
    ensures SettledMids(consumed + [cmd], settled, mids)
  {
    if settled == [] {
    } else {
      var n := |settled| - 1;
      SettledMidsLonger(consumed, cmd, settled[..n], mids[..n]);
      MidForLonger(consumed, cmd, n, settled[n].ticker, mids[n]);
    }
  }

  ghost predicate HeldMid(consumed: seq<Command>, k: nat, inventory: Consumer<Stage>) {
    inventory.Working? && (inventory.item.MarkMaker? || inventory.item.MarkTaker?) ==>
      MidFor(consumed, k, inventory.item.trade.ticker, Some(inventory.item.mid))
  }

  ghost predicate MidsInv(s: State) {
    SettledMids(s.consumed, s.settled, s.mids) && HeldMid(s.consumed, |s.settled|, s.inventory)
  }

  lemma TakeMids(s: State)
    requires MatcherCan(s, Take) && MidsInv(s)
    ensures MidsInv(MatcherDo(s, Take))
  {
    var cmd := s.inbound.queue[0];
    SettledMidsLonger(s.consumed, cmd, s.settled, s.mids);
    if s.inventory.Working? && (s.inventory.item.MarkMaker? || s.inventory.item.MarkTaker?) {
      MidForLonger(s.consumed, cmd, |s.settled|, s.inventory.item.trade.ticker, Some(s.inventory.item.mid));
    }
  }

  lemma OneMoreMid(consumed: seq<Command>, settled: seq<Trade>, mids: seq<Option<Price>>, t: Trade, mid: Option<Price>)
    requires SettledMids(consumed, settled, mids) && MidFor(consumed, |settled|, t.ticker, mid)
    ensures SettledMids(consumed, settled + [t], mids + [mid])
  {
    assert (settled + [t])[..|settled|] == settled && (mids + [mid])[..|mids|] == mids;
  }

  /** The mid a stage carries, or is about to read, is fresh. */
  lemma StageMids(consumed: seq<Command>, settled: seq<Trade>, mids: seq<Option<Price>>, stage: Stage,
                  now: Option<Price>)
    requires SettledMids(consumed, settled, mids) && HeldMid(consumed, |settled|, Working(stage))
    requires MidFor(consumed, |settled|, stage.trade.ticker, now)
    ensures var next := StageNext(stage, now);
            && (next.Some? ==> HeldMid(consumed, |settled|, Working(next.value)))
            && (next.None? ==> SettledMids(consumed, settled + [stage.trade], mids + [MidUsed(stage)]))
  {
    if StageNext(stage, now).None? {
      OneMoreMid(consumed, settled, mids, stage.trade, MidUsed(stage));
    }
  }

  lemma WorkMids(s: State)
    requires InventoryCan(s, Work) && Inv(s) && MidsInv(s)
    ensures MidsInv(InventoryDo(s, Work))
  {
    ReadMidFor(s);
    StageMids(s.consumed, s.settled, s.mids, s.inventory.item, MidOf(s.router, s.inventory.item.trade.ticker));
  }

  lemma SameMids(s: State, s': State)
    requires MidsInv(s) && s'.consumed == s.consumed && s'.settled == s.settled && s'.mids == s.mids
    requires s'.inventory == s.inventory || !s'.inventory.Working? || s'.inventory.item.FillMaker?
    ensures MidsInv(s')
  {
  }

  lemma MatcherMids(s: State, step: Step)
    requires MatcherCan(s, step) && MidsInv(s)
    ensures MidsInv(MatcherDo(s, step))
  {
    if step.Take? { TakeMids(s); } else { SameMids(s, MatcherDo(s, step)); }
  }

  lemma InventoryMids(s: State, step: Step)
    requires InventoryCan(s, step) && Inv(s) && MidsInv(s)
    ensures MidsInv(InventoryDo(s, step))
  {
    if step.Work? { WorkMids(s); } else { SameMids(s, InventoryDo(s, step)); }
  }

  lemma OthersFrame(s: State, a: Action)
    requires Enabled(s, a) && !a.Matcher? && !a.Inventory?
    ensures var s' := Do(s, a);
            s'.consumed == s.consumed && s'.settled == s.settled && s'.mids == s.mids && s'.inventory == s.inventory
  {
  }

  lemma OtherMids(s: State, a: Action)
    requires Enabled(s, a) && !a.Matcher? && !a.Inventory? && MidsInv(s)
    ensures MidsInv(Do(s, a))
  {
    OthersFrame(s, a);
    SameMids(s, Do(s, a));
  }

  lemma MidsStep(s: State, a: Action)
    requires Enabled(s, a) && Inv(s) && MidsInv(s)
    ensures MidsInv(Do(s, a))
  {
    match a
    case Matcher(step) => MatcherMids(s, step);
    case Inventory(step) => InventoryMids(s, step);
    case _ => OtherMids(s, a);
  }

  lemma {:induction false} MidsRun(s: State, actions: seq<Action>)
    requires Inv(s) && MidsInv(s) && CanRun(s, actions)
    ensures MidsInv(After(s, actions))
    decreases |actions|
  {
    if actions == [] {
    } else {
      StepInv(s, actions[0]);
      MidsStep(s, actions[0]);
      MidsRun(Do(s, actions[0]), actions[1..]);
    }
  }

  // ----- every trade is marked -----

  lemma MidNeverLost(e: Engine, cmd: Command)
    requires e.mid.Some?
    ensures Apply(e, cmd).engine.mid.Some?
  {
  }

  lemma RouteKeepsMids(engines: Engines, cmd: Command, ticker: Ticker)
    requires MidOf(engines, ticker).Some?
    ensures MidOf(Route(engines, cmd).engines, ticker).Some?
  {
    var i := TickerIndex(TickerOf(cmd));
    if i < LISTED && i == TickerIndex(ticker) {
      MidNeverLost(engines[i], cmd);
    }
  }

  lemma TradeNeedsMid(engines: Engines, cmd: Command, t: Trade)
    requires forall i :: 0 <= i < LISTED ==> WellFormed(engines[i])
    requires t in Route(engines, cmd).trades
    ensures MidOf(engines, t.ticker).Some?
  {
    RouteTicker(engines, cmd);
    var i := TickerIndex(TickerOf(cmd));
    var e := engines[i];
    assert t.ticker == TickerOf(cmd);
    assert QuotesOf(e, Opposite(cmd.order.side)) != [];
    assert MidCurrent(e);
  }

  /** Once a trade has been printed its ticker had a mid before the last command. */
  lemma {:induction false} PrintedMeansMid(cmds: seq<Command>, k: nat)
    requires cmds != [] && k < |RunRouter(cmds).trades|
    ensures MidOf(RunRouter(cmds[..|cmds| - 1]).engines, RunRouter(cmds).trades[k].ticker).Some?
  {
    var init, cmd := cmds[..|cmds| - 1], cmds[|cmds| - 1];
    var before := RunRouter(init);
    var t := RunRouter(cmds).trades[k];
    if k < |before.trades| {
      PrintedMeansMid(init, k);
      RouteKeepsMids(RunRouter(init[..|init| - 1]).engines, init[|init| - 1], t.ticker);
    } else {
      forall i | 0 <= i < LISTED ensures WellFormed(before.engines[i]) {
        RouterWellFormed(init, i);
      }
      assert t == Route(before.engines, cmd).trades[k - |before.trades|];
      TradeNeedsMid(before.engines, cmd, t);
    }
  }

  lemma MidBeforeLast(cmds: seq<Command>, m: nat, k: nat, ticker: Ticker)
    requires 0 < m <= |cmds| && k < |RunRouter(cmds[..m]).trades|
    requires k < |RunRouter(cmds).trades| && RunRouter(cmds).trades[k].ticker == ticker
    ensures MidOf(RunRouter(cmds[..m - 1]).engines, ticker).Some?
  {
    LongerRunMoreTrades(cmds[..m], cmds);
    PrintedMeansMid(cmds[..m], k);
    assert cmds[..m][..m - 1] == cmds[..m - 1];
  }

  lemma MidStays(cmds: seq<Command>, m: nat, ticker: Ticker)
    requires 0 < m <= |cmds| && MidOf(RunRouter(cmds[..m - 1]).engines, ticker).Some?
    ensures MidOf(RunRouter(cmds[..m]).engines, ticker).Some?
  {
    RunOneMore(cmds, m - 1);
    RouteKeepsMids(RunRouter(cmds[..m - 1]).engines, cmds[m - 1], ticker);
  }

  lemma MidForIsSome(cmds: seq<Command>, k: nat, ticker: Ticker, mid: Option<Price>)
    requires MidFor(cmds, k, ticker, mid) && k < |RunRouter(cmds).trades| && RunRouter(cmds).trades[k].ticker == ticker
    ensures mid.Some?
  {
    var j: nat :| MidAt(cmds, j, k, ticker, mid);
    MidAtIsSome(cmds, j, k, ticker, mid);
  }

  lemma MidAtIsSome(cmds: seq<Command>, j: nat, k: nat, ticker: Ticker, mid: Option<Price>)
    requires MidAt(cmds, j, k, ticker, mid)
    requires k < |RunRouter(cmds).trades| && RunRouter(cmds).trades[k].ticker == ticker
    ensures mid.Some?
  {
    if j < |cmds| {
      MidBeforeLast(cmds, j + 1, k, ticker);
    } else {
      NothingFromNothing(cmds, j, k);
      MidBeforeLast(cmds, j, k, ticker);
      MidStays(cmds, j, ticker);
    }
  }

  lemma NothingFromNothing(cmds: seq<Command>, m: nat, k: nat)
    requires m <= |cmds| && k < |RunRouter(cmds[..m]).trades|
    ensures m > 0
  {
    assert cmds[..0] == [];
  }

  /** In every interleaving the mid that a settled trade was marked with is one its engine had
      published, still current when the trade's own command began or newer; and there always is one. */
  lemma TradesAreMarkedFreshly(actions: seq<Action>, k: nat)
    requires CanRun(START, actions) && k < |After(START, actions).settled|
    ensures var s := After(START, actions);
            && |s.mids| == |s.settled| && s.mids[k].Some?
            && MidFor(s.consumed, k, s.settled[k].ticker, s.mids[k])
  {
    var s := After(START, actions);
    StartInv();
    MidsRun(START, actions);
    Reachable(actions);
    TakenIsPrefix(s.settled, HeldTrade(s.inventory), s.trades, TradesIn(Unsent(s)), RunRouter(s.consumed).trades);
    assert RunRouter(s.consumed).trades[k] == s.settled[k];
    SettledMid(s.consumed, s.settled, s.mids, k);
    MidForIsSome(s.consumed, k, s.settled[k].ticker, s.mids[k]);
  }

  // ----- one user's account -----

  /** The trade in hand is one of the user's in the ticker. */
  predicate BeingSettled(s: State, user: UserId, ticker: Ticker) {
    s.inventory.Working? && Party(s.inventory.item.trade, user, ticker)
  }

  lemma ReachedElsewhere(base: AccountsModel.Accounts, stage: Stage, user: UserId, ticker: Ticker)
    requires Settles(stage.trade, |base|) && 0 <= user < |base| && !Party(stage.trade, user, ticker)
    ensures HoldingOf(Reached(base, stage)[user], ticker) == HoldingOf(base[user], ticker)
  {
  }

  lemma AccountIn(s: State, user: UserId, ticker: Ticker)
    requires Inv(s) && 0 <= user < USERS && !BeingSettled(s, user, ticker)
    ensures |s.accounts| == USERS && |s.mids| == |s.settled| && AllSettle(s.settled, USERS)
    ensures HoldingOf(s.accounts[user], ticker) == HoldingOf(SettleAll(USERS, s.settled, s.mids)[user], ticker)
  {
    if s.inventory.Working? {
      HeldTradeSettles(s);
      ReachedElsewhere(SettleAll(USERS, s.settled, s.mids), s.inventory.item, user, ticker);
    }
  }

  /** At every moment there are a hundred accounts, and each, except in the ticker of a trade of its
      owner's in hand, holds the shares bought less the shares sold in the settled trades, and is
      worth at any mark the money received less the money paid and what the shares would fetch. */
  lemma AccountsAlways(actions: seq<Action>, user: UserId, ticker: Ticker, mark: Price)
    requires CanRun(START, actions) && 0 <= user < 100 && !BeingSettled(After(START, actions), user, ticker)
    ensures var s := After(START, actions);
            && |s.accounts| == 100
            && var h := HoldingOf(s.accounts[user], ticker);
               && h.volume == BoughtBy(s.settled, user, ticker) - SoldBy(s.settled, user, ticker)
               && Worth(h, ReceivedBy(s.settled, user, ticker) - PaidBy(s.settled, user, ticker), mark)
  {
    Reachable(actions);
    var s := After(START, actions);
    AccountIn(s, user, ticker);
    PositionIsBoughtLessSold(USERS, s.settled, s.mids, user, ticker);
    ProfitIsCash(USERS, s.settled, s.mids, user, ticker, mark);
  }

  lemma MarkedIn(s: State, user: UserId, ticker: Ticker, k: nat)
    requires Inv(s) && 0 <= user < USERS && !BeingSettled(s, user, ticker)
    requires k < |s.settled| == |s.mids| && Party(s.settled[k], user, ticker) && s.mids[k].Some?
    requires forall j :: k < j < |s.settled| ==> !Party(s.settled[j], user, ticker)
    ensures |s.accounts| == USERS && MarkedAt(HoldingOf(s.accounts[user], ticker), s.mids[k].value)
  {
    AccountIn(s, user, ticker);
    MarkedAtLastTrade(USERS, s.settled, s.mids, user, ticker, k);
  }

  /** At every moment each such account is marked at a mid, the one read for its owner's last settled
      trade in the ticker: its engine had published it, and it was current when that trade's own
      command began, or newer. */
  lemma HoldingsAreMarked(actions: seq<Action>, user: UserId, ticker: Ticker, k: nat)
    requires CanRun(START, actions) && 0 <= user < 100 && !BeingSettled(After(START, actions), user, ticker)
    requires k < |After(START, actions).settled| && Party(After(START, actions).settled[k], user, ticker)
    requires forall j :: k < j < |After(START, actions).settled| ==>
               !Party(After(START, actions).settled[j], user, ticker)
    ensures var s := After(START, actions);
            && |s.accounts| == 100 && |s.mids| == |s.settled| && s.mids[k].Some?
            && MidFor(s.consumed, k, ticker, s.mids[k])
            && MarkedAt(HoldingOf(s.accounts[user], ticker), s.mids[k].value)
  {
    TradesAreMarkedFreshly(actions, k);
    Reachable(actions);
    MarkedIn(After(START, actions), user, ticker, k);
  }
}
