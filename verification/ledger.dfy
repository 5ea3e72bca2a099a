/** The accounts in plain terms: positions are shares bought less shares sold, profit is money
    received less money paid, and every holding is marked at the mid of its owner's last trade. */
module Ledger {
  import opened Types
  import opened AccountsModel

  predicate Party(t: Trade, user: UserId, ticker: Ticker) {
    t.ticker == ticker && (t.makerId == user || t.takerId == user)
  }

  // ----- shares and money, counted from the trades -----

  /** Shares of the ticker that `user` buys in `t`: all of them if the user is the taker of a buy or
      the maker of a sell. */
  function BoughtIn(t: Trade, user: UserId, ticker: Ticker): int {
    if t.ticker == ticker && (if t.takerSide.Buy? then t.takerId else t.makerId) == user then t.volume else 0
  }

  function SoldIn(t: Trade, user: UserId, ticker: Ticker): int {
    if t.ticker == ticker && (if t.takerSide.Buy? then t.makerId else t.takerId) == user then t.volume else 0
  }

  function BoughtBy(ts: seq<Trade>, user: UserId, ticker: Ticker): int {
    if ts == [] then 0
    else BoughtBy(ts[..|ts| - 1], user, ticker) + BoughtIn(ts[|ts| - 1], user, ticker)
  }

  function SoldBy(ts: seq<Trade>, user: UserId, ticker: Ticker): int {
    if ts == [] then 0
    else SoldBy(ts[..|ts| - 1], user, ticker) + SoldIn(ts[|ts| - 1], user, ticker)
  }

  /** What the shares bought have cost, in millionths of a dollar. */
  function PaidBy(ts: seq<Trade>, user: UserId, ticker: Ticker): int {
    if ts == [] then 0
    else
      var t := ts[|ts| - 1];
      PaidBy(ts[..|ts| - 1], user, ticker) + BoughtIn(t, user, ticker) * t.executionPrice
  }

  function ReceivedBy(ts: seq<Trade>, user: UserId, ticker: Ticker): int {
    if ts == [] then 0
    else
      var t := ts[|ts| - 1];
      ReceivedBy(ts[..|ts| - 1], user, ticker) + SoldIn(t, user, ticker) * t.executionPrice
  }

  lemma {:induction false} TotalsConcat(a: seq<Execution>, b: seq<Execution>)
    ensures Bought(a + b) == Bought(a) + Bought(b) && Spent(a + b) == Spent(a) + Spent(b)
  {
    if a == [] {
      assert a + b == b;
    } else {
      TotalsConcat(a[1..], b);
      assert (a + b)[0] == a[0] && (a + b)[1..] == a[1..] + b;
    }
  }

  lemma Priced(n: int, price: int)
    ensures n as real * (price as real / 1000000.0) == (n * price) as real / 1000000.0
    ensures (-n) as real * (price as real / 1000000.0) == -((n * price) as real / 1000000.0)
  {
    assert n as real * price as real == (n * price) as real;
  }

  lemma OneExecution(x: Execution)
    ensures Bought([x]) == x.delta && Spent([x]) == Cost(x.delta, x.usd)
  {
    assert [x][1..] == [];
  }

  /** One trade moves one user's shares and money as its sides and prices say. */
  lemma ExecutionsInAdd(t: Trade, user: UserId, ticker: Ticker)
    ensures var bought, sold := BoughtIn(t, user, ticker), SoldIn(t, user, ticker);
            && Bought(ExecutionsIn(t, user, ticker)) == bought - sold
            && Spent(ExecutionsIn(t, user, ticker))
               == (bought * t.executionPrice) as real / 1000000.0 - (sold * t.executionPrice) as real / 1000000.0
  {
    if Party(t, user, ticker) {
      var taken := if t.takerSide.Buy? then t.volume else -t.volume;
      var usd := t.executionPrice as real / 1000000.0;
      Priced(t.volume, t.executionPrice);
      OneExecution(Execution(taken, usd));
      OneExecution(Execution(-taken, usd));
      if t.makerId == user && t.takerId == user {
        TotalsConcat([Execution(-taken, usd)], [Execution(taken, usd)]);
      } else {
        assert ExecutionsIn(t, user, ticker) == [Execution(if t.makerId == user then -taken else taken, usd)];
      }
    }
  }

  lemma {:induction false} ExecutionsAdd(ts: seq<Trade>, user: UserId, ticker: Ticker)
    ensures Bought(ExecutionsOf(ts, user, ticker)) == BoughtBy(ts, user, ticker) - SoldBy(ts, user, ticker)
    ensures Spent(ExecutionsOf(ts, user, ticker))
         == (PaidBy(ts, user, ticker) - ReceivedBy(ts, user, ticker)) as real / 1000000.0
  {
    if ts == [] {
    } else {
      var init, t := ts[..|ts| - 1], ts[|ts| - 1];
      ExecutionsAdd(init, user, ticker);
      ExecutionsInAdd(t, user, ticker);
      TotalsConcat(ExecutionsOf(init, user, ticker), ExecutionsIn(t, user, ticker));
    }
  }

  // ----- what a holding amounts to -----

  /** After any trades a user's position is the shares bought less the shares sold. */
  lemma PositionIsBoughtLessSold(users: nat, ts: seq<Trade>, mids: seq<Option<Price>>, user: UserId, ticker: Ticker)
    requires AllSettle(ts, users) && |mids| == |ts| && 0 <= user < users
    ensures HoldingOf(SettleAll(users, ts, mids)[user], ticker).volume
         == BoughtBy(ts, user, ticker) - SoldBy(ts, user, ticker)
  {
    HoldingIsOwnFills(users, ts, mids, user, ticker);
    FillAllMovesCash(FLAT, ExecutionsOf(ts, user, ticker));
    ExecutionsAdd(ts, user, ticker);
  }

  /** At `mark`, realized P&L and the open position against its average cost come to `cash` and what
      the position would fetch, all in millionths of a dollar. */
  predicate Worth(h: Holding, cash: int, mark: Price) {
    h.realizedPnl + h.volume as real * (mark as real / 1000000.0 - h.avgCost)
    == (cash + h.volume * mark) as real / 1000000.0
  }

  lemma CashInMillionths(h: Holding, paid: int, received: int, mark: Price)
    requires CashFlow(h) == -((paid - received) as real / 1000000.0)
    ensures Worth(h, received - paid, mark)
  {
    NetIsCashPlusMark(h, mark as real / 1000000.0);
    Priced(h.volume, mark);
  }

  lemma OwnCash(users: nat, ts: seq<Trade>, mids: seq<Option<Price>>, user: UserId, ticker: Ticker)
    requires AllSettle(ts, users) && |mids| == |ts| && 0 <= user < users
    ensures CashFlow(HoldingOf(SettleAll(users, ts, mids)[user], ticker))
         == -((PaidBy(ts, user, ticker) - ReceivedBy(ts, user, ticker)) as real / 1000000.0)
  {
    var fills := ExecutionsOf(ts, user, ticker);
    HoldingIsOwnFills(users, ts, mids, user, ticker);
    FillAllMovesCash(FLAT, fills);
    ExecutionsAdd(ts, user, ticker);
    SameCash(HoldingOf(SettleAll(users, ts, mids)[user], ticker), FillAll(FLAT, fills));
  }

  lemma SameCash(a: Holding, b: Holding)
    requires SameBook(a, b)
    ensures CashFlow(a) == CashFlow(b)
  {
  }

  /** After any trades, and at any mark, realized P&L and the open position against its average cost
      add up to the money received less the money paid, and what the position would fetch. */
  lemma ProfitIsCash(users: nat, ts: seq<Trade>, mids: seq<Option<Price>>, user: UserId, ticker: Ticker, mark: Price)
    requires AllSettle(ts, users) && |mids| == |ts| && 0 <= user < users
    ensures Worth(HoldingOf(SettleAll(users, ts, mids)[user], ticker),
                  ReceivedBy(ts, user, ticker) - PaidBy(ts, user, ticker), mark)
  {
    OwnCash(users, ts, mids, user, ticker);
    CashInMillionths(HoldingOf(SettleAll(users, ts, mids)[user], ticker),
                     PaidBy(ts, user, ticker), ReceivedBy(ts, user, ticker), mark);
  }

  /** In particular a user who has sold all that was bought has realized the difference. */
  lemma RoundTripRealizes(users: nat, ts: seq<Trade>, mids: seq<Option<Price>>, user: UserId, ticker: Ticker)
    requires AllSettle(ts, users) && |mids| == |ts| && 0 <= user < users
    requires BoughtBy(ts, user, ticker) == SoldBy(ts, user, ticker)
    ensures HoldingOf(SettleAll(users, ts, mids)[user], ticker).realizedPnl
         == (ReceivedBy(ts, user, ticker) - PaidBy(ts, user, ticker)) as real / 1000000.0
  {
    PositionIsBoughtLessSold(users, ts, mids, user, ticker);
    OwnCash(users, ts, mids, user, ticker);
    FlatCash(HoldingOf(SettleAll(users, ts, mids)[user], ticker));
  }

  lemma FlatCash(h: Holding)
    requires h.volume == 0
    ensures CashFlow(h) == h.realizedPnl
  {
  }

  lemma FillCostFree(h: Holding, delta: int, usd: real)
    requires h.volume == 0 ==> h.avgCost == 0.0
    ensures Fill(h, delta, usd).volume == 0 ==> Fill(h, delta, usd).avgCost == 0.0
  {
  }

  lemma {:induction false} FillsCostFree(h: Holding, fills: seq<Execution>)
    requires h.volume == 0 ==> h.avgCost == 0.0
    ensures FillAll(h, fills).volume == 0 ==> FillAll(h, fills).avgCost == 0.0
    decreases |fills|
  {
    if fills == [] {
    } else {
      FillCostFree(h, fills[0].delta, fills[0].usd);
      FillsCostFree(Fill(h, fills[0].delta, fills[0].usd), fills[1..]);
    }
  }

  /** And no cost basis is left of a position that is closed. */
  lemma ClosedHasNoCost(users: nat, ts: seq<Trade>, mids: seq<Option<Price>>, user: UserId, ticker: Ticker)
    requires AllSettle(ts, users) && |mids| == |ts| && 0 <= user < users
    requires BoughtBy(ts, user, ticker) == SoldBy(ts, user, ticker)
    ensures HoldingOf(SettleAll(users, ts, mids)[user], ticker).avgCost == 0.0
  {
    PositionIsBoughtLessSold(users, ts, mids, user, ticker);
    HoldingIsOwnFills(users, ts, mids, user, ticker);
    FillsCostFree(FLAT, ExecutionsOf(ts, user, ticker));
  }

  // ----- marks -----

  /** The stored figure is the position's gain at `mid` over its average cost, and with the realized
      P&L it makes the total at that mid. */
  predicate MarkedAt(h: Holding, mid: Price) {
    && h.unrealizedPnl == h.volume as real * (mid as real / 1000000.0 - h.avgCost)
    && h.realizedPnl + h.unrealizedPnl == Net(h, mid as real / 1000000.0)
  }

  /** What a trade settled with `mid` has done to one user: a party holds the ticker, marked if there
      was a mid and otherwise with the figure from before; nothing else has changed. */
  predicate SettledFor(before: Inventory, after: Inventory, t: Trade, mid: Option<Price>, user: UserId) {
    && after - {t.ticker} == before - {t.ticker}
    && (if user != t.makerId && user != t.takerId then after == before
        else
          && t.ticker in after
          && match mid
             case None => after[t.ticker].unrealizedPnl == HoldingOf(before, t.ticker).unrealizedPnl
             case Some(m) => MarkedAt(after[t.ticker], m))
  }

  predicate SettledTrade(before: Accounts, after: Accounts, t: Trade, mid: Option<Price>)
    requires |before| == |after|
  {
    forall user :: 0 <= user < |before| ==> SettledFor(before[user], after[user], t, mid, user)
  }

  lemma FillBothMoves(accounts: Accounts, t: Trade, user: UserId)
    requires Settles(t, |accounts|) && 0 <= user < |accounts|
    ensures SettledFor(accounts[user], FillBoth(accounts, t)[user], t, None, user)
  {
  }

  lemma RevalueMarks(inventory: Inventory, ticker: Ticker, mid: Price)
    requires ticker in inventory
    ensures var after := Revalue(inventory, ticker, mid);
            && after - {ticker} == inventory - {ticker}
            && ticker in after && MarkedAt(after[ticker], mid)
            && Revalue(after, ticker, mid) == after
  {
    var after := Revalue(inventory, ticker, mid);
    assert Revalued(after[ticker], mid) == after[ticker];
  }

  /** Marking both parties comes to marking each of them once, also if they are the same. */
  lemma MarkBoth(filled: Accounts, t: Trade, mid: Price, user: UserId)
    requires Settles(t, |filled|) && 0 <= user < |filled|
    requires t.ticker in filled[t.makerId] && t.ticker in filled[t.takerId]
    ensures RevalueUser(RevalueUser(filled, t.makerId, t.ticker, mid), t.takerId, t.ticker, mid)[user]
         == if user == t.makerId || user == t.takerId then Revalue(filled[user], t.ticker, mid) else filled[user]
  {
    RevalueMarks(filled[t.makerId], t.ticker, mid);
  }

  lemma SettleMarksOne(accounts: Accounts, t: Trade, mid: Option<Price>, user: UserId)
    requires Settles(t, |accounts|) && 0 <= user < |accounts|
    ensures SettledFor(accounts[user], Settle(accounts, t, mid)[user], t, mid, user)
  {
    var filled := FillBoth(accounts, t);
    FillBothMoves(accounts, t, user);
    if mid.Some? {
      FillBothMoves(accounts, t, t.makerId);
      FillBothMoves(accounts, t, t.takerId);
      MarkBoth(filled, t, mid.value, user);
      if user == t.makerId || user == t.takerId {
        RevalueMarks(filled[user], t.ticker, mid.value);
      }
    }
  }

  /** Settling a trade marks maker and taker alike at the mid it read, and leaves everybody else and
      every other ticker alone. */
  lemma SettleMarks(accounts: Accounts, t: Trade, mid: Option<Price>)
    requires Settles(t, |accounts|)
    ensures SettledTrade(accounts, Settle(accounts, t, mid), t, mid)
  {
    forall user | 0 <= user < |accounts|
      ensures SettledFor(accounts[user], Settle(accounts, t, mid)[user], t, mid, user)
    {
      SettleMarksOne(accounts, t, mid, user);
    }
  }

  /** Who never traded a ticker does not hold it. */
  lemma {:induction false} NeverTraded(users: nat, ts: seq<Trade>, mids: seq<Option<Price>>,
                                       user: UserId, ticker: Ticker)
    requires AllSettle(ts, users) && |mids| == |ts| && 0 <= user < users
    requires forall j :: 0 <= j < |ts| ==> !Party(ts[j], user, ticker)
    ensures ticker !in SettleAll(users, ts, mids)[user]
  {
    if ts == [] {
    } else {
      var n := |ts| - 1;
      NeverTraded(users, ts[..n], mids[..n], user, ticker);
      SettleMarks(SettleAll(users, ts[..n], mids[..n]), ts[n], mids[n]);
    }
  }

  /** A holding is marked at the mid read for its owner's last trade in the ticker. */
  lemma {:induction false} MarkedAtLastTrade(users: nat, ts: seq<Trade>, mids: seq<Option<Price>>,
                                             user: UserId, ticker: Ticker, k: nat)
    requires AllSettle(ts, users) && |mids| == |ts| && 0 <= user < users
    requires k < |ts| && Party(ts[k], user, ticker) && mids[k].Some?
    requires forall j :: k < j < |ts| ==> !Party(ts[j], user, ticker)
    ensures var accounts := SettleAll(users, ts, mids);
            ticker in accounts[user] && MarkedAt(accounts[user][ticker], mids[k].value)
  {
    var n := |ts| - 1;
    var before := SettleAll(users, ts[..n], mids[..n]);
    SettleMarks(before, ts[n], mids[n]);
    if k < n {
      MarkedAtLastTrade(users, ts[..n], mids[..n], user, ticker, k);
      Untouched(before, SettleAll(users, ts, mids), ts[n], mids[n], user, ticker);
    }
  }

  lemma Untouched(before: Accounts, after: Accounts, t: Trade, mid: Option<Price>, user: UserId, ticker: Ticker)
    requires |before| == |after| && SettledTrade(before, after, t, mid)
    requires 0 <= user < |before| && !Party(t, user, ticker)
    ensures ticker in after[user] <==> ticker in before[user]
    ensures ticker in after[user] ==> after[user][ticker] == before[user][ticker]
  {
    assert SettledFor(before[user], after[user], t, mid, user);
    if t.ticker != ticker {
      assert ticker in before[user] <==> ticker in before[user] - {t.ticker};
      assert ticker in after[user] <==> ticker in after[user] - {t.ticker};
    }
  }
}
