/** Users and their registry as they run: holdings updated in place, both sides of each trade
    settled in turn. */
module Accounts {
  import opened Types
  import opened AccountsModel
  import opened Ledger

  class User {
    const id: UserId
    var inventory: Inventory

    constructor (id: UserId)
      ensures this.id == id && inventory == map[]
    {
      this.id := id;
      inventory := map[];
    }

    /** Realized P&L once the part of the position that the fill closes has been paid for. */
    static method RealizedBy(holding: Holding, signedDelta: int, execUsd: real) returns (realized: real)
      requires !EffectOf(holding.volume, signedDelta).Extends?
      ensures realized == Fill(holding, signedDelta, execUsd).realizedPnl
    {
      var closedAmount := Min(Abs(holding.volume), Abs(signedDelta));
      var pnlPerUnit := if holding.volume > 0 then execUsd - holding.avgCost else holding.avgCost - execUsd;
      RealizedOnClosed(holding, signedDelta, execUsd);
      realized := holding.realizedPnl + pnlPerUnit * closedAmount as real;
    }

    /** A fill of nothing on a flat holding divides zero by zero; the NaN is overwritten further
        down, so here that average is simply not taken. */
    method ApplyFill(ticker: Ticker, side: Side, execPrice: Price, tradeVolume: int)
      modifies this
      ensures inventory == old(inventory)[ticker :=
                Fill(HoldingOf(old(inventory), ticker), Signed(side, tradeVolume), ToUsd(execPrice))]
      ensures inventory[ticker].volume
           == HoldingOf(old(inventory), ticker).volume + (if side.Buy? then tradeVolume else -tradeVolume)
    {
      var holding := HoldingOf(inventory, ticker);
      var signedDelta := if side.Buy? then tradeVolume else -tradeVolume;
      var oldVolume := holding.volume;
      var execUsd := ToUsd(execPrice);
      ghost var goal := Fill(holding, signedDelta, execUsd);
      FillByTests(holding, signedDelta, execUsd);

      var sameDirection := oldVolume == 0 || (oldVolume > 0) == (signedDelta > 0);
      if sameDirection {
        var oldAbs, addAbs := Abs(oldVolume) as real, Abs(signedDelta) as real;
        if oldAbs + addAbs != 0.0 {
          holding := holding.(avgCost := Blend(holding.avgCost, oldAbs, execUsd, addAbs));
        }
      } else {
        var realized := RealizedBy(holding, signedDelta, execUsd);
        holding := holding.(realizedPnl := realized);
      }
      assert holding.realizedPnl == goal.realizedPnl;

      var newVolume := oldVolume + signedDelta;
      var flippedSign := (oldVolume > 0 && newVolume < 0) || (oldVolume < 0 && newVolume > 0);
      if !sameDirection && flippedSign {
        holding := holding.(avgCost := execUsd);
      } else if newVolume == 0 {
        holding := holding.(avgCost := 0.0);
      }
      holding := holding.(volume := newVolume);
      assert holding.avgCost == goal.avgCost;
      assert holding == goal;
      inventory := inventory[ticker := holding];
    }

    /** No-op for a ticker never traded. */
    method RefreshUnrealizedPnl(ticker: Ticker, midPrice: Price)
      modifies this
      ensures inventory == Revalue(old(inventory), ticker, midPrice)
      ensures ticker in inventory ==>
                inventory[ticker].realizedPnl + inventory[ticker].unrealizedPnl
                == Net(inventory[ticker], ToUsd(midPrice))
    {
      if ticker !in inventory {
        return;
      }
      var holding := inventory[ticker];
      var mid := ToUsd(midPrice);
      holding := holding.(unrealizedPnl := holding.volume as real * (mid - holding.avgCost));
      assert holding == Revalued(inventory[ticker], midPrice);
      inventory := inventory[ticker := holding];
    }
  }

  class UserRegistry {
    const users: seq<User>

    ghost predicate Valid() {
      forall i, j :: 0 <= i < j < |users| ==> users[i] != users[j]
    }

    ghost function View(): (v: AccountsModel.Accounts)
      reads users
      ensures |v| == |users|
      ensures forall i :: 0 <= i < |users| ==> v[i] == users[i].inventory
    {
      seq(|users|, i requires 0 <= i < |users| reads users => users[i].inventory)
    }

    constructor (count: nat)
      ensures Valid() && |users| == count && fresh(users) && View() == Opened(count)
      ensures forall i :: 0 <= i < count ==> users[i].id == i
    {
      var list: seq<User> := [];
      while |list| < count
        invariant |list| <= count && fresh(list)
        invariant forall i, j :: 0 <= i < j < |list| ==> list[i] != list[j]
        invariant forall i :: 0 <= i < |list| ==> list[i].inventory == map[] && list[i].id == i
      {
        var user := new User(|list|);
        list := list + [user];
      }
      users := list;
    }

    method FillOne(who: UserId, ticker: Ticker, side: Side, price: Price, volume: int)
      requires Valid() && 0 <= who < |users|
      modifies users
      ensures View() == FillUser(old(View()), who, ticker, side, price, volume)
    {
      users[who].ApplyFill(ticker, side, price, volume);
      assert forall i :: 0 <= i < |users| && i != who ==> users[i].inventory == old(users[i].inventory);
    }

    method RefreshOne(who: UserId, ticker: Ticker, mid: Price)
      requires Valid() && 0 <= who < |users|
      modifies users
      ensures View() == RevalueUser(old(View()), who, ticker, mid)
    {
      users[who].RefreshUnrealizedPnl(ticker, mid);
      assert forall i :: 0 <= i < |users| && i != who ==> users[i].inventory == old(users[i].inventory);
    }

    /** The body of the inventory loop; `mid` is what the router's seqlock returned. */
    method SettleTrade(trade: Trade, mid: Option<Price>)
      requires Valid() && Settles(trade, |users|)
      modifies users
      ensures View() == Settle(old(View()), trade, mid)
      ensures SettledTrade(old(View()), View(), trade, mid)
    {
      SettleMarks(View(), trade, mid);
      var makerSide := if trade.takerSide.Buy? then Sell else Buy;
      FillOne(trade.makerId, trade.ticker, makerSide, trade.executionPrice, trade.volume);
      FillOne(trade.takerId, trade.ticker, trade.takerSide, trade.executionPrice, trade.volume);
      if mid.Some? {
        RefreshOne(trade.makerId, trade.ticker, mid.value);
        RefreshOne(trade.takerId, trade.ticker, mid.value);
      }
    }
  }

  /** Settling a whole stream on a fresh registry. */
  method SettleStream(count: nat, trades: seq<Trade>, mids: seq<Option<Price>>) returns (registry: UserRegistry)
    requires AllSettle(trades, count) && |mids| == |trades|
    ensures fresh(registry) && fresh(registry.users) && registry.Valid()
    ensures registry.View() == SettleAll(count, trades, mids)
  {
    registry := new UserRegistry(count);
    for k := 0 to |trades|
      invariant fresh(registry) && fresh(registry.users) && registry.Valid() && |registry.users| == count
      invariant registry.View() == SettleAll(count, trades[..k], mids[..k])
    {
      assert trades[..k + 1][..k] == trades[..k] && mids[..k + 1][..k] == mids[..k];
      registry.SettleTrade(trades[k], mids[k]);
    }
    assert trades[..|trades|] == trades && mids[..|trades|] == mids;
  }
}
