/** Where orders and trades come from, field by field, over whole runs of the router: every resting
    order is what is left of an add, and every trade is between two adds, within both limits. */
module Provenance {
  import opened Types
  import opened Quotes
  import opened EngineModel
  import opened RouterModel

  /** `x`, resting on `side` of the ticker's book, is what is left of the add that is command `k`. */
  predicate LeftOf(cmds: seq<Command>, k: nat, ticker: Ticker, side: Side, x: Quote) {
    && k < |cmds| && cmds[k].Add?
    && var o := cmds[k].order;
       && o.ticker == ticker && o.side == side && o.price == x.price
       && o.orderId == x.orderId && o.userId == x.userId
       && 0 < x.volume <= o.volume
  }

  ghost predicate Placed(cmds: seq<Command>, ticker: Ticker, side: Side, x: Quote) {
    exists k: nat :: LeftOf(cmds, k, ticker, side, x)
  }

  ghost predicate AllPlaced(cmds: seq<Command>, ticker: Ticker, side: Side, q: seq<Quote>) {
    forall i :: 0 <= i < |q| ==> Placed(cmds, ticker, side, q[i])
  }

  /** `t` is a trade of the add that is command `i`, resting, with the later one that is command `j`:
      at the price of the first, which is no worse for the second than its own limit. */
  predicate Between(cmds: seq<Command>, i: nat, j: nat, t: Trade) {
    && i < j < |cmds| && cmds[i].Add? && cmds[j].Add?
    && var maker, taker := cmds[i].order, cmds[j].order;
       && maker.ticker == taker.ticker == t.ticker
       && t.makerId == maker.userId && t.makerOrderId == maker.orderId
       && t.takerId == taker.userId && t.takerOrderId == taker.orderId
       && t.takerSide == taker.side && maker.side != taker.side
       && t.executionPrice == maker.price
       && (taker.side.Buy? ==> t.executionPrice <= taker.price)
       && (taker.side.Sell? ==> t.executionPrice >= taker.price)
       && 0 < t.volume <= maker.volume && t.volume <= taker.volume
  }

  ghost predicate Agreed(cmds: seq<Command>, t: Trade) {
    exists i: nat, j: nat :: Between(cmds, i, j, t)
  }

  ghost predicate AllAgreed(cmds: seq<Command>, ts: seq<Trade>) {
    forall k :: 0 <= k < |ts| ==> Agreed(cmds, ts[k])
  }

  // ----- more commands change nothing -----

  lemma PlacedLonger(cmds: seq<Command>, cmd: Command, ticker: Ticker, side: Side, q: seq<Quote>)
    requires AllPlaced(cmds, ticker, side, q)
    ensures AllPlaced(cmds + [cmd], ticker, side, q)
  {
    forall i | 0 <= i < |q| ensures Placed(cmds + [cmd], ticker, side, q[i]) {
      var k: nat :| LeftOf(cmds, k, ticker, side, q[i]);
      assert LeftOf(cmds + [cmd], k, ticker, side, q[i]);
    }
  }

  lemma AgreedLonger(cmds: seq<Command>, cmd: Command, ts: seq<Trade>)
    requires AllAgreed(cmds, ts)
    ensures AllAgreed(cmds + [cmd], ts)
  {
    forall k | 0 <= k < |ts| ensures Agreed(cmds + [cmd], ts[k]) {
      var i: nat, j: nat :| Between(cmds, i, j, ts[k]);
      assert Between(cmds + [cmd], i, j, ts[k]);
    }
  }

  // ----- one add -----

  /** What matching leaves is left of the same adds. */
  lemma SweepPlaced(cmds: seq<Command>, ticker: Ticker, q: seq<Quote>, o: OrderAdd, remaining: int)
    requires Positive(q) && AllPlaced(cmds, ticker, Opposite(o.side), q)
    ensures AllPlaced(cmds, ticker, Opposite(o.side), Sweep(q, o, remaining).left)
  {
    var r := Sweep(q, o, remaining);
    SweepTakesPrefix(q, o, remaining);
    forall i | 0 <= i < |r.left| ensures Placed(cmds, ticker, Opposite(o.side), r.left[i]) {
      var n := |r.filled| + i;
      if i > 0 { assert r.left[i] == r.left[1..][i - 1]; }
      var k: nat :| LeftOf(cmds, k, ticker, Opposite(o.side), q[n]);
      assert LeftOf(cmds, k, ticker, Opposite(o.side), r.left[i]);
    }
  }

  lemma SweepAgreed(cmds: seq<Command>, q: seq<Quote>, o: OrderAdd)
    requires Positive(q) && AllPlaced(cmds, o.ticker, Opposite(o.side), q)
    ensures AllAgreed(cmds + [Add(o)], Sweep(q, o, o.volume).trades)
  {
    var ts := Sweep(q, o, o.volume).trades;
    SweepTrades(q, o, o.volume);
    forall k | 0 <= k < |ts| ensures Agreed(cmds + [Add(o)], ts[k]) {
      var i: nat :| LeftOf(cmds, i, o.ticker, Opposite(o.side), q[k]);
      assert Between(cmds + [Add(o)], i, |cmds|, ts[k]);
    }
  }

  lemma RestPlaced(cmds: seq<Command>, q: seq<Quote>, o: OrderAdd, remaining: int)
    requires 0 < remaining <= o.volume && AllPlaced(cmds + [Add(o)], o.ticker, o.side, q)
    ensures AllPlaced(cmds + [Add(o)], o.ticker, o.side, Insert(q, o.side, AsQuote(o, remaining)))
  {
    var k := InsertPlace(q, o.side, AsQuote(o, remaining));
    assert LeftOf(cmds + [Add(o)], |cmds|, o.ticker, o.side, AsQuote(o, remaining));
  }

  ghost predicate EnginePlaced(cmds: seq<Command>, ticker: Ticker, e: Engine) {
    AllPlaced(cmds, ticker, Buy, e.bids) && AllPlaced(cmds, ticker, Sell, e.asks)
  }

  lemma EngineLonger(cmds: seq<Command>, cmd: Command, ticker: Ticker, e: Engine)
    requires EnginePlaced(cmds, ticker, e)
    ensures EnginePlaced(cmds + [cmd], ticker, e)
  {
    PlacedLonger(cmds, cmd, ticker, Buy, e.bids);
    PlacedLonger(cmds, cmd, ticker, Sell, e.asks);
  }

  lemma AddPlaced(cmds: seq<Command>, e: Engine, o: OrderAdd)
    requires Orderly(e) && EnginePlaced(cmds, o.ticker, e)
    ensures EnginePlaced(cmds + [Add(o)], o.ticker, AddOrder(e, o).engine)
    ensures AllAgreed(cmds + [Add(o)], AddOrder(e, o).trades)
  {
    var q := QuotesOf(e, Opposite(o.side));
    var r := Sweep(q, o, o.volume);
    SweepAgreed(cmds, q, o);
    EngineLonger(cmds, Add(o), o.ticker, e);
    SweepPlaced(cmds + [Add(o)], o.ticker, q, o, o.volume);
    if r.remaining > 0 {
      SweepFillsExactly(q, o, o.volume);
      CrossingVolumeNonNegative(q, o);
      RestPlaced(cmds, QuotesOf(e, o.side), o, r.remaining);
    }
  }

  lemma CancelPlaced(cmds: seq<Command>, e: Engine, c: OrderCancel, ticker: Ticker)
    requires EnginePlaced(cmds, ticker, e)
    ensures EnginePlaced(cmds, ticker, CancelOrder(e, c))
  {
    if Accepts(e, c) {
      var loc := e.index[c.orderId];
      var left := Without(QuotesOf(e, loc.side), loc.price, c.orderId);
      SelectMembers(QuotesOf(e, loc.side), loc.price, c.orderId, false);
      forall i | 0 <= i < |left| ensures Placed(cmds, ticker, loc.side, left[i]) {
        assert left[i] in QuotesOf(e, loc.side);
      }
    }
  }

  // ----- whole runs -----

  lemma RoutePlaced(cmds: seq<Command>, engines: Engines, cmd: Command, i: nat)
    requires i < LISTED && Orderly(engines[i]) && EnginePlaced(cmds, INSTRUMENTS[i], engines[i])
    ensures EnginePlaced(cmds + [cmd], INSTRUMENTS[i], Route(engines, cmd).engines[i])
    ensures i == TickerIndex(TickerOf(cmd)) ==> AllAgreed(cmds + [cmd], Route(engines, cmd).trades)
  {
    EngineLonger(cmds, cmd, INSTRUMENTS[i], engines[i]);
    if i == TickerIndex(TickerOf(cmd)) {
      match cmd
      case Add(o) => AddPlaced(cmds, engines[i], o);
      case Cancel(c) => CancelPlaced(cmds + [cmd], engines[i], c, INSTRUMENTS[i]);
    }
  }

  /** After any commands, every order resting in a ticker's book is what is left of an add for that
      ticker on that side: its id, its owner and its price, and no more than its volume. */
  lemma {:induction false} RestingIsLeftOver(cmds: seq<Command>, i: nat)
    requires i < LISTED
    ensures EnginePlaced(cmds, INSTRUMENTS[i], RunRouter(cmds).engines[i])
  {
    if cmds == [] {
      assert RunRouter(cmds).engines[i] == EMPTY;
    } else {
      var init, cmd := cmds[..|cmds| - 1], cmds[|cmds| - 1];
      assert init + [cmd] == cmds;
      RestingIsLeftOver(init, i);
      RouterWellFormed(init, i);
      RoutePlaced(init, RunRouter(init).engines, cmd, i);
    }
  }

  /** After any commands, every trade printed is between a buy and a sell among them, for the same
      ticker, the maker's first: between their owners, at the maker's price, which a buyer's limit
      is never below nor a seller's above, and for no more than either asked for. */
  lemma {:induction false} TradesAreAgreed(cmds: seq<Command>)
    ensures AllAgreed(cmds, RunRouter(cmds).trades)
  {
    if cmds == [] {
    } else {
      var init, cmd := cmds[..|cmds| - 1], cmds[|cmds| - 1];
      assert init + [cmd] == cmds;
      TradesAreAgreed(init);
      AgreedLonger(init, cmd, RunRouter(init).trades);
      var i := TickerIndex(TickerOf(cmd));
      if i < LISTED {
        RestingIsLeftOver(init, i);
        RouterWellFormed(init, i);
        RoutePlaced(init, RunRouter(init).engines, cmd, i);
      }
    }
  }
}
