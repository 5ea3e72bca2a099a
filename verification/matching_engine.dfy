/** The price-time-priority engine as it runs: level queues mutated in place, the nested
    matching loop, the order index and the mid price. Each method is proved to act on the flat
    view of the books exactly as the value model does. */
module Matching {
  import opened Types
  import opened Quotes
  import opened Levels
  import opened EngineModel

  /** A sweep whose first trades and used-up makers are already known. */
  function Then(trades: seq<Trade>, filled: seq<OrderId>, r: Swept): Swept {
    Swept(r.left, trades + r.trades, r.remaining, filled + r.filled)
  }

  /** The quotes met while working through the front level. */
  function Pending(price: Price, level: seq<RestingOrder>, rest: Book): seq<Quote> {
    AsQuotes(price, level) + Flatten(rest)
  }

  /** One fill against the front order that leaves it resting. */
  lemma PartialFill(price: Price, level: seq<RestingOrder>, rest: Book, o: OrderAdd, remaining: int)
    requires level != [] && Crosses(o, price) && 0 < remaining < level[0].volume
    ensures var maker := AsQuotes(price, level)[0];
            var level' := level[0 := level[0].(volume := level[0].volume - remaining)];
            Sweep(Pending(price, level, rest), o, remaining)
              == Then([Execute(o, maker, remaining)], [], Sweep(Pending(price, level', rest), o, 0))
  {
    var q := Pending(price, level, rest);
    var level' := level[0 := level[0].(volume := level[0].volume - remaining)];
    assert Pending(price, level', rest) == [q[0].(volume := q[0].volume - remaining)] + q[1..];
  }

  /** One fill that uses the front order up. */
  lemma FullFill(price: Price, level: seq<RestingOrder>, rest: Book, o: OrderAdd, remaining: int)
    requires level != [] && Crosses(o, price) && 0 < remaining && level[0].volume <= remaining
    ensures var maker := AsQuotes(price, level)[0];
            Sweep(Pending(price, level, rest), o, remaining)
              == Then([Execute(o, maker, maker.volume)], [maker.orderId],
                      Sweep(Pending(price, level[1..], rest), o, remaining - maker.volume))
  {
    var q := Pending(price, level, rest);
    assert Pending(price, level[1..], rest) == q[1..];
  }

  /** One turn of the inner loop, as a step toward the sweep's final result. */
  lemma FillStep(goal: Swept, trades: seq<Trade>, filled: seq<OrderId>,
                 price: Price, level: seq<RestingOrder>, rest: Book, o: OrderAdd, remaining: int)
    requires level != [] && Crosses(o, price) && 0 < remaining && AllPositive(level)
    requires goal == Then(trades, filled, Sweep(Pending(price, level, rest), o, remaining))
    ensures var x := level[0];
            var traded := Min(remaining, x.volume);
            var trade := Trade(x.userId, o.userId, x.orderId, o.orderId, o.ticker, o.side, price, traded);
            if traded == x.volume then
              && goal == Then(trades + [trade], filled + [x.orderId],
                              Sweep(Pending(price, level[1..], rest), o, remaining - traded))
            else
              && traded == remaining
              && goal == Then(trades + [trade], filled,
                              Sweep(Pending(price, level[0 := x.(volume := x.volume - traded)], rest), o, 0))
  {
    var x := level[0];
    if remaining < x.volume {
      PartialFill(price, level, rest, o, remaining);
      var r := Sweep(Pending(price, level[0 := x.(volume := x.volume - remaining)], rest), o, 0);
      Regroup(trades, [Execute(o, AsQuotes(price, level)[0], remaining)], r.trades);
    } else {
      FullFill(price, level, rest, o, remaining);
      var r := Sweep(Pending(price, level[1..], rest), o, remaining - x.volume);
      Regroup(trades, [Execute(o, AsQuotes(price, level)[0], x.volume)], r.trades);
      Regroup(filled, [x.orderId], r.filled);
    }
  }

  lemma ErasedIds(index: map<OrderId, Location>, ids: seq<OrderId>, id: OrderId)
    ensures (index - Ids(ids)) - {id} == index - Ids(ids + [id])
  {
  }

  /** A sweep that cannot start returns its input. */
  lemma SweepStops(book: Book, side: Side, o: OrderAdd, remaining: int)
    requires ValidBook(book, side)
    requires remaining <= 0 || book == [] || !Crosses(o, book[0].price)
    ensures Sweep(Flatten(book), o, remaining) == Swept(Flatten(book), [], remaining, [])
  {
    FlattenBest(book, side);
  }

  lemma PrintsWithinLimit(book: Book, o: OrderAdd, volume: int)
    requires ValidBook(book, Opposite(o.side))
    ensures var ts := Sweep(Flatten(book), o, volume).trades;
            forall i :: 0 <= i < |ts| ==>
              if o.side.Buy? then ts[i].executionPrice <= o.price else ts[i].executionPrice >= o.price
  {
    FlattenOrdered(book, Opposite(o.side));
    SweepTrades(Flatten(book), o, volume);
  }

  lemma FrontLevel(book: Book, side: Side, level: seq<RestingOrder>)
    requires ValidBook(book, side) && book != [] && AllPositive(level)
    ensures level != [] ==> ValidBook(book[0 := Level(book[0].price, level)], side)
    ensures ValidBook(book[1..], side)
    ensures Flatten(book[0 := Level(book[0].price, level)]) == Pending(book[0].price, level, book[1..])
    ensures level == [] ==> Flatten(book[1..]) == Pending(book[0].price, level, book[1..])
  {
    assert book[0 := Level(book[0].price, level)][1..] == book[1..];
  }

  class MatchingEngine {
    var bids: Book
    var asks: Book
    var orderIndex: map<OrderId, Location>
    var midPrice: Option<Price>

    ghost function View(): Engine
      reads this
    {
      Engine(Flatten(bids), Flatten(asks), orderIndex, midPrice)
    }

    ghost predicate Valid()
      reads this
    {
      ValidBook(bids, Buy) && ValidBook(asks, Sell) && WellFormed(View())
    }

    constructor ()
      ensures Valid() && View() == EMPTY
    {
      bids, asks, orderIndex, midPrice := [], [], map[], None;
    }

    /** Walks the opposite book best price first, filling until the order is done or the best
        level no longer crosses. */
    method Match(book: Book, incoming: OrderAdd, volume: int)
      returns (left: Book, remaining: int, trades: seq<Trade>)
      requires ValidBook(book, Opposite(incoming.side))
      modifies this`orderIndex
      ensures ValidBook(left, Opposite(incoming.side))
      ensures Swept(Flatten(left), trades, remaining, Sweep(Flatten(book), incoming, volume).filled)
           == Sweep(Flatten(book), incoming, volume)
      ensures orderIndex == old(orderIndex) - Ids(Sweep(Flatten(book), incoming, volume).filled)
      ensures forall i :: 0 <= i < |trades| ==>
                if incoming.side.Buy? then trades[i].executionPrice <= incoming.price
                else trades[i].executionPrice >= incoming.price
    {
      left, remaining, trades := book, volume, [];
      ghost var filled: seq<OrderId> := [];
      ghost var goal := Sweep(Flatten(book), incoming, volume);
      while remaining > 0 && left != []
        invariant ValidBook(left, Opposite(incoming.side))
        invariant goal == Then(trades, filled, Sweep(Flatten(left), incoming, remaining))
        invariant orderIndex == old(orderIndex) - Ids(filled)
        decreases |left| + (if remaining > 0 then 1 else 0)
      {
        var price := left[0].price;
        if !Crosses(incoming, price) {
          break;
        }
        var level := left[0].orders;
        ghost var rest := left[1..];
        while remaining > 0 && level != []
          invariant AllPositive(level)
          invariant goal == Then(trades, filled, Sweep(Pending(price, level, rest), incoming, remaining))
          invariant orderIndex == old(orderIndex) - Ids(filled)
          decreases |level| + (if remaining > 0 then 1 else 0)
        {
          var resting := level[0];
          var traded := Min(remaining, resting.volume);
          var trade := Trade(resting.userId, incoming.userId, resting.orderId, incoming.orderId,
                             incoming.ticker, incoming.side, price, traded);
          FillStep(goal, trades, filled, price, level, rest, incoming, remaining);
          ErasedIds(old(orderIndex), filled, resting.orderId);
          trades := trades + [trade];
          remaining := remaining - traded;
          level := level[0 := resting.(volume := resting.volume - traded)];
          if level[0].volume == 0 {
            orderIndex := orderIndex - {resting.orderId};
            level := level[1..];
            filled := filled + [resting.orderId];
          }
        }
        FrontLevel(left, Opposite(incoming.side), level);
        left := if level == [] then left[1..] else left[0 := Level(price, level)];
      }
      SweepStops(left, Opposite(incoming.side), incoming, remaining);
      PrintsWithinLimit(book, incoming, volume);
    }

    /** `book[price]` of the sorted map, then `push_back`: the level is opened if missing. */
    static method QueueAt(book: Book, side: Side, price: Price, resting: RestingOrder) returns (after: Book)
      requires ValidBook(book, side) && resting.volume > 0
      ensures ValidBook(after, side)
      ensures Flatten(after)
           == Insert(Flatten(book), side, Quote(price, resting.orderId, resting.userId, resting.volume))
    {
      var i := LowerBound(book, side, price);
      if i < |book| && book[i].price == price {
        QueueAtLevelValid(book, side, i, resting);
        QueueAtLevel(book, side, i, resting);
        after := book[i := Level(price, book[i].orders + [resting])];
      } else {
        BehindLowerBound(book, side, price, i);
        OpenLevelValid(book, side, i, price, resting);
        OpenLevel(book, side, i, price, resting);
        after := book[..i] + [Level(price, [resting])] + book[i..];
      }
    }

    /** Queues the unfilled remainder at its price. */
    method Rest(order: OrderAdd, remaining: int)
      requires ValidBook(bids, Buy) && ValidBook(asks, Sell) && remaining > 0
      modifies this`bids, this`asks, this`orderIndex
      ensures ValidBook(bids, Buy) && ValidBook(asks, Sell)
      ensures View() == EngineModel.Rest(old(View()), order, remaining)
    {
      var resting := RestingOrder(order.orderId, order.userId, remaining);
      if order.side.Buy? {
        bids := QueueAt(bids, Buy, order.price, resting);
      } else {
        asks := QueueAt(asks, Sell, order.price, resting);
      }
      orderIndex := orderIndex[order.orderId := Location(order.side, order.price, order.userId)];
    }

    /** Drops every order with this id from the level at this price. */
    static method EraseFromBook(book: Book, side: Side, price: Price, orderId: OrderId) returns (left: Book)
      requires ValidBook(book, side)
      ensures ValidBook(left, side)
      ensures Flatten(left) == Without(Flatten(book), price, orderId)
    {
      var i := Find(book, price);
      if i == |book| {
        NoLevelNoQuote(book, price, orderId);
        return book;
      }
      var level := EraseId(book[i].orders, orderId);
      EraseIdQuotes(price, book[i].orders, orderId);
      EraseAtLevel(book, side, i, orderId);
      ReplaceLevelValid(book, side, i, level);
      ReplaceLevel(book, i, level);
      left := if level == [] then book[..i] + book[i + 1..] else book[i := Level(price, level)];
    }

    method UpdateMidPrice()
      requires ValidBook(bids, Buy) && ValidBook(asks, Sell)
      modifies this`midPrice
      ensures View() == Publish(old(View()))
      ensures Quoted(View()) ==> midPrice.Some? && IsMid(View(), midPrice.value)
    {
      FlattenBest(bids, Buy);
      FlattenBest(asks, Sell);
      FlattenOrdered(bids, Buy);
      FlattenOrdered(asks, Sell);
      if bids != [] || asks != [] {
        MidIsPlain(View());
      }
      if bids != [] && asks != [] {
        midPrice := Some(Half(bids[0].price + asks[0].price));
      } else if bids != [] {
        midPrice := Some(bids[0].price);
      } else if asks != [] {
        midPrice := Some(asks[0].price);
      }
    }

    method OnOrderAdd(order: OrderAdd) returns (trades: seq<Trade>)
      requires Valid()
      modifies this
      ensures Valid()
      ensures Outcome(View(), trades) == AddOrder(old(View()), order)
    {
      AddKeepsWellFormed(View(), order);
      ghost var before := View();
      var remaining;
      if order.side.Buy? {
        asks, remaining, trades := Match(asks, order, order.volume);
      } else {
        bids, remaining, trades := Match(bids, order, order.volume);
      }
      assert View() == AfterMatch(before, order);
      if remaining > 0 {
        Rest(order, remaining);
      }
      UpdateMidPrice();
    }

    method OnOrderCancel(cancel: OrderCancel)
      requires Valid()
      modifies this
      ensures Valid()
      ensures View() == CancelOrder(old(View()), cancel)
    {
      CancelKeepsWellFormed(View(), cancel);
      if cancel.orderId !in orderIndex || orderIndex[cancel.orderId].userId != cancel.userId {
        return;
      }
      var location := orderIndex[cancel.orderId];
      if location.side.Buy? {
        bids := EraseFromBook(bids, Buy, location.price, cancel.orderId);
      } else {
        asks := EraseFromBook(asks, Sell, location.price, cancel.orderId);
      }
      orderIndex := orderIndex - {cancel.orderId};
      UpdateMidPrice();
    }
  }

  /** Whole runs: a fresh engine driven by any commands yields the trades and the view of the
      model's run, and stays valid. */
  method Replay(cmds: seq<Command>) returns (engine: MatchingEngine, trades: seq<Trade>)
    ensures fresh(engine) && engine.Valid()
    ensures Outcome(engine.View(), trades) == Run(cmds)
  {
    engine := new MatchingEngine();
    trades := [];
    for i := 0 to |cmds|
      invariant fresh(engine) && engine.Valid()
      invariant Outcome(engine.View(), trades) == Run(cmds[..i])
    {
      assert cmds[..i + 1][..i] == cmds[..i];
      match cmds[i]
      case Add(order) =>
        var more := engine.OnOrderAdd(order);
        trades := trades + more;
      case Cancel(cancel) =>
        engine.OnOrderCancel(cancel);
    }
    assert cmds[..|cmds|] == cmds;
  }
}
