/** The listener's order book as it runs: a dictionary changed in place by each event, and the
    per-price totals it displays, which are the engines' own. */
module Replica {
  import opened Types
  import opened Quotes
  import opened EngineModel
  import opened RouterModel
  import opened ReplicaModel
  import opened ReplicaAgreement
  import opened ReplicaRuns

  // ----- what the display should show -----

  predicate On(x: Open, ticker: Ticker, side: Side, price: Price) {
    x.ticker == ticker && x.side == side && x.price == price
  }

  function Part(x: Open, ticker: Ticker, side: Side, price: Price): int {
    if On(x, ticker, side, price) then x.volume else 0
  }

  /** Some element of a nonempty set. */
  ghost function Any<T>(s: set<T>): (x: T)
    requires s != {}
    ensures x in s
  {
    var x :| x in s;
    x
  }

  /** Total open volume at one price, added up in any order. */
  ghost function VolumeAt(r: Orders, ticker: Ticker, side: Side, price: Price): int
    decreases |r|
  {
    if |r| == 0 then 0
    else
      var id := Any(r.Keys);
      assert (r - {id}).Keys == r.Keys - {id};
      Part(r[id], ticker, side, price) + VolumeAt(r - {id}, ticker, side, price)
  }

  ghost predicate PriceShown(r: Orders, ticker: Ticker, side: Side, price: Price) {
    exists id :: id in r && On(r[id], ticker, side, price)
  }

  /** `shown` has exactly the prices with an open order, each with its total volume. */
  ghost predicate Shows(shown: map<Price, int>, r: Orders, ticker: Ticker, side: Side) {
    forall p :: ShowsAt(shown, r, ticker, side, p)
  }

  ghost predicate ShowsAt(shown: map<Price, int>, r: Orders, ticker: Ticker, side: Side, p: Price) {
    && (p in shown <==> PriceShown(r, ticker, side, p))
    && (p in shown ==> shown[p] == VolumeAt(r, ticker, side, p))
  }

  lemma {:induction false} VolumeWithout(r: Orders, id: OrderId, ticker: Ticker, side: Side, price: Price)
    requires id in r
    ensures VolumeAt(r, ticker, side, price)
         == Part(r[id], ticker, side, price) + VolumeAt(r - {id}, ticker, side, price)
    decreases |r|
  {
    var first := Any(r.Keys);
    if first != id {
      assert (r - {first}).Keys == r.Keys - {first} && (r - {id}).Keys == r.Keys - {id};
      VolumeWithout(r - {first}, id, ticker, side, price);
      VolumeWithout(r - {id}, first, ticker, side, price);
      assert (r - {first}) - {id} == (r - {id}) - {first};
    }
  }

  lemma VolumeWith(r: Orders, id: OrderId, x: Open, ticker: Ticker, side: Side, price: Price)
    requires id !in r
    ensures VolumeAt(r[id := x], ticker, side, price)
         == Part(x, ticker, side, price) + VolumeAt(r, ticker, side, price)
  {
    VolumeWithout(r[id := x], id, ticker, side, price);
    assert r[id := x] - {id} == r;
  }

  /** Nothing open at a price adds up to nothing. */
  lemma {:induction false} VolumeOfNone(r: Orders, ticker: Ticker, side: Side, price: Price)
    requires !PriceShown(r, ticker, side, price)
    ensures VolumeAt(r, ticker, side, price) == 0
    decreases |r|
  {
    if |r| == 0 {
    } else {
      var id := Any(r.Keys);
      assert (r - {id}).Keys == r.Keys - {id};
      VolumeWithout(r, id, ticker, side, price);
      VolumeOfNone(r - {id}, ticker, side, price);
    }
  }

  lemma ShownOneMore(r: Orders, id: OrderId, x: Open, ticker: Ticker, side: Side, p: Price)
    requires id !in r
    ensures PriceShown(r[id := x], ticker, side, p) <==> PriceShown(r, ticker, side, p) || On(x, ticker, side, p)
  {
    var r' := r[id := x];
    if On(x, ticker, side, p) {
      assert On(r'[id], ticker, side, p);
    }
    if PriceShown(r, ticker, side, p) {
      var k :| k in r && On(r[k], ticker, side, p);
      assert k in r' && On(r'[k], ticker, side, p);
    }
  }

  function Raise(shown: map<Price, int>, x: Open): map<Price, int> {
    shown[x.price := (if x.price in shown then shown[x.price] else 0) + x.volume]
  }

  lemma ShowOneMoreAt(shown: map<Price, int>, r: Orders, id: OrderId, x: Open, ticker: Ticker, side: Side, p: Price)
    requires id !in r && ShowsAt(shown, r, ticker, side, p)
    ensures ShowsAt(if x.ticker == ticker && x.side == side then Raise(shown, x) else shown, r[id := x],
                    ticker, side, p)
  {
    ShownOneMore(r, id, x, ticker, side, p);
    VolumeWith(r, id, x, ticker, side, p);
    if p !in shown {
      VolumeOfNone(r, ticker, side, p);
    }
  }

  /** Adding one order to a display: its own price goes up, no other changes. */
  lemma ShowOneMore(shown: map<Price, int>, r: Orders, id: OrderId, x: Open, ticker: Ticker, side: Side)
    requires id !in r && Shows(shown, r, ticker, side)
    ensures Shows(if x.ticker == ticker && x.side == side then Raise(shown, x) else shown, r[id := x], ticker, side)
  {
    var shown' := if x.ticker == ticker && x.side == side then Raise(shown, x) else shown;
    var r' := r[id := x];
    forall p ensures ShowsAt(shown', r', ticker, side, p) {
      ShowOneMoreAt(shown, r, id, x, ticker, side, p);
    }
  }

  class OrderBook {
    var openOrders: Orders

    constructor ()
      ensures openOrders == map[]
    {
      openOrders := map[];
    }

    method Apply(event: Event)
      modifies this
      ensures openOrders == ApplyEvent(old(openOrders), event)
    {
      match event
      case AddEvent(o) =>
        openOrders := openOrders[o.orderId := Open(o.ticker, o.side, o.price, o.volume)];
      case CancelEvent(c) =>
        openOrders := openOrders - {c.orderId};
      case TradeEvent(t) =>
        ShrinkOrder(t.makerOrderId, t.volume);
        ShrinkOrder(t.takerOrderId, t.volume);
    }

    /** One turn of the loop over a trade's two orders. */
    method ShrinkOrder(id: OrderId, volume: int)
      modifies this
      ensures openOrders == Shrink(old(openOrders), id, volume)
    {
      if id !in openOrders {
        return;
      }
      var order := openOrders[id];
      order := order.(volume := order.volume - volume);
      openOrders := openOrders[id := order];
      if order.volume <= 0 {
        openOrders := openOrders - {id};
      }
    }

    method Levels(ticker: Ticker) returns (bids: map<Price, int>, asks: map<Price, int>)
      ensures Shows(bids, openOrders, ticker, Buy)
      ensures Shows(asks, openOrders, ticker, Sell)
    {
      bids, asks := map[], map[];
      var todo := openOrders.Keys;
      assert openOrders - todo == map[];
      while |todo| != 0
        invariant todo <= openOrders.Keys
        invariant Shows(bids, openOrders - todo, ticker, Buy)
        invariant Shows(asks, openOrders - todo, ticker, Sell)
        decreases todo
      {
        ghost var some := Any(todo);
        var id :| id in todo;
        var order := openOrders[id];
        ShowOneMore(bids, openOrders - todo, id, order, ticker, Buy);
        ShowOneMore(asks, openOrders - todo, id, order, ticker, Sell);
        assert (openOrders - todo)[id := order] == openOrders - (todo - {id});
        todo := todo - {id};
        if order.ticker == ticker {
          if order.side.Buy? {
            bids := Raise(bids, order);
          } else {
            asks := Raise(asks, order);
          }
        }
      }
      assert openOrders - todo == openOrders;
    }
  }

  // ----- the display against the engine's book -----

  /** Volume queued at one price of an engine's book. */
  function QueuedAt(q: seq<Quote>, price: Price): int {
    if q == [] then 0 else (if q[0].price == price then q[0].volume else 0) + QueuedAt(q[1..], price)
  }

  lemma {:induction false} VolumeOfQuotes(q: seq<Quote>, own: Ticker, mine: Side,
                                          ticker: Ticker, side: Side, price: Price)
    requires DistinctIds(q)
    ensures VolumeAt(OrdersOf(q, own, mine), ticker, side, price)
         == if own == ticker && mine == side then QueuedAt(q, price) else 0
  {
    if q == [] {
    } else {
      VolumeOfQuotes(q[1..], own, mine, ticker, side, price);
      OrdersKeys(q[1..], own, mine);
      VolumeWith(OrdersOf(q[1..], own, mine), q[0].orderId, Open(own, mine, q[0].price, q[0].volume),
                 ticker, side, price);
    }
  }

  lemma TakeOne(b: Orders, id: OrderId)
    requires id in b
    ensures (b - {id}).Keys == b.Keys - {id} && |b - {id}| < |b|
  {
    assert (b - {id}).Keys == b.Keys - {id};
  }

  lemma TakeFromUnion(a: Orders, b: Orders, id: OrderId)
    requires a.Keys !! b.Keys && id in b
    ensures (a + b) - {id} == a + (b - {id}) && (a + b)[id] == b[id]
  {
  }

  lemma {:induction false} VolumeOfUnion(a: Orders, b: Orders, ticker: Ticker, side: Side, price: Price)
    requires a.Keys !! b.Keys
    ensures VolumeAt(a + b, ticker, side, price) == VolumeAt(a, ticker, side, price) + VolumeAt(b, ticker, side, price)
    decreases |b|
  {
    if |b| == 0 {
      assert a + b == a;
    } else {
      var id := Any(b.Keys);
      TakeOne(b, id);
      TakeFromUnion(a, b, id);
      VolumeOfUnion(a, b - {id}, ticker, side, price);
      VolumeWithout(b, id, ticker, side, price);
      VolumeWithout(a + b, id, ticker, side, price);
    }
  }

  lemma VolumeOfBook(e: Engine, own: Ticker, ticker: Ticker, side: Side, price: Price)
    requires IndexComplete(e)
    ensures VolumeAt(BookOf(e, own), ticker, side, price)
         == if own == ticker then QueuedAt(QuotesOf(e, side), price) else 0
  {
    SidesApart(e, own);
    VolumeOfUnion(OrdersOf(e.bids, own, Buy), OrdersOf(e.asks, own, Sell), ticker, side, price);
    VolumeOfQuotes(e.bids, own, Buy, ticker, side, price);
    VolumeOfQuotes(e.asks, own, Sell, ticker, side, price);
  }

  /** Each engine's book has ids of its own. */
  ghost predicate BooksDisjoint(engines: Engines) {
    forall n :: 0 <= n < LISTED ==> MirrorUpTo(engines, n).Keys !! BookOf(engines[n], INSTRUMENTS[n]).Keys
  }

  lemma SeparateDisjoint(engines: Engines)
    requires Separate(engines)
    ensures BooksDisjoint(engines)
  {
    forall n | 0 <= n < LISTED ensures MirrorUpTo(engines, n).Keys !! BookOf(engines[n], INSTRUMENTS[n]).Keys {
      SeparateApart(engines, n);
      MirrorApart(engines, n, engines[n], n);
    }
  }

  /** A quantity that adds up over separate books. */
  ghost predicate Additive(f: Orders -> int) {
    && f(map[]) == 0
    && forall a: Orders, b: Orders {:trigger f(a + b)} :: a.Keys !! b.Keys ==> f(a + b) == f(a) + f(b)
  }

  /** If only engine `i` has any of it, then that is all there is. */
  lemma {:induction false} AllFromOne(engines: Engines, n: nat, i: nat, f: Orders -> int)
    requires n <= LISTED && i < LISTED && BooksDisjoint(engines) && Additive(f)
    requires forall j :: 0 <= j < LISTED && j != i ==> f(BookOf(engines[j], INSTRUMENTS[j])) == 0
    ensures f(MirrorUpTo(engines, n)) == if i < n then f(BookOf(engines[i], INSTRUMENTS[i])) else 0
  {
    if n == 0 {
    } else {
      AllFromOne(engines, n - 1, i, f);
      assert f(MirrorUpTo(engines, n - 1) + BookOf(engines[n - 1], INSTRUMENTS[n - 1]))
          == f(MirrorUpTo(engines, n - 1)) + f(BookOf(engines[n - 1], INSTRUMENTS[n - 1]));
    }
  }

  lemma VolumeAdds(ticker: Ticker, side: Side, price: Price, f: Orders -> int)
    requires forall r :: f(r) == VolumeAt(r, ticker, side, price)
    ensures Additive(f)
  {
    forall a: Orders, b: Orders | a.Keys !! b.Keys ensures f(a + b) == f(a) + f(b) {
      VolumeOfUnion(a, b, ticker, side, price);
    }
  }

  lemma NoneElsewhere(engines: Engines, i: nat, side: Side, price: Price, j: nat)
    requires Separate(engines) && i < LISTED && j < LISTED && j != i
    ensures VolumeAt(BookOf(engines[j], INSTRUMENTS[j]), INSTRUMENTS[i], side, price) == 0
  {
    VolumeOfBook(engines[j], INSTRUMENTS[j], INSTRUMENTS[i], side, price);
    TickerIndexOfListed(i);
    TickerIndexOfListed(j);
  }

  lemma VolumeOfMirror(engines: Engines, i: nat, side: Side, price: Price)
    requires Separate(engines) && i < LISTED
    ensures VolumeAt(Mirror(engines), INSTRUMENTS[i], side, price) == QueuedAt(QuotesOf(engines[i], side), price)
  {
    var f := (r: Orders) => VolumeAt(r, INSTRUMENTS[i], side, price);
    SeparateDisjoint(engines);
    VolumeAdds(INSTRUMENTS[i], side, price, f);
    forall j | 0 <= j < LISTED && j != i ensures f(BookOf(engines[j], INSTRUMENTS[j])) == 0 {
      NoneElsewhere(engines, i, side, price, j);
    }
    AllFromOne(engines, LISTED, i, f);
    VolumeOfBook(engines[i], INSTRUMENTS[i], INSTRUMENTS[i], side, price);
  }

  lemma {:induction false} QueuedIffPriced(q: seq<Quote>, price: Price)
    requires Positive(q)
    ensures QueuedAt(q, price) >= 0
    ensures QueuedAt(q, price) > 0 <==> HasPrice(q, price)
  {
    if q == [] {
    } else {
      QueuedIffPriced(q[1..], price);
      if q[0].price == price {
        assert HasPrice(q, price);
      } else if HasPrice(q, price) {
        var k :| 0 <= k < |q| && q[k].price == price;
        assert q[1..][k - 1].price == price;
      }
      assert forall k :: 0 <= k < |q[1..]| ==> q[1..][k] == q[k + 1];
    }
  }

  lemma {:induction false} VolumeIffShown(r: Orders, ticker: Ticker, side: Side, price: Price)
    requires forall id :: id in r ==> r[id].volume > 0
    ensures VolumeAt(r, ticker, side, price) >= 0
    ensures VolumeAt(r, ticker, side, price) > 0 <==> PriceShown(r, ticker, side, price)
    decreases |r|
  {
    if |r| == 0 {
    } else {
      var id := Any(r.Keys);
      assert (r - {id}).Keys == r.Keys - {id};
      VolumeWithout(r, id, ticker, side, price);
      VolumeIffShown(r - {id}, ticker, side, price);
      var rest := r - {id};
      assert PriceShown(r, ticker, side, price)
         ==> On(r[id], ticker, side, price) || PriceShown(rest, ticker, side, price) by {
        if PriceShown(r, ticker, side, price) {
          var k :| k in r && On(r[k], ticker, side, price);
          assert k != id ==> k in rest && On(rest[k], ticker, side, price);
        }
      }
      if PriceShown(r - {id}, ticker, side, price) {
        var k :| k in r - {id} && On((r - {id})[k], ticker, side, price);
        assert k in r && On(r[k], ticker, side, price);
      }
    }
  }

  /** `shown` is this side of the book: the same prices, and at each the same total volume. */
  predicate IsBookAt(shown: map<Price, int>, q: seq<Quote>, p: Price) {
    (p in shown <==> HasPrice(q, p)) && (p in shown ==> shown[p] == QueuedAt(q, p))
  }

  lemma MirrorPositive(engines: Engines)
    requires Separate(engines)
    ensures forall id :: id in Mirror(engines) ==> Mirror(engines)[id].volume > 0
  {
    forall id | id in Mirror(engines) ensures Mirror(engines)[id].volume > 0 {
      MirrorHoldsReal(engines, LISTED, id);
    }
  }

  lemma LevelAtPrice(engines: Engines, i: nat, side: Side, shown: map<Price, int>, p: Price)
    requires Separate(engines) && i < LISTED
    requires ShowsAt(shown, Mirror(engines), INSTRUMENTS[i], side, p)
    ensures IsBookAt(shown, QuotesOf(engines[i], side), p)
  {
    MirrorPositive(engines);
    VolumeOfMirror(engines, i, side, p);
    VolumeIffShown(Mirror(engines), INSTRUMENTS[i], side, p);
    QueuedIffPriced(QuotesOf(engines[i], side), p);
  }

  /** What the listener displays for a listed ticker after any well-behaved stream is the
      engine's own book. */
  lemma LevelsAreTheBook(cmds: seq<Command>, i: nat, side: Side, shown: map<Price, int>)
    requires WellBehavedRun(cmds) && i < LISTED
    requires Shows(shown, ApplyEvents(map[], Feed(cmds)), INSTRUMENTS[i], side)
    ensures forall p :: IsBookAt(shown, QuotesOf(RunRouter(cmds).engines[i], side), p)
  {
    ReplicaFollows(cmds);
    var engines := RunRouter(cmds).engines;
    forall p ensures IsBookAt(shown, QuotesOf(engines[i], side), p) {
      LevelAtPrice(engines, i, side, shown, p);
    }
  }
}
