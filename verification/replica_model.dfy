/** The market-data replica as a value: open orders keyed by id, rebuilt from the published
    events alone, and exactly when it agrees with the engines it never sees. */
module ReplicaModel {
  import opened Types
  import opened Quotes
  import opened EngineModel
  import opened RouterModel

  datatype Open = Open(ticker: Ticker, side: Side, price: Price, volume: int)

  type Orders = map<OrderId, Open>

  /** One party's share of a trade; an order at or below zero is gone. */
  function Shrink(r: Orders, id: OrderId, volume: int): Orders {
    if id !in r then r
    else if r[id].volume - volume <= 0 then r - {id}
    else r[id := r[id].(volume := r[id].volume - volume)]
  }

  function OpenOf(o: OrderAdd, volume: int): Open {
    Open(o.ticker, o.side, o.price, volume)
  }

  function ApplyEvent(r: Orders, event: Event): Orders {
    match event
    case AddEvent(o) => r[o.orderId := OpenOf(o, o.volume)]
    case CancelEvent(c) => r - {c.orderId}
    case TradeEvent(t) => Shrink(Shrink(r, t.makerOrderId, t.volume), t.takerOrderId, t.volume)
  }

  function ApplyEvents(r: Orders, events: seq<Event>): Orders
    decreases |events|
  {
    if events == [] then r else ApplyEvents(ApplyEvent(r, events[0]), events[1..])
  }

  /** How many sides of the trade `id` is on. */
  function Sides(t: Trade, id: OrderId): nat {
    (if t.makerOrderId == id then 1 else 0) + (if t.takerOrderId == id then 1 else 0)
  }

  /** What an event does to the entry under any one id: an add puts the whole order there, a cancel
      removes it, and a trade takes its volume off once for each side the order is on, removing
      an order as soon as nothing is left of it. */
  lemma EventMeans(r: Orders, event: Event, id: OrderId)
    ensures var after := ApplyEvent(r, event);
            match event
            case AddEvent(o) =>
              && o.orderId in after && after[o.orderId] == Open(o.ticker, o.side, o.price, o.volume)
              && (id != o.orderId ==> SameAt(r, after, id))
            case CancelEvent(c) => c.orderId !in after && (id != c.orderId ==> SameAt(r, after, id))
            case TradeEvent(t) =>
              var n := Sides(t, id);
              && (n == 0 ==> SameAt(r, after, id))
              && (id in after ==> id in r && after[id] == r[id].(volume := r[id].volume - n * t.volume))
              && (n > 0 ==> (id in after <==> id in r && r[id].volume > t.volume && r[id].volume > n * t.volume))
  {
  }

  predicate SameAt(a: Orders, b: Orders, id: OrderId) {
    (id in a <==> id in b) && (id in a ==> a[id] == b[id])
  }

  function AsEvents(ts: seq<Trade>): seq<Event> {
    seq(|ts|, i requires 0 <= i < |ts| => TradeEvent(ts[i]))
  }

  /** What the matching thread publishes for one command: an add before its trades, a cancel
      whether or not the engine accepted it. */
  function Published(cmd: Command, trades: seq<Trade>): seq<Event> {
    match cmd
    case Add(o) => [AddEvent(o)] + AsEvents(trades)
    case Cancel(c) => [CancelEvent(c)]
  }

  function Feed(cmds: seq<Command>): seq<Event> {
    if cmds == [] then []
    else
      var n := |cmds| - 1;
      Feed(cmds[..n]) + Published(cmds[n], Route(RunRouter(cmds[..n]).engines, cmds[n]).trades)
  }

  lemma {:induction false} ApplyConcat(r: Orders, a: seq<Event>, b: seq<Event>)
    ensures ApplyEvents(r, a + b) == ApplyEvents(ApplyEvents(r, a), b)
    decreases |a|
  {
    if a == [] {
      assert a + b == b;
    } else {
      ApplyConcat(ApplyEvent(r, a[0]), a[1..], b);
      assert (a + b)[1..] == a[1..] + b;
    }
  }

  // ----- what the engines hold, in the replica's terms -----

  function OrdersOf(q: seq<Quote>, ticker: Ticker, side: Side): Orders {
    if q == [] then map[]
    else OrdersOf(q[1..], ticker, side)[q[0].orderId := Open(ticker, side, q[0].price, q[0].volume)]
  }

  function BookOf(e: Engine, ticker: Ticker): Orders {
    OrdersOf(e.bids, ticker, Buy) + OrdersOf(e.asks, ticker, Sell)
  }

  /** Resting orders of the first `n` engines. */
  function MirrorUpTo(engines: Engines, n: nat): Orders
    requires n <= LISTED
  {
    if n == 0 then map[] else MirrorUpTo(engines, n - 1) + BookOf(engines[n - 1], INSTRUMENTS[n - 1])
  }

  function Mirror(engines: Engines): Orders {
    MirrorUpTo(engines, LISTED)
  }

  lemma {:induction false} OrdersKeys(q: seq<Quote>, ticker: Ticker, side: Side)
    ensures forall id :: id in OrdersOf(q, ticker, side) <==> HasId(q, id)
  {
    if q == [] {
    } else {
      OrdersKeys(q[1..], ticker, side);
      forall id ensures id in OrdersOf(q, ticker, side) <==> HasId(q, id) {
        if HasId(q, id) {
          var i :| 0 <= i < |q| && q[i].orderId == id;
          if i > 0 { assert q[1..][i - 1].orderId == id; }
        }
        if id in OrdersOf(q[1..], ticker, side) {
          var i :| 0 <= i < |q[1..]| && q[1..][i].orderId == id;
          assert q[i + 1].orderId == id;
        }
      }
    }
  }

  /** Distinct ids: every quote is found under its id with its own price and volume. */
  lemma {:induction false} OrdersValues(q: seq<Quote>, ticker: Ticker, side: Side, k: nat)
    requires DistinctIds(q) && k < |q|
    ensures q[k].orderId in OrdersOf(q, ticker, side)
    ensures OrdersOf(q, ticker, side)[q[k].orderId] == Open(ticker, side, q[k].price, q[k].volume)
  {
    if k == 0 {
    } else {
      OrdersValues(q[1..], ticker, side, k - 1);
    }
  }

  lemma {:induction false} OrdersInsert(q: seq<Quote>, ticker: Ticker, side: Side, x: Quote)
    requires !HasId(q, x.orderId)
    ensures OrdersOf(Insert(q, side, x), ticker, side)
         == OrdersOf(q, ticker, side)[x.orderId := Open(ticker, side, x.price, x.volume)]
  {
    if q == [] || Better(side, x.price, q[0].price) {
      assert ([x] + q)[1..] == q;
    } else {
      assert forall i :: 0 <= i < |q[1..]| ==> q[1..][i] == q[i + 1];
      assert q[0].orderId != x.orderId;
      OrdersInsert(q[1..], ticker, side, x);
      assert Insert(q, side, x)[1..] == Insert(q[1..], side, x);
    }
  }

  lemma {:induction false} OrdersCut(q: seq<Quote>, ticker: Ticker, side: Side, k: nat)
    requires DistinctIds(q) && k < |q|
    ensures OrdersOf(q[..k] + q[k + 1..], ticker, side) == OrdersOf(q, ticker, side) - {q[k].orderId}
  {
    var cut := q[..k] + q[k + 1..];
    if k == 0 {
      assert cut == q[1..];
      OrdersKeys(q[1..], ticker, side);
    } else {
      OrdersCut(q[1..], ticker, side, k - 1);
      assert cut[0] == q[0] && cut[1..] == q[1..][..k - 1] + q[1..][k..];
    }
  }

  // ----- the state in which ids identify orders -----

  predicate EngineHasId(engines: Engines, i: nat, id: OrderId)
    requires i < LISTED
  {
    IdRests(engines[i], id)
  }

  /** Each engine sound and complete, and no id open on two tickers. */
  ghost predicate Separate(engines: Engines) {
    && (forall i :: 0 <= i < LISTED ==> WellFormed(engines[i]) && IndexComplete(engines[i]))
    && (forall i, j, id :: 0 <= i < j < LISTED ==> !(EngineHasId(engines, i, id) && EngineHasId(engines, j, id)))
  }

  lemma BookKeys(e: Engine, ticker: Ticker, id: OrderId)
    ensures id in BookOf(e, ticker) <==> IdRests(e, id)
  {
    OrdersKeys(e.bids, ticker, Buy);
    OrdersKeys(e.asks, ticker, Sell);
  }

  lemma {:induction false} MirrorKeys(engines: Engines, n: nat, id: OrderId)
    requires n <= LISTED
    ensures id in MirrorUpTo(engines, n) <==> exists i :: 0 <= i < n && EngineHasId(engines, i, id)
  {
    if n == 0 {
    } else {
      MirrorKeys(engines, n - 1, id);
      BookKeys(engines[n - 1], INSTRUMENTS[n - 1], id);
      assert EngineHasId(engines, n - 1, id) <==> IdRests(engines[n - 1], id);
    }
  }

  /** No other engine has an id of `e` resting. */
  ghost predicate Apart(engines: Engines, i: nat, e: Engine)
    requires i < LISTED
  {
    forall j, id :: 0 <= j < LISTED && j != i && IdRests(e, id) ==> !EngineHasId(engines, j, id)
  }

  /** The part of `r` that engine `e` does not hold. */
  function Outside(r: Orders, e: Engine, ticker: Ticker): Orders {
    r - BookOf(e, ticker).Keys
  }

  lemma {:induction false} MirrorPrefixSame(engines: Engines, i: nat, e: Engine, n: nat)
    requires i < LISTED && n <= i
    ensures MirrorUpTo(engines[i := e], n) == MirrorUpTo(engines, n)
  {
    if n == 0 {
    } else {
      MirrorPrefixSame(engines, i, e, n - 1);
      var after: Engines := engines[i := e];
      assert after[n - 1] == engines[n - 1];
    }
  }

  lemma SwapHere(m: Orders, was: Orders, now: Orders)
    requires m.Keys !! was.Keys
    ensures m + now == ((m + was) - was.Keys) + now
  {
  }

  lemma SwapBefore(m: Orders, was: Orders, now: Orders, last: Orders)
    requires last.Keys !! was.Keys && last.Keys !! now.Keys
    ensures ((m - was.Keys) + now) + last == ((m + last) - was.Keys) + now
  {
  }

  lemma BooksApart(engines: Engines, i: nat, e: Engine, j: nat)
    requires i < LISTED && j < LISTED && i != j && Apart(engines, i, e)
    ensures BookOf(engines[j], INSTRUMENTS[j]).Keys !! BookOf(e, INSTRUMENTS[i]).Keys
  {
    forall id | id in BookOf(e, INSTRUMENTS[i]) ensures id !in BookOf(engines[j], INSTRUMENTS[j]) {
      BookKeys(e, INSTRUMENTS[i], id);
      BookKeys(engines[j], INSTRUMENTS[j], id);
      assert EngineHasId(engines, j, id) <==> IdRests(engines[j], id);
    }
  }

  lemma MirrorApart(engines: Engines, i: nat, e: Engine, n: nat)
    requires n <= i < LISTED && Apart(engines, i, e)
    ensures MirrorUpTo(engines, n).Keys !! BookOf(e, INSTRUMENTS[i]).Keys
  {
    forall id | id in BookOf(e, INSTRUMENTS[i]) ensures id !in MirrorUpTo(engines, n) {
      BookKeys(e, INSTRUMENTS[i], id);
      MirrorKeys(engines, n, id);
    }
  }

  /** Replacing engine `i` replaces its own orders and leaves everyone else's. */
  lemma {:induction false} MirrorUpdate(engines: Engines, i: nat, e: Engine, n: nat)
    requires i < n <= LISTED
    requires Apart(engines, i, engines[i]) && Apart(engines, i, e)
    ensures MirrorUpTo(engines[i := e], n)
         == Outside(MirrorUpTo(engines, n), engines[i], INSTRUMENTS[i]) + BookOf(e, INSTRUMENTS[i])
  {
    var was, now := BookOf(engines[i], INSTRUMENTS[i]), BookOf(e, INSTRUMENTS[i]);
    if n == i + 1 {
      MirrorPrefixSame(engines, i, e, i);
      MirrorApart(engines, i, engines[i], i);
      SwapHere(MirrorUpTo(engines, i), was, now);
    } else {
      MirrorUpdate(engines, i, e, n - 1);
      BooksApart(engines, i, engines[i], n - 1);
      BooksApart(engines, i, e, n - 1);
      SwapBefore(MirrorUpTo(engines, n - 1), was, now, BookOf(engines[n - 1], INSTRUMENTS[n - 1]));
    }
  }

  // ----- trades -----

  /** The taker's own entry while `remaining` is unfilled. */
  function Taker(o: OrderAdd, remaining: int): Orders {
    if remaining > 0 then map[o.orderId := OpenOf(o, remaining)] else map[]
  }

  /** The replica part-way through a sweep: bystanders, the quotes ahead, the taker. */
  function Spread(rest: Orders, q: seq<Quote>, o: OrderAdd, side: Side, remaining: int): Orders {
    rest + OrdersOf(q, o.ticker, side) + Taker(o, remaining)
  }

  predicate Unrelated(rest: Orders, q: seq<Quote>, o: OrderAdd) {
    && DistinctIds(q) && !HasId(q, o.orderId) && o.orderId !in rest
    && (forall i :: 0 <= i < |q| ==> q[i].orderId !in rest)
  }

  lemma UnrelatedTail(rest: Orders, q: seq<Quote>, o: OrderAdd)
    requires q != [] && Unrelated(rest, q, o)
    ensures Unrelated(rest, q[1..], o)
  {
    assert forall i :: 0 <= i < |q[1..]| ==> q[1..][i] == q[i + 1];
  }

  lemma ApplyFirstTrade(r: Orders, t: Trade, ts: seq<Trade>)
    ensures ApplyEvents(r, AsEvents([t] + ts)) == ApplyEvents(ApplyEvent(r, TradeEvent(t)), AsEvents(ts))
  {
    assert AsEvents([t] + ts)[0] == TradeEvent(t);
    assert AsEvents([t] + ts)[1..] == AsEvents(ts);
  }

  lemma MakerGoes(rest: Orders, tail: Orders, taker: Orders, id: OrderId, x: Open)
    requires id !in rest && id !in tail && id !in taker
    ensures Shrink(rest + tail[id := x] + taker, id, x.volume) == rest + tail + taker
  {
  }

  lemma MakerShrinks(rest: Orders, tail: Orders, taker: Orders, id: OrderId, x: Open, amount: int)
    requires id !in taker && amount < x.volume
    ensures Shrink(rest + tail[id := x] + taker, id, amount)
         == rest + tail[id := x.(volume := x.volume - amount)] + taker
  {
  }

  lemma TakerShrinks(m: Orders, o: OrderAdd, remaining: int, amount: int)
    requires o.orderId !in m && remaining > 0
    ensures Shrink(m + Taker(o, remaining), o.orderId, amount) == m + Taker(o, remaining - amount)
  {
  }

  lemma FullFillShrinks(rest: Orders, q: seq<Quote>, o: OrderAdd, side: Side, remaining: int)
    requires q != [] && Unrelated(rest, q, o) && 0 < q[0].volume <= remaining
    ensures ApplyEvent(Spread(rest, q, o, side, remaining), TradeEvent(Execute(o, q[0], q[0].volume)))
         == Spread(rest, q[1..], o, side, remaining - q[0].volume)
  {
    var tail := OrdersOf(q[1..], o.ticker, side);
    TailLacks(q, o, side);
    MakerGoes(rest, tail, Taker(o, remaining), q[0].orderId, Open(o.ticker, side, q[0].price, q[0].volume));
    TakerShrinks(rest + tail, o, remaining, q[0].volume);
  }

  lemma TailLacks(q: seq<Quote>, o: OrderAdd, side: Side)
    requires q != [] && DistinctIds(q) && !HasId(q, o.orderId)
    ensures q[0].orderId != o.orderId && q[0].orderId !in OrdersOf(q[1..], o.ticker, side)
    ensures o.orderId !in OrdersOf(q[1..], o.ticker, side)
  {
    OrdersKeys(q[1..], o.ticker, side);
    assert forall i :: 0 <= i < |q[1..]| ==> q[1..][i] == q[i + 1];
    assert HasId(q, q[0].orderId);
  }

  lemma PartialFillShrinks(rest: Orders, q: seq<Quote>, o: OrderAdd, side: Side, remaining: int)
    requires q != [] && Unrelated(rest, q, o) && 0 < remaining < q[0].volume
    ensures ApplyEvent(Spread(rest, q, o, side, remaining), TradeEvent(Execute(o, q[0], remaining)))
         == Spread(rest, [q[0].(volume := q[0].volume - remaining)] + q[1..], o, side, 0)
  {
    var tail, x := OrdersOf(q[1..], o.ticker, side), Open(o.ticker, side, q[0].price, q[0].volume);
    var q' := [q[0].(volume := q[0].volume - remaining)] + q[1..];
    assert q'[1..] == q[1..];
    TailLacks(q, o, side);
    MakerShrinks(rest, tail, Taker(o, remaining), q[0].orderId, x, remaining);
    TakerShrinks(rest + tail[q[0].orderId := x.(volume := x.volume - remaining)], o, remaining, remaining);
  }

  predicate Replays(rest: Orders, q: seq<Quote>, o: OrderAdd, side: Side, remaining: int) {
    ApplyEvents(Spread(rest, q, o, side, remaining), AsEvents(Sweep(q, o, remaining).trades))
      == Spread(rest, Sweep(q, o, remaining).left, o, side, Sweep(q, o, remaining).remaining)
  }

  lemma ApplyNothing(r: Orders)
    ensures ApplyEvents(r, AsEvents([])) == r
  {
  }

  lemma ReplayIdle(rest: Orders, q: seq<Quote>, o: OrderAdd, side: Side, remaining: int)
    requires remaining <= 0 || q == [] || !Crosses(o, q[0].price)
    ensures Replays(rest, q, o, side, remaining)
  {
    ApplyNothing(Spread(rest, q, o, side, remaining));
    assert Sweep(q, o, remaining) == Swept(q, [], remaining, []);
  }

  lemma ReplayPartial(rest: Orders, q: seq<Quote>, o: OrderAdd, side: Side, remaining: int)
    requires q != [] && Unrelated(rest, q, o) && 0 < remaining < q[0].volume && Crosses(o, q[0].price)
    ensures Replays(rest, q, o, side, remaining)
  {
    var r, t := Spread(rest, q, o, side, remaining), Execute(o, q[0], remaining);
    PartialFillShrinks(rest, q, o, side, remaining);
    ApplyFirstTrade(r, t, []);
    ApplyNothing(ApplyEvent(r, TradeEvent(t)));
    assert Sweep(q, o, remaining).trades == [t] + [];
  }

  lemma ReplayFull(rest: Orders, q: seq<Quote>, o: OrderAdd, side: Side, remaining: int)
    requires q != [] && Unrelated(rest, q, o) && 0 < q[0].volume <= remaining && Crosses(o, q[0].price)
    requires Replays(rest, q[1..], o, side, remaining - q[0].volume)
    ensures Replays(rest, q, o, side, remaining)
  {
    var r, t := Spread(rest, q, o, side, remaining), Execute(o, q[0], q[0].volume);
    var s, next := Sweep(q, o, remaining), Sweep(q[1..], o, remaining - q[0].volume);
    FullFillShrinks(rest, q, o, side, remaining);
    ApplyFirstTrade(r, t, next.trades);
    assert s.trades == [t] + next.trades && s.left == next.left && s.remaining == next.remaining;
  }

  /** Replaying a sweep's trades leaves the replica with what the sweep leaves. */
  lemma {:induction false} SweepReplayed(rest: Orders, q: seq<Quote>, o: OrderAdd, side: Side, remaining: int)
    requires Positive(q) && Unrelated(rest, q, o)
    ensures Replays(rest, q, o, side, remaining)
    decreases |q|
  {
    if remaining <= 0 || q == [] || !Crosses(o, q[0].price) {
      ReplayIdle(rest, q, o, side, remaining);
    } else if remaining < q[0].volume {
      ReplayPartial(rest, q, o, side, remaining);
    } else {
      UnrelatedTail(rest, q, o);
      SweepReplayed(rest, q[1..], o, side, remaining - q[0].volume);
      ReplayFull(rest, q, o, side, remaining);
    }
  }
}
