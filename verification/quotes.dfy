/** One side of a book seen as a flat list of resting orders, best price first and
    oldest first within a price, together with the three things that happen to it:
    a taker sweeps it from the front, a remainder is inserted, a cancel filters it. */
module Quotes {
  import opened Types

  datatype Quote = Quote(price: Price, orderId: OrderId, userId: UserId, volume: int)

  /** Price `p` has strict priority over `q` on the given side of the book. */
  predicate Better(side: Side, p: Price, q: Price) {
    if side.Buy? then p > q else p < q
  }

  /** The incoming order is willing to trade at `p`. */
  predicate Crosses(o: OrderAdd, p: Price) {
    if o.side.Buy? then o.price >= p else o.price <= p
  }

  predicate Sorted(q: seq<Quote>, side: Side) {
    forall i, j :: 0 <= i < j < |q| ==> !Better(side, q[j].price, q[i].price)
  }

  predicate Positive(q: seq<Quote>) {
    forall i :: 0 <= i < |q| ==> q[i].volume > 0
  }

  function TotalVolume(q: seq<Quote>): int {
    if q == [] then 0 else q[0].volume + TotalVolume(q[1..])
  }

  /** Volume resting at or below the limit of a buy, at or above that of a sell, wherever it sits in
      the list. */
  function CrossingVolume(q: seq<Quote>, o: OrderAdd): int {
    if q == [] then 0
    else
      var first := match o.side
                   case Buy => if q[0].price <= o.price then q[0].volume else 0
                   case Sell => if q[0].price >= o.price then q[0].volume else 0;
      first + CrossingVolume(q[1..], o)
  }

  function TradedVolume(ts: seq<Trade>): int {
    if ts == [] then 0 else ts[0].volume + TradedVolume(ts[1..])
  }

  /** The trade printed when `o` takes `volume` from `maker`: at the maker's price. */
  function Execute(o: OrderAdd, maker: Quote, volume: int): Trade {
    Trade(maker.userId, o.userId, maker.orderId, o.orderId, o.ticker, o.side, maker.price, volume)
  }

  /** Outcome of a sweep: quotes left, trades in generation order, unfilled volume, and the
      ids of the makers that were used up. */
  datatype Swept = Swept(left: seq<Quote>, trades: seq<Trade>, remaining: int, filled: seq<OrderId>)

  function Sweep(q: seq<Quote>, o: OrderAdd, remaining: int): Swept {
    if remaining <= 0 || q == [] || !Crosses(o, q[0].price) then
      Swept(q, [], remaining, [])
    else if remaining < q[0].volume then
      Swept([q[0].(volume := q[0].volume - remaining)] + q[1..], [Execute(o, q[0], remaining)], 0, [])
    else
      var rest := Sweep(q[1..], o, remaining - q[0].volume);
      Swept(rest.left, [Execute(o, q[0], q[0].volume)] + rest.trades, rest.remaining,
            [q[0].orderId] + rest.filled)
  }

  /** `left` is `q` without its first `n` quotes, the new first one possibly reduced. */
  predicate Consumed(q: seq<Quote>, left: seq<Quote>, n: nat) {
    && |left| + n == |q|
    && (left != [] ==>
          && 0 < left[0].volume <= q[n].volume
          && left[0] == q[n].(volume := left[0].volume)
          && left[1..] == q[n + 1..])
  }

  /** A sweep eats a prefix of the list and nothing else. */
  lemma {:induction false} SweepTakesPrefix(q: seq<Quote>, o: OrderAdd, remaining: int)
    requires Positive(q)
    ensures var r := Sweep(q, o, remaining);
            && |r.filled| <= |q|
            && (forall i :: 0 <= i < |r.filled| ==> r.filled[i] == q[i].orderId)
            && Consumed(q, r.left, |r.filled|)
  {
    if !(remaining <= 0 || q == [] || !Crosses(o, q[0].price)) && remaining >= q[0].volume {
      SweepTakesPrefix(q[1..], o, remaining - q[0].volume);
    }
  }

  /** What is left of a sorted, positive list is again sorted and positive. */
  lemma SweepKeepsOrder(q: seq<Quote>, side: Side, o: OrderAdd, remaining: int)
    requires Sorted(q, side) && Positive(q)
    ensures Sorted(Sweep(q, o, remaining).left, side) && Positive(Sweep(q, o, remaining).left)
  {
    var r := Sweep(q, o, remaining);
    SweepTakesPrefix(q, o, remaining);
    var n := |r.filled|;
    forall i | 0 <= i < |r.left|
      ensures r.left[i].price == q[n + i].price && r.left[i].volume > 0
    {
      if i > 0 {
        assert r.left[i] == r.left[1..][i - 1] == q[n + 1..][i - 1];
      }
    }
  }

  /** Each trade is between the taker and the owner of the quote at the same place in the list, at
      the quote's price, never above the limit of a buy nor below that of a sell, for all of the
      quote's volume except possibly the last one. */
  lemma {:induction false} SweepTrades(q: seq<Quote>, o: OrderAdd, remaining: int)
    requires Positive(q)
    ensures var r := Sweep(q, o, remaining);
            && |r.filled| <= |r.trades| <= |q| && |r.trades| <= |r.filled| + 1
            && (forall i :: 0 <= i < |r.trades| ==>
                  && r.trades[i] == Trade(q[i].userId, o.userId, q[i].orderId, o.orderId, o.ticker, o.side,
                                          q[i].price, r.trades[i].volume)
                  && (o.side.Buy? ==> q[i].price <= o.price) && (o.side.Sell? ==> q[i].price >= o.price)
                  && 0 < r.trades[i].volume <= q[i].volume && r.trades[i].volume <= remaining
                  && (i < |r.filled| ==> r.trades[i].volume == q[i].volume))
  {
    if !(remaining <= 0 || q == [] || !Crosses(o, q[0].price)) && remaining >= q[0].volume {
      SweepTrades(q[1..], o, remaining - q[0].volume);
    }
  }

  lemma {:induction false} NothingCrosses(q: seq<Quote>, o: OrderAdd)
    requires Sorted(q, Opposite(o.side))
    requires q != [] ==> !Crosses(o, q[0].price)
    ensures CrossingVolume(q, o) == 0
    ensures forall i :: 0 <= i < |q| ==> !Crosses(o, q[i].price)
  {
    if q == [] {
    } else {
      if |q| > 1 {
        assert !Better(Opposite(o.side), q[1].price, q[0].price);
      }
      NothingCrosses(q[1..], o);
      forall i | 0 <= i < |q| ensures !Crosses(o, q[i].price) {
        assert i > 0 ==> q[i] == q[1..][i - 1];
      }
    }
  }

  lemma {:induction false} CrossingVolumeNonNegative(q: seq<Quote>, o: OrderAdd)
    requires Positive(q)
    ensures CrossingVolume(q, o) >= 0
  {
    if q == [] {
    } else {
      CrossingVolumeNonNegative(q[1..], o);
    }
  }

  /** The fill is exact: what stays unfilled is the requested volume minus everything on the
      book that crosses, never less than zero; if anything stays, nothing left crosses. */
  lemma {:induction false} SweepFillsExactly(q: seq<Quote>, o: OrderAdd, remaining: int)
    requires Sorted(q, Opposite(o.side)) && Positive(q)
    ensures var r := Sweep(q, o, remaining);
            && (remaining > 0 ==> r.remaining == Max(0, remaining - CrossingVolume(q, o)))
            && (remaining <= 0 ==> r == Swept(q, [], remaining, []))
            && (r.remaining > 0 ==> forall i :: 0 <= i < |r.left| ==>
                  if o.side.Buy? then r.left[i].price > o.price else r.left[i].price < o.price)
  {
    CrossingVolumeNonNegative(q, o);
    if remaining <= 0 || q == [] {
    } else if !Crosses(o, q[0].price) {
      NothingCrosses(q, o);
    } else if remaining < q[0].volume {
      CrossingVolumeNonNegative(q[1..], o);
    } else {
      SweepFillsExactly(q[1..], o, remaining - q[0].volume);
      CrossingVolumeNonNegative(q[1..], o);
    }
  }

  /** Successive trades of one taker print at equal or worse prices for the taker. */
  lemma SweepPricesWorsen(q: seq<Quote>, o: OrderAdd, remaining: int)
    requires Sorted(q, Opposite(o.side)) && Positive(q)
    ensures var ts := Sweep(q, o, remaining).trades;
            forall i, j :: 0 <= i < j < |ts| ==>
              if o.side.Buy? then ts[i].executionPrice <= ts[j].executionPrice
              else ts[i].executionPrice >= ts[j].executionPrice
  {
    SweepTrades(q, o, remaining);
  }

  /** Volume balances on both sides of a sweep. */
  lemma {:induction false} SweepConserves(q: seq<Quote>, o: OrderAdd, remaining: int)
    ensures var r := Sweep(q, o, remaining);
            && TotalVolume(q) == TotalVolume(r.left) + TradedVolume(r.trades)
            && remaining == r.remaining + TradedVolume(r.trades)
  {
    if !(remaining <= 0 || q == [] || !Crosses(o, q[0].price)) {
      if remaining < q[0].volume {
        var left := Sweep(q, o, remaining).left;
        assert left[1..] == q[1..];
      } else {
        SweepConserves(q[1..], o, remaining - q[0].volume);
        var r, rest := Sweep(q, o, remaining), Sweep(q[1..], o, remaining - q[0].volume);
        assert r.trades[1..] == rest.trades;
      }
    }
  }

  // ----- resting a remainder -----

  /** Inserts `x` behind every quote of equal or better price. */
  function Insert(q: seq<Quote>, side: Side, x: Quote): seq<Quote> {
    if q == [] || Better(side, x.price, q[0].price) then [x] + q
    else [q[0]] + Insert(q[1..], side, x)
  }

  /** `Insert` puts `x` at one place and moves nothing else; on a sorted list everything before
      that place has equal or better price and everything after it a strictly worse one. */
  lemma {:induction false} InsertPlace(q: seq<Quote>, side: Side, x: Quote) returns (k: nat)
    ensures k <= |q| && Insert(q, side, x) == q[..k] + [x] + q[k..]
    ensures forall i :: 0 <= i < k ==> !Better(side, x.price, q[i].price)
    ensures Sorted(q, side) ==> forall i :: k <= i < |q| ==> Better(side, x.price, q[i].price)
  {
    if q == [] || Better(side, x.price, q[0].price) {
      k := 0;
    } else {
      var k' := InsertPlace(q[1..], side, x);
      k := k' + 1;
      assert q[..k] == [q[0]] + q[1..][..k'];
      assert q[k..] == q[1..][k'..];
      forall i | 0 <= i < k ensures !Better(side, x.price, q[i].price) {
        assert i > 0 ==> q[i] == q[1..][i - 1];
      }
      if Sorted(q, side) {
        forall i | k <= i < |q| ensures Better(side, x.price, q[i].price) {
          assert q[i] == q[1..][i - 1];
        }
      }
    }
  }

  lemma InsertKeepsOrder(q: seq<Quote>, side: Side, x: Quote)
    requires Sorted(q, side)
    ensures Sorted(Insert(q, side, x), side)
    ensures Positive(q) && x.volume > 0 ==> Positive(Insert(q, side, x))
  {
    var k := InsertPlace(q, side, x);
  }

  lemma {:induction false} InsertVolume(q: seq<Quote>, side: Side, x: Quote)
    ensures TotalVolume(Insert(q, side, x)) == TotalVolume(q) + x.volume
  {
    if q == [] || Better(side, x.price, q[0].price) {
      assert ([x] + q)[1..] == q;
    } else {
      InsertVolume(q[1..], side, x);
      assert Insert(q, side, x)[1..] == Insert(q[1..], side, x);
    }
  }

  // ----- cancelling -----

  /** The quotes of `q` that a cancel of `id` at `price` selects (or spares). */
  function Select(q: seq<Quote>, price: Price, id: OrderId, hit: bool): seq<Quote> {
    if q == [] then []
    else if (q[0].price == price && q[0].orderId == id) == hit then [q[0]] + Select(q[1..], price, id, hit)
    else Select(q[1..], price, id, hit)
  }

  /** Quotes surviving a cancel. */
  function Without(q: seq<Quote>, price: Price, id: OrderId): seq<Quote> {
    Select(q, price, id, false)
  }

  lemma {:induction false} SelectMembers(q: seq<Quote>, price: Price, id: OrderId, hit: bool)
    ensures forall x :: x in Select(q, price, id, hit) <==>
              x in q && (x.price == price && x.orderId == id) == hit
  {
    if q == [] {
    } else {
      SelectMembers(q[1..], price, id, hit);
      assert q == [q[0]] + q[1..];
    }
  }

  lemma {:induction false} SelectKeepsOrder(q: seq<Quote>, side: Side, price: Price, id: OrderId, hit: bool)
    requires Sorted(q, side)
    ensures Sorted(Select(q, price, id, hit), side)
  {
    if q == [] {
    } else {
      SelectKeepsOrder(q[1..], side, price, id, hit);
      SelectMembers(q[1..], price, id, hit);
      var rest := Select(q[1..], price, id, hit);
      forall j | 0 <= j < |rest| ensures !Better(side, rest[j].price, q[0].price) {
        assert rest[j] in q[1..];
      }
    }
  }

  lemma {:induction false} SelectVolume(q: seq<Quote>, price: Price, id: OrderId)
    ensures TotalVolume(q)
         == TotalVolume(Select(q, price, id, true)) + TotalVolume(Select(q, price, id, false))
  {
    if q == [] {
    } else {
      SelectVolume(q[1..], price, id);
      assert ([q[0]] + Select(q[1..], price, id, true))[1..] == Select(q[1..], price, id, true);
      assert ([q[0]] + Select(q[1..], price, id, false))[1..] == Select(q[1..], price, id, false);
    }
  }
}
