/** A book as the engine stores it: price levels, best first, each a FIFO queue. Every
    operation on levels is related to the flat list of quotes the levels spell out. */
module Levels {
  import opened Types
  import opened Quotes

  datatype RestingOrder = RestingOrder(orderId: OrderId, userId: UserId, volume: int)

  datatype Level = Level(price: Price, orders: seq<RestingOrder>)

  type Book = seq<Level>

  function AsQuotes(price: Price, orders: seq<RestingOrder>): seq<Quote> {
    seq(|orders|, i requires 0 <= i < |orders| =>
      Quote(price, orders[i].orderId, orders[i].userId, orders[i].volume))
  }

  function Flatten(book: Book): seq<Quote> {
    if book == [] then [] else AsQuotes(book[0].price, book[0].orders) + Flatten(book[1..])
  }

  predicate AllPositive(orders: seq<RestingOrder>) {
    forall k :: 0 <= k < |orders| ==> orders[k].volume > 0
  }

  /** Levels strictly ordered, none empty, every resting volume positive. */
  predicate ValidBook(book: Book, side: Side) {
    && (forall i, j :: 0 <= i < j < |book| ==> Better(side, book[i].price, book[j].price))
    && (forall i :: 0 <= i < |book| ==> book[i].orders != [])
    && (forall i :: 0 <= i < |book| ==> AllPositive(book[i].orders))
  }

  lemma Regroup<T>(a: seq<T>, b: seq<T>, c: seq<T>)
    ensures a + (b + c) == a + b + c
  {
  }

  lemma {:induction false} FlattenConcat(a: Book, b: Book)
    ensures Flatten(a + b) == Flatten(a) + Flatten(b)
  {
    if a == [] {
      assert a + b == b;
    } else {
      FlattenConcat(a[1..], b);
      assert (a + b)[0] == a[0] && (a + b)[1..] == a[1..] + b;
      Regroup(AsQuotes(a[0].price, a[0].orders), Flatten(a[1..]), Flatten(b));
    }
  }

  lemma {:induction false} FlattenSplit(book: Book, i: nat)
    requires i < |book|
    ensures Flatten(book)
         == Flatten(book[..i]) + AsQuotes(book[i].price, book[i].orders) + Flatten(book[i + 1..])
  {
    if i == 0 {
    } else {
      FlattenSplit(book[1..], i - 1);
      assert book[..i][1..] == book[1..][..i - 1];
    }
  }

  lemma {:induction false} FlattenPrices(book: Book, k: nat) returns (i: nat)
    requires k < |Flatten(book)|
    ensures i < |book| && Flatten(book)[k].price == book[i].price
    ensures k == 0 && book[0].orders != [] ==> i == 0
  {
    var n := |book[0].orders|;
    if k < n {
      i := 0;
    } else {
      i := FlattenPrices(book[1..], k - n);
      i := i + 1;
    }
  }

  /** The first quote sits at the best level. */
  lemma FlattenBest(book: Book, side: Side)
    requires ValidBook(book, side)
    ensures Flatten(book) == [] <==> book == []
    ensures book != [] ==> Flatten(book)[0].price == book[0].price
  {
  }

  lemma {:induction false} FlattenOrdered(book: Book, side: Side)
    requires ValidBook(book, side)
    ensures Sorted(Flatten(book), side) && Positive(Flatten(book))
  {
    if book == [] {
    } else {
      FlattenOrdered(book[1..], side);
      var rest := Flatten(book[1..]);
      forall k | 0 <= k < |rest| ensures Better(side, book[0].price, rest[k].price) {
        var i := FlattenPrices(book[1..], k);
        assert book[1..][i] == book[i + 1];
      }
    }
  }

  lemma SamePrefix(p: Price, a: seq<RestingOrder>, x: seq<Quote>, b: seq<RestingOrder>, y: seq<Quote>)
    requires AsQuotes(p, a) + x == AsQuotes(p, b) + y
    requires forall k :: 0 <= k < |x| ==> x[k].price != p
    requires forall k :: 0 <= k < |y| ==> y[k].price != p
    ensures a == b && x == y
  {
    var l, r := AsQuotes(p, a) + x, AsQuotes(p, b) + y;
    assert forall i :: 0 <= i < |l| ==> (l[i].price == p <==> i < |a|);
    assert forall i :: 0 <= i < |r| ==> (r[i].price == p <==> i < |b|);
    var k := Min(|a|, |b|);
    assert k < |l| ==> l[k] == r[k];
    forall i | 0 <= i < |a| ensures a[i] == b[i] {
      assert l[i] == AsQuotes(p, a)[i] && r[i] == AsQuotes(p, b)[i];
    }
    assert x == l[|a|..] && y == r[|b|..];
  }

  /** The flat list determines the levels, so stating a book's quotes loses nothing. */
  lemma {:induction false} FlattenInjective(a: Book, b: Book, side: Side)
    requires ValidBook(a, side) && ValidBook(b, side)
    requires Flatten(a) == Flatten(b)
    ensures a == b
  {
    FlattenBest(a, side);
    FlattenBest(b, side);
    if a != [] {
      var p := a[0].price;
      forall k | 0 <= k < |Flatten(a[1..])| ensures Flatten(a[1..])[k].price != p {
        var i := FlattenPrices(a[1..], k);
      }
      forall k | 0 <= k < |Flatten(b[1..])| ensures Flatten(b[1..])[k].price != p {
        var i := FlattenPrices(b[1..], k);
      }
      SamePrefix(p, a[0].orders, Flatten(a[1..]), b[0].orders, Flatten(b[1..]));
      FlattenInjective(a[1..], b[1..], side);
      assert a == [a[0]] + a[1..] && b == [b[0]] + b[1..];
    }
  }

  // ----- look-ups of the sorted map -----

  /** First level that `price` does not sort strictly after. */
  function LowerBound(book: Book, side: Side, price: Price): (i: nat)
    ensures i <= |book|
    ensures forall j :: 0 <= j < i ==> Better(side, book[j].price, price)
    ensures i < |book| ==> !Better(side, book[i].price, price)
  {
    if book == [] || !Better(side, book[0].price, price) then 0
    else 1 + LowerBound(book[1..], side, price)
  }

  /** If the level there has another price, it and all behind it sort after `price`. */
  lemma BehindLowerBound(book: Book, side: Side, price: Price, i: nat)
    requires ValidBook(book, side) && i == LowerBound(book, side, price)
    requires i < |book| ==> book[i].price != price
    ensures forall j :: i <= j < |book| ==> Better(side, price, book[j].price)
  {
    forall j | i <= j < |book| ensures Better(side, price, book[j].price) {
      if j > i { assert Better(side, book[i].price, book[j].price); }
    }
  }

  /** The level with this price, or `|book|` if there is none. */
  function Find(book: Book, price: Price): (i: nat)
    ensures i <= |book|
    ensures i < |book| ==> book[i].price == price
    ensures forall j :: 0 <= j < i ==> book[j].price != price
  {
    if book == [] || book[0].price == price then 0 else 1 + Find(book[1..], price)
  }

  // ----- queueing at a level is inserting a quote -----

  lemma {:induction false} InsertBehind(a: seq<Quote>, b: seq<Quote>, side: Side, x: Quote)
    requires forall i :: 0 <= i < |a| ==> !Better(side, x.price, a[i].price)
    ensures Insert(a + b, side, x) == a + Insert(b, side, x)
  {
    if a == [] {
      assert a + b == b && [] + Insert(b, side, x) == Insert(b, side, x);
    } else {
      InsertBehind(a[1..], b, side, x);
      assert (a + b)[1..] == a[1..] + b;
    }
  }

  lemma FlattenNotAfter(book: Book, side: Side, price: Price)
    requires forall j :: 0 <= j < |book| ==> !Better(side, price, book[j].price)
    ensures forall k :: 0 <= k < |Flatten(book)| ==> !Better(side, price, Flatten(book)[k].price)
  {
    forall k | 0 <= k < |Flatten(book)| ensures !Better(side, price, Flatten(book)[k].price) {
      var i := FlattenPrices(book, k);
    }
  }

  lemma QueueAtLevelValid(book: Book, side: Side, i: nat, x: RestingOrder)
    requires ValidBook(book, side) && i < |book| && x.volume > 0
    ensures ValidBook(book[i := Level(book[i].price, book[i].orders + [x])], side)
  {
  }

  /** Nothing before level `i` sorts after its price, and everything behind it does. */
  lemma LevelApart(book: Book, side: Side, i: nat, x: Quote)
    requires ValidBook(book, side) && i < |book| && x.price == book[i].price
    ensures forall k :: 0 <= k < |Flatten(book[..i])| ==> !Better(side, x.price, Flatten(book[..i])[k].price)
    ensures Insert(Flatten(book[i + 1..]), side, x) == [x] + Flatten(book[i + 1..])
  {
    forall j | 0 <= j < i ensures !Better(side, x.price, book[..i][j].price) {
      assert Better(side, book[j].price, x.price);
    }
    FlattenNotAfter(book[..i], side, x.price);
    if Flatten(book[i + 1..]) != [] {
      var j := FlattenPrices(book[i + 1..], 0);
    }
  }

  /** Appending to the existing level at `price`. */
  lemma QueueAtLevel(book: Book, side: Side, i: nat, x: RestingOrder)
    requires ValidBook(book, side) && i < |book|
    ensures Flatten(book[i := Level(book[i].price, book[i].orders + [x])])
         == Insert(Flatten(book), side, Quote(book[i].price, x.orderId, x.userId, x.volume))
  {
    var p, orders := book[i].price, book[i].orders;
    var quote := Quote(p, x.orderId, x.userId, x.volume);
    var book' := book[i := Level(p, orders + [x])];
    FlattenSplit(book, i);
    FlattenSplit(book', i);
    assert book'[..i] == book[..i] && book'[i + 1..] == book[i + 1..];
    assert AsQuotes(p, orders + [x]) == AsQuotes(p, orders) + [quote];
    LevelApart(book, side, i, quote);
    InsertBehind(Flatten(book[..i]) + AsQuotes(p, orders), Flatten(book[i + 1..]), side, quote);
  }

  lemma OpenLevelValid(book: Book, side: Side, i: nat, p: Price, x: RestingOrder)
    requires ValidBook(book, side) && i <= |book| && x.volume > 0
    requires forall j :: 0 <= j < i ==> Better(side, book[j].price, p)
    requires forall j :: i <= j < |book| ==> Better(side, p, book[j].price)
    ensures ValidBook(book[..i] + [Level(p, [x])] + book[i..], side)
  {
    var book' := book[..i] + [Level(p, [x])] + book[i..];
    assert forall j :: 0 <= j < |book'| ==>
        book'[j] == (if j < i then book[j] else if j == i then Level(p, [x]) else book[j - 1]);
  }

  lemma {:induction false} FlattenAround(book: Book, i: nat, level: Level)
    requires i <= |book|
    ensures Flatten(book) == Flatten(book[..i]) + Flatten(book[i..])
    ensures Flatten(book[..i] + [level] + book[i..])
         == Flatten(book[..i]) + (AsQuotes(level.price, level.orders) + Flatten(book[i..]))
  {
    var around := book[..i] + [level] + book[i..];
    if i == 0 {
      assert around[1..] == book;
    } else {
      FlattenAround(book[1..], i - 1, level);
      assert book[..i][1..] == book[1..][..i - 1];
      assert around[1..] == book[1..][..i - 1] + [level] + book[1..][i - 1..];
    }
  }

  /** Opening a new level at its sorted place. */
  lemma OpenLevel(book: Book, side: Side, i: nat, p: Price, x: RestingOrder)
    requires ValidBook(book, side) && i <= |book|
    requires forall j :: 0 <= j < i ==> Better(side, book[j].price, p)
    requires forall j :: i <= j < |book| ==> Better(side, p, book[j].price)
    ensures Flatten(book[..i] + [Level(p, [x])] + book[i..])
         == Insert(Flatten(book), side, Quote(p, x.orderId, x.userId, x.volume))
  {
    var quote := Quote(p, x.orderId, x.userId, x.volume);
    FlattenAround(book, i, Level(p, [x]));
    assert AsQuotes(p, [x]) == [quote];
    forall j | 0 <= j < i ensures !Better(side, p, book[..i][j].price) {
      assert Better(side, book[j].price, p);
    }
    FlattenNotAfter(book[..i], side, p);
    InsertBehind(Flatten(book[..i]), Flatten(book[i..]), side, quote);
    if Flatten(book[i..]) != [] {
      var j := FlattenPrices(book[i..], 0);
    }
  }

  // ----- erasing an id at a level is filtering quotes -----

  /** `std::erase_if` on one level. */
  function EraseId(orders: seq<RestingOrder>, id: OrderId): seq<RestingOrder> {
    if orders == [] then []
    else if orders[0].orderId == id then EraseId(orders[1..], id)
    else [orders[0]] + EraseId(orders[1..], id)
  }

  lemma {:induction false} EraseIdQuotes(p: Price, orders: seq<RestingOrder>, id: OrderId)
    ensures AsQuotes(p, EraseId(orders, id)) == Without(AsQuotes(p, orders), p, id)
    ensures AllPositive(orders) ==> AllPositive(EraseId(orders, id))
  {
    if orders == [] {
    } else {
      EraseIdQuotes(p, orders[1..], id);
      assert AsQuotes(p, orders)[1..] == AsQuotes(p, orders[1..]);
      var rest := EraseId(orders[1..], id);
      assert AsQuotes(p, [orders[0]] + rest) == [AsQuotes(p, orders)[0]] + AsQuotes(p, rest);
    }
  }

  lemma {:induction false} WithoutConcat(a: seq<Quote>, b: seq<Quote>, price: Price, id: OrderId)
    ensures Without(a + b, price, id) == Without(a, price, id) + Without(b, price, id)
  {
    if a == [] {
      assert a + b == b;
    } else {
      WithoutConcat(a[1..], b, price, id);
      assert (a + b)[1..] == a[1..] + b;
    }
  }

  lemma {:induction false} WithoutElsewhere(q: seq<Quote>, price: Price, id: OrderId)
    requires forall k :: 0 <= k < |q| ==> q[k].price != price
    ensures Without(q, price, id) == q
  {
    if q == [] {
    } else {
      WithoutElsewhere(q[1..], price, id);
    }
  }

  lemma NoLevelNoQuote(book: Book, price: Price, id: OrderId)
    requires forall j :: 0 <= j < |book| ==> book[j].price != price
    ensures Without(Flatten(book), price, id) == Flatten(book)
  {
    forall k | 0 <= k < |Flatten(book)| ensures Flatten(book)[k].price != price {
      var i := FlattenPrices(book, k);
    }
    WithoutElsewhere(Flatten(book), price, id);
  }

  /** Filtering a book touches the one level with the price. */
  lemma EraseAtLevel(book: Book, side: Side, i: nat, id: OrderId)
    requires ValidBook(book, side) && i < |book|
    ensures Without(Flatten(book), book[i].price, id)
         == Flatten(book[..i]) + AsQuotes(book[i].price, EraseId(book[i].orders, id)) + Flatten(book[i + 1..])
  {
    var p := book[i].price;
    var front, at, back := Flatten(book[..i]), AsQuotes(p, book[i].orders), Flatten(book[i + 1..]);
    FlattenSplit(book, i);
    WithoutConcat(front + at, back, p, id);
    WithoutConcat(front, at, p, id);
    NoLevelNoQuote(book[..i], p, id);
    NoLevelNoQuote(book[i + 1..], p, id);
    EraseIdQuotes(p, book[i].orders, id);
  }

  lemma ReplaceLevelValid(book: Book, side: Side, i: nat, orders: seq<RestingOrder>)
    requires ValidBook(book, side) && i < |book| && AllPositive(orders)
    ensures orders == [] ==> ValidBook(book[..i] + book[i + 1..], side)
    ensures orders != [] ==> ValidBook(book[i := Level(book[i].price, orders)], side)
  {
  }

  /** Dropping a level, or giving it another queue. */
  lemma ReplaceLevel(book: Book, i: nat, orders: seq<RestingOrder>)
    requires i < |book|
    ensures Flatten(if orders == [] then book[..i] + book[i + 1..] else book[i := Level(book[i].price, orders)])
         == Flatten(book[..i]) + AsQuotes(book[i].price, orders) + Flatten(book[i + 1..])
  {
    if orders == [] {
      FlattenConcat(book[..i], book[i + 1..]);
      assert AsQuotes(book[i].price, orders) == [];
    } else {
      var book' := book[i := Level(book[i].price, orders)];
      FlattenSplit(book', i);
      assert book'[..i] == book[..i] && book'[i + 1..] == book[i + 1..];
    }
  }
}
