/** The replica against the engines, one command at a time: what it means to agree, which
    commands are well behaved, and agreement after cancels and after adds under a new id. */
module ReplicaAgreement {
  import opened Types
  import opened Quotes
  import opened EngineModel
  import opened RouterModel
  import opened ReplicaModel

  predicate Listed(cmd: Command) {
    TickerIndex(TickerOf(cmd)) < LISTED
  }

  predicate OwnIn(q: seq<Quote>, c: OrderCancel) {
    exists k :: 0 <= k < |q| && q[k].orderId == c.orderId && q[k].userId == c.userId
  }

  predicate OwnRests(e: Engine, c: OrderCancel) {
    OwnIn(e.bids, c) || OwnIn(e.asks, c)
  }

  /** An order with the add's own id rests on the other side at a price the add accepts; the add is
      large enough for it and all ahead of it, and not too large for what crosses. */
  predicate FillsNamesake(e: Engine, o: OrderAdd) {
    var q := QuotesOf(e, Opposite(o.side));
    exists k :: 0 <= k < |q| && q[k].orderId == o.orderId && Crosses(o, q[k].price)
                && TotalVolume(q[..k + 1]) <= o.volume <= CrossingVolume(q, o)
  }

  /** Adds are for a listed ticker, positive, and under an id open nowhere (or they fill the order
      that has it, and nothing of either is left); cancels name an id open nowhere, or an order
      of the sender's on the ticker they give. */
  predicate WellBehaved(engines: Engines, cmd: Command) {
    match cmd
    case Add(o) =>
      && Listed(cmd) && o.volume > 0
      && (o.orderId !in Mirror(engines) || FillsNamesake(engines[TickerIndex(o.ticker)], o))
    case Cancel(c) =>
      c.orderId !in Mirror(engines) || (Listed(cmd) && OwnRests(engines[TickerIndex(c.ticker)], c))
  }

  /** The replica after one more command's events, had it agreed before. */
  function Updated(engines: Engines, cmd: Command): Orders {
    ApplyEvents(Mirror(engines), Published(cmd, Route(engines, cmd).trades))
  }

  ghost predicate OnePerId(e: Engine) {
    && DistinctIds(e.bids) && DistinctIds(e.asks)
    && forall id :: !(HasId(e.bids, id) && HasId(e.asks, id))
  }

  ghost predicate OneOrderPerId(engines: Engines) {
    && (forall i :: 0 <= i < LISTED ==> OnePerId(engines[i]))
    && (forall i, j, id :: 0 <= i < j < LISTED ==> !(EngineHasId(engines, i, id) && EngineHasId(engines, j, id)))
  }

  /** `r` has one entry for each resting order, as it rests, and no other entry. */
  ghost predicate Holds(r: Orders, engines: Engines) {
    r == Mirror(engines) && OneOrderPerId(engines)
  }

  ghost predicate Agrees(engines: Engines, cmd: Command) {
    Holds(Updated(engines, cmd), Route(engines, cmd).engines)
  }

  lemma CoveredApart(e: Engine, id: OrderId)
    requires IndexComplete(e)
    ensures !(HasId(e.bids, id) && HasId(e.asks, id))
  {
  }

  lemma SeparateOnePerId(engines: Engines)
    requires Separate(engines)
    ensures OneOrderPerId(engines)
  {
    forall i | 0 <= i < LISTED ensures OnePerId(engines[i]) {
      forall id ensures !(HasId(engines[i].bids, id) && HasId(engines[i].asks, id)) {
        CoveredApart(engines[i], id);
      }
    }
  }

  lemma SeparateApart(engines: Engines, i: nat)
    requires Separate(engines) && i < LISTED
    ensures Apart(engines, i, engines[i])
  {
    forall j, id | 0 <= j < LISTED && j != i && IdRests(engines[i], id) ensures !EngineHasId(engines, j, id) {
      assert EngineHasId(engines, i, id);
    }
  }

  lemma SeparateUpdate(engines: Engines, i: nat, e: Engine)
    requires Separate(engines) && i < LISTED && Apart(engines, i, e)
    requires WellFormed(e) && IndexComplete(e)
    ensures Separate(engines[i := e])
  {
    var after: Engines := engines[i := e];
    forall j, k, id | 0 <= j < k < LISTED ensures !(EngineHasId(after, j, id) && EngineHasId(after, k, id)) {
      assert EngineHasId(engines, j, id) <==> IdRests(engines[j], id);
      assert EngineHasId(engines, k, id) <==> IdRests(engines[k], id);
      if j == i {
        assert EngineHasId(after, k, id) == EngineHasId(engines, k, id);
      } else if k == i {
        assert EngineHasId(after, j, id) == EngineHasId(engines, j, id);
      }
    }
  }

  lemma SidesApart(e: Engine, ticker: Ticker)
    requires IndexComplete(e)
    ensures OrdersOf(e.bids, ticker, Buy).Keys !! OrdersOf(e.asks, ticker, Sell).Keys
  {
    OrdersKeys(e.bids, ticker, Buy);
    OrdersKeys(e.asks, ticker, Sell);
    forall id | id in OrdersOf(e.bids, ticker, Buy) ensures id !in OrdersOf(e.asks, ticker, Sell) {
      assert HasId(e.bids, id);
      var k :| 0 <= k < |e.bids| && e.bids[k].orderId == id;
      assert e.index[id].side == Buy;
    }
  }

  /** A book may be read own side first. */
  lemma BookBySide(e: Engine, ticker: Ticker, side: Side)
    requires IndexComplete(e)
    ensures BookOf(e, ticker)
         == OrdersOf(QuotesOf(e, side), ticker, side) + OrdersOf(QuotesOf(e, Opposite(side)), ticker, Opposite(side))
  {
    SidesApart(e, ticker);
  }

  /** The mirror is one engine's book beside everyone else's. */
  lemma MirrorSplit(engines: Engines, i: nat)
    requires Separate(engines) && i < LISTED
    ensures Mirror(engines) == Outside(Mirror(engines), engines[i], INSTRUMENTS[i]) + BookOf(engines[i], INSTRUMENTS[i])
  {
    SeparateApart(engines, i);
    MirrorUpdate(engines, i, engines[i], LISTED);
    assert engines[i := engines[i]] == engines;
  }

  // ----- adds -----

  lemma IdsAfterInsert(q: seq<Quote>, side: Side, x: Quote, id: OrderId)
    requires HasId(Insert(q, side, x), id)
    ensures HasId(q, id) || id == x.orderId
  {
    var q' := Insert(q, side, x);
    var p := InsertAt(q, side, x);
    var k :| 0 <= k < |q'| && q'[k].orderId == id;
    if k < p {
      assert q[k].orderId == id;
    } else if k > p {
      assert q[k - 1].orderId == id;
    }
  }

  lemma IdsAfterAdd(e: Engine, o: OrderAdd)
    requires Orderly(e) && IndexComplete(e)
    ensures forall id :: IdRests(AddOrder(e, o).engine, id) ==> IdRests(e, id) || id == o.orderId
  {
    MatchKeepsComplete(e, o);
    var m := AfterMatch(e, o);
    var r := Sweep(QuotesOf(e, Opposite(o.side)), o, o.volume);
    forall id | IdRests(AddOrder(e, o).engine, id) ensures IdRests(e, id) || id == o.orderId {
      if r.remaining > 0 && HasId(QuotesOf(AddOrder(e, o).engine, o.side), id) {
        IdsAfterInsert(QuotesOf(m, o.side), o.side, AsQuote(o, r.remaining), id);
      }
    }
  }

  lemma RegroupRested(rest: Orders, own: Orders, left: Orders, id: OrderId, x: Open)
    requires id !in left
    ensures rest + (own[id := x] + left) == (rest + own) + left + map[id := x]
  {
  }

  lemma RegroupFilled(rest: Orders, own: Orders, left: Orders)
    ensures rest + (own + left) == (rest + own) + left + map[]
  {
  }

  lemma RegroupArriving(rest: Orders, own: Orders, other: Orders, id: OrderId, x: Open)
    ensures (rest + (own + other))[id := x] == (rest + own) + other + map[id := x]
  {
  }

  /** The book after an add: own side plus remainder, other side swept. */
  lemma BookAfterAdd(e: Engine, o: OrderAdd, rest: Orders)
    requires Orderly(e) && IndexComplete(e) && !IdRests(AfterMatch(e, o), o.orderId)
    ensures var opp := Opposite(o.side);
            var r := Sweep(QuotesOf(e, opp), o, o.volume);
            rest + BookOf(AddOrder(e, o).engine, o.ticker)
              == Spread(rest + OrdersOf(QuotesOf(e, o.side), o.ticker, o.side), r.left, o, opp, r.remaining)
  {
    var opp := Opposite(o.side);
    var own := QuotesOf(e, o.side);
    var r := Sweep(QuotesOf(e, opp), o, o.volume);
    var e' := AddOrder(e, o).engine;
    AddKeepsComplete(e, o);
    BookBySide(e', o.ticker, o.side);
    var O, L := OrdersOf(own, o.ticker, o.side), OrdersOf(r.left, o.ticker, opp);
    if r.remaining > 0 {
      var x := AsQuote(o, r.remaining);
      assert QuotesOf(e', o.side) == Insert(own, o.side, x) && QuotesOf(e', opp) == r.left;
      OrdersInsert(own, o.ticker, o.side, x);
      LeftLacks(e, o);
      RegroupRested(rest, O, L, o.orderId, OpenOf(o, r.remaining));
    } else {
      assert QuotesOf(e', o.side) == own && QuotesOf(e', opp) == r.left;
      RegroupFilled(rest, O, L);
    }
  }

  lemma LeftLacks(e: Engine, o: OrderAdd)
    requires !IdRests(AfterMatch(e, o), o.orderId)
    ensures var opp := Opposite(o.side);
            o.orderId !in OrdersOf(Sweep(QuotesOf(e, opp), o, o.volume).left, o.ticker, opp)
  {
    OrdersKeys(Sweep(QuotesOf(e, Opposite(o.side)), o, o.volume).left, o.ticker, Opposite(o.side));
  }

  /** The replica right after the add event, ready for the sweep's trades. */
  lemma BookBeforeAdd(e: Engine, o: OrderAdd, rest: Orders)
    requires IndexComplete(e) && o.volume > 0
    ensures var opp := Opposite(o.side);
            (rest + BookOf(e, o.ticker))[o.orderId := OpenOf(o, o.volume)]
              == Spread(rest + OrdersOf(QuotesOf(e, o.side), o.ticker, o.side), QuotesOf(e, opp), o, opp, o.volume)
  {
    var opp := Opposite(o.side);
    BookBySide(e, o.ticker, o.side);
    RegroupArriving(rest, OrdersOf(QuotesOf(e, o.side), o.ticker, o.side), OrdersOf(QuotesOf(e, opp), o.ticker, opp),
                    o.orderId, OpenOf(o, o.volume));
  }

  lemma SweptUnrelated(e: Engine, o: OrderAdd, rest: Orders)
    requires IndexComplete(e) && !IdRests(e, o.orderId)
    requires o.orderId !in rest && rest.Keys !! BookOf(e, o.ticker).Keys
    ensures Unrelated(rest + OrdersOf(QuotesOf(e, o.side), o.ticker, o.side), QuotesOf(e, Opposite(o.side)), o)
  {
    var opp := Opposite(o.side);
    var q := QuotesOf(e, opp);
    SidesApart(e, o.ticker);
    OrdersKeys(q, o.ticker, opp);
    OrdersKeys(QuotesOf(e, o.side), o.ticker, o.side);
    forall i | 0 <= i < |q| ensures q[i].orderId in OrdersOf(q, o.ticker, opp) {
      assert HasId(q, q[i].orderId);
    }
  }

  lemma ApplyAddThenTrades(r: Orders, o: OrderAdd, ts: seq<Trade>)
    ensures ApplyEvents(r, Published(Add(o), ts))
         == ApplyEvents(r[o.orderId := OpenOf(o, o.volume)], AsEvents(ts))
  {
    assert ([AddEvent(o)] + AsEvents(ts))[1..] == AsEvents(ts);
  }

  /** A positive add of a listed ticker under an id open nowhere. */
  predicate NewOrder(engines: Engines, o: OrderAdd) {
    Listed(Add(o)) && o.volume > 0 && o.orderId !in Mirror(engines)
  }

  lemma AddBecomesRest(engines: Engines, o: OrderAdd)
    requires Separate(engines) && NewOrder(engines, o)
    ensures var i := TickerIndex(o.ticker);
            Updated(engines, Add(o))
              == Outside(Mirror(engines), engines[i], o.ticker) + BookOf(AddOrder(engines[i], o).engine, o.ticker)
  {
    var i := TickerIndex(o.ticker);
    var e, M := engines[i], Mirror(engines);
    var rest := Outside(M, e, o.ticker);
    var opp := Opposite(o.side);
    MirrorSplit(engines, i);
    BookKeys(e, o.ticker, o.orderId);
    MirrorKeys(engines, LISTED, o.orderId);
    assert EngineHasId(engines, i, o.orderId) <==> IdRests(e, o.orderId);
    BookBeforeAdd(e, o, rest);
    SweptUnrelated(e, o, rest);
    SweepReplayed(rest + OrdersOf(QuotesOf(e, o.side), o.ticker, o.side), QuotesOf(e, opp), o, opp, o.volume);
    MatchKeepsComplete(e, o);
    BookAfterAdd(e, o, rest);
    ApplyAddThenTrades(M, o, AddOrder(e, o).trades);
  }

  lemma NewOrderAgrees(engines: Engines, o: OrderAdd)
    requires Separate(engines) && NewOrder(engines, o)
    ensures Agrees(engines, Add(o)) && Separate(Route(engines, Add(o)).engines)
  {
    var i := TickerIndex(o.ticker);
    var e, e' := engines[i], AddOrder(engines[i], o).engine;
    MirrorKeys(engines, LISTED, o.orderId);
    assert EngineHasId(engines, i, o.orderId) <==> IdRests(e, o.orderId);
    AddBecomesRest(engines, o);
    AddKeepsWellFormed(e, o);
    MatchKeepsComplete(e, o);
    AddKeepsComplete(e, o);
    IdsAfterAdd(e, o);
    SeparateApart(engines, i);
    assert Apart(engines, i, e');
    MirrorUpdate(engines, i, e', LISTED);
    SeparateUpdate(engines, i, e');
    SeparateOnePerId(Route(engines, Add(o)).engines);
  }

  // ----- cancels -----

  lemma CutOneSide(bids: Orders, asks: Orders, id: OrderId)
    requires bids.Keys !! asks.Keys
    ensures id in bids ==> (bids - {id}) + asks == (bids + asks) - {id}
    ensures id in asks ==> bids + (asks - {id}) == (bids + asks) - {id}
  {
  }

  lemma BookAfterCancel(e: Engine, c: OrderCancel, ticker: Ticker)
    requires WellFormed(e) && IndexComplete(e) && OwnRests(e, c)
    ensures BookOf(CancelOrder(e, c), ticker) == BookOf(e, ticker) - {c.orderId}
    ensures forall id :: IdRests(CancelOrder(e, c), id) ==> IdRests(e, id)
  {
    var side := if OwnIn(e.bids, c) then Buy else Sell;
    var q := QuotesOf(e, side);
    var k :| 0 <= k < |q| && q[k].orderId == c.orderId && q[k].userId == c.userId;
    CancelRemovesExactlyOne(e, c, side, k);
    OrdersCut(q, ticker, side, k);
    OrdersKeys(q, ticker, side);
    assert HasId(q, c.orderId);
    SidesApart(e, ticker);
    CutOneSide(OrdersOf(e.bids, ticker, Buy), OrdersOf(e.asks, ticker, Sell), c.orderId);
    forall id | IdRests(CancelOrder(e, c), id) ensures IdRests(e, id) {
      BookKeys(CancelOrder(e, c), ticker, id);
      BookKeys(e, ticker, id);
    }
  }

  lemma CancelEventRemoves(r: Orders, c: OrderCancel)
    ensures ApplyEvents(r, Published(Cancel(c), [])) == r - {c.orderId}
  {
    assert [CancelEvent(c)][1..] == [];
  }

  /** A cancel the engine does not accept leaves every engine as it was. */
  lemma CancelIgnored(engines: Engines, c: OrderCancel)
    requires Separate(engines)
    requires Listed(Cancel(c)) ==> !OwnRests(engines[TickerIndex(c.ticker)], c)
    ensures Route(engines, Cancel(c)).engines == engines
  {
    if Listed(Cancel(c)) {
      var i := TickerIndex(c.ticker);
      var e := engines[i];
      if IdRests(e, c.orderId) {
        var side := if HasId(e.bids, c.orderId) then Buy else Sell;
        var q := QuotesOf(e, side);
        var k :| 0 <= k < |q| && q[k].orderId == c.orderId;
        CancelRemovesExactlyOne(e, c, side, k);
      } else {
        CancelOfUnknown(e, c);
      }
      assert engines[i := e] == engines;
    }
  }

  lemma MinusInside(m: Orders, book: Orders, id: OrderId)
    requires id in book
    ensures (m - book.Keys) + (book - {id}) == ((m - book.Keys) + book) - {id}
  {
  }

  lemma CancelAccepted(engines: Engines, c: OrderCancel)
    requires Separate(engines) && Listed(Cancel(c)) && OwnRests(engines[TickerIndex(c.ticker)], c)
    ensures Agrees(engines, Cancel(c)) && Separate(Route(engines, Cancel(c)).engines)
  {
    var i := TickerIndex(c.ticker);
    var e, e' := engines[i], CancelOrder(engines[i], c);
    CancelEventRemoves(Mirror(engines), c);
    BookAfterCancel(e, c, c.ticker);
    BookKeys(e, c.ticker, c.orderId);
    SeparateApart(engines, i);
    assert Apart(engines, i, e');
    MirrorUpdate(engines, i, e', LISTED);
    MirrorSplit(engines, i);
    MinusInside(Mirror(engines), BookOf(e, c.ticker), c.orderId);
    CancelKeepsWellFormed(e, c);
    CancelKeepsComplete(e, c);
    SeparateUpdate(engines, i, e');
    SeparateOnePerId(Route(engines, Cancel(c)).engines);
  }

  /** A cancel event always removes the id from the replica, so the two agree exactly when the
      engine removed it too or nobody had it. */
  lemma CancelAgreesExactlyWhen(engines: Engines, c: OrderCancel)
    requires Separate(engines)
    ensures Agrees(engines, Cancel(c)) <==> WellBehaved(engines, Cancel(c))
    ensures Separate(Route(engines, Cancel(c)).engines)
  {
    CancelEventRemoves(Mirror(engines), c);
    if Listed(Cancel(c)) && OwnRests(engines[TickerIndex(c.ticker)], c) {
      CancelAccepted(engines, c);
    } else {
      CancelIgnored(engines, c);
      SeparateOnePerId(engines);
      assert Mirror(engines) - {c.orderId} == Mirror(engines) <==> c.orderId !in Mirror(engines);
    }
  }
}
