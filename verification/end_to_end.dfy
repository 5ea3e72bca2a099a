/** The exchange seen from outside, bytes in and bytes out: what a Python client sends is what the
    engines run, and what a Python listener decodes is enough to rebuild their books. */
module EndToEnd {
  import opened Types
  import opened Quotes
  import opened EngineModel
  import opened RouterModel
  import opened ReplicaModel
  import opened ReplicaRuns
  import opened Wire
  import opened Gateway

  // ----- fields that fit on the way in fit on the way out -----

  predicate QuoteFits(x: Quote) {
    Int64(x.orderId) && Int64(x.userId) && Int64(x.price) && Int64(x.volume)
  }

  predicate QuotesFit(q: seq<Quote>) {
    forall i :: 0 <= i < |q| ==> QuoteFits(q[i])
  }

  predicate EngineFits(e: Engine) {
    QuotesFit(e.bids) && QuotesFit(e.asks)
  }

  predicate TradesFit(ts: seq<Trade>) {
    forall i :: 0 <= i < |ts| ==> TradeFits(ts[i]) && Plain(ts[i].ticker)
  }

  lemma SweepFits(q: seq<Quote>, o: OrderAdd, remaining: int)
    requires Positive(q) && QuotesFit(q) && AddFits(o) && Plain(o.ticker)
    ensures QuotesFit(Sweep(q, o, remaining).left) && TradesFit(Sweep(q, o, remaining).trades)
  {
    var r := Sweep(q, o, remaining);
    SweepTakesPrefix(q, o, remaining);
    SweepTrades(q, o, remaining);
    forall i | 0 <= i < |r.left| ensures QuoteFits(r.left[i]) {
      assert QuoteFits(q[|r.filled| + i]);
      if i > 0 { assert r.left[i] == r.left[1..][i - 1]; }
    }
    forall i | 0 <= i < |r.trades| ensures TradeFits(r.trades[i]) && Plain(r.trades[i].ticker) {
      assert QuoteFits(q[i]);
    }
  }

  lemma InsertFits(q: seq<Quote>, side: Side, x: Quote)
    requires QuotesFit(q) && QuoteFits(x)
    ensures QuotesFit(Insert(q, side, x))
  {
    var k := InsertPlace(q, side, x);
  }

  lemma WithoutFits(q: seq<Quote>, price: Price, id: OrderId)
    requires QuotesFit(q)
    ensures QuotesFit(Without(q, price, id))
  {
    SelectMembers(q, price, id, false);
    var left := Without(q, price, id);
    forall i | 0 <= i < |left| ensures QuoteFits(left[i]) { assert left[i] in q; }
  }

  lemma AddKeepsFit(e: Engine, o: OrderAdd)
    requires Orderly(e) && EngineFits(e) && AddFits(o) && Plain(o.ticker)
    ensures EngineFits(AddOrder(e, o).engine) && TradesFit(AddOrder(e, o).trades)
  {
    var q := QuotesOf(e, Opposite(o.side));
    var r := Sweep(q, o, o.volume);
    SweepFits(q, o, o.volume);
    if r.remaining > 0 {
      SweepFillsExactly(q, o, o.volume);
      CrossingVolumeNonNegative(q, o);
      InsertFits(QuotesOf(e, o.side), o.side, AsQuote(o, r.remaining));
    }
  }

  lemma CancelKeepsFit(e: Engine, c: OrderCancel)
    requires EngineFits(e)
    ensures EngineFits(CancelOrder(e, c))
  {
    if Accepts(e, c) {
      var loc := e.index[c.orderId];
      WithoutFits(QuotesOf(e, loc.side), loc.price, c.orderId);
    }
  }

  lemma RouteKeepsFit(engines: Engines, cmd: Command)
    requires forall i :: 0 <= i < LISTED ==> Orderly(engines[i]) && EngineFits(engines[i])
    requires CommandFits(cmd) && Plain(NameIn(cmd))
    ensures forall i :: 0 <= i < LISTED ==> EngineFits(Route(engines, cmd).engines[i])
    ensures TradesFit(Route(engines, cmd).trades)
  {
    var i := TickerIndex(TickerOf(cmd));
    if i < LISTED {
      match cmd
      case Add(o) => AddKeepsFit(engines[i], o);
      case Cancel(c) => CancelKeepsFit(engines[i], c);
    }
  }

  predicate EventsFit(events: seq<Event>) {
    forall i :: 0 <= i < |events| ==> EventFits(events[i]) && Plain(NameOn(events[i]))
  }

  lemma PublishedFits(cmd: Command, ts: seq<Trade>)
    requires CommandFits(cmd) && Plain(NameIn(cmd)) && TradesFit(ts)
    ensures EventsFit(Published(cmd, ts))
  {
    var events := Published(cmd, ts);
    forall i | 0 <= i < |events| ensures EventFits(events[i]) && Plain(NameOn(events[i])) {
      if cmd.Add? && i > 0 { assert events[i] == TradeEvent(ts[i - 1]); }
    }
  }

  lemma {:induction false} EnginesFit(cmds: seq<Command>)
    requires AllFit(cmds)
    ensures forall i :: 0 <= i < LISTED ==> EngineFits(RunRouter(cmds).engines[i])
  {
    if cmds == [] {
      assert forall i :: 0 <= i < LISTED ==> RunRouter(cmds).engines[i] == EMPTY;
    } else {
      var init := cmds[..|cmds| - 1];
      EnginesFit(init);
      EnginesOrderly(init);
      RouteKeepsFit(RunRouter(init).engines, cmds[|cmds| - 1]);
    }
  }

  lemma EnginesOrderly(cmds: seq<Command>)
    ensures forall i :: 0 <= i < LISTED ==> Orderly(RunRouter(cmds).engines[i])
  {
    forall i | 0 <= i < LISTED ensures Orderly(RunRouter(cmds).engines[i]) {
      RouterWellFormed(cmds, i);
    }
  }

  /** Every event of the feed can be encoded and read, trades included. */
  lemma {:induction false} FeedFits(cmds: seq<Command>)
    requires AllFit(cmds)
    ensures EventsFit(Feed(cmds))
  {
    if cmds == [] {
    } else {
      var init, cmd := cmds[..|cmds| - 1], cmds[|cmds| - 1];
      FeedFits(init);
      EnginesFit(init);
      EnginesOrderly(init);
      RouteKeepsFit(RunRouter(init).engines, cmd);
      PublishedFits(cmd, Route(RunRouter(init).engines, cmd).trades);
    }
  }

  // ----- the listener over the wire -----

  /** One datagram per event, with any bytes in the unused part of the union. */
  predicate Carries(datagrams: seq<seq<Byte>>, events: seq<Event>) {
    && |datagrams| == |events| && EventsFit(events)
    && forall i :: 0 <= i < |events| ==> Encodes(datagrams[i], events[i])
  }

  predicate Encodes(d: seq<Byte>, e: Event)
    requires EventFits(e)
  {
    |d| == MARKET_SIZE && d == CppEncode(e, d[EventSize(e) + 1..])
  }

  /** Applies every datagram that decodes to an event. */
  function Listen(r: Orders, datagrams: seq<seq<Byte>>): Orders
    decreases |datagrams|
  {
    if datagrams == [] then r
    else
      var d := PyDecode(datagrams[0]);
      Listen(if d.Known? then ApplyEvent(r, d.event) else r, datagrams[1..])
  }

  lemma {:induction false} ListenIsApply(r: Orders, datagrams: seq<seq<Byte>>, events: seq<Event>)
    requires Carries(datagrams, events)
    ensures Listen(r, datagrams) == ApplyEvents(r, events)
    decreases |events|
  {
    if events == [] {
    } else {
      MarketRoundTrip(events[0], datagrams[0][EventSize(events[0]) + 1..]);
      ListenIsApply(ApplyEvent(r, events[0]), datagrams[1..], events[1..]);
    }
  }

  /** Client bytes in, listener state out: the gateway turns the bytes a client sent, however they
      were split, back into its commands; and on a well-behaved stream a listener that decodes
      the exchange's datagrams holds exactly the engines' resting orders. */
  lemma ClientToListener(cmds: seq<Command>, chunks: seq<seq<Byte>>, datagrams: seq<seq<Byte>>)
    requires AllFit(cmds) && Joined(chunks) == Sent(cmds) && WellBehavedRun(cmds)
    requires Carries(datagrams, Feed(cmds))
    ensures DecodesTo(Session(chunks).0, cmds)
    ensures Listen(map[], datagrams) == Mirror(RunRouter(cmds).engines)
  {
    ClientToEngine(cmds, chunks);
    ListenIsApply(map[], datagrams, Feed(cmds));
    ReplicaFollows(cmds);
  }
}
