/** The replica in the middle of an add: it has the add and the first of its trades. What it shows is
    the book with those trades applied and, under the add's own id, what it takes to be left of the
    add; and it is compared with the book the engine has at that moment. */
module ReplicaMidway {
  import opened Types
  import opened Quotes
  import opened EngineModel
  import opened RouterModel
  import opened ReplicaModel
  import opened ReplicaAgreement
  import opened ReplicaReuse
  import opened MatcherTask

  // ----- a book partly filled -----

  lemma FillHeadIds(e: Engine, side: Side, volume: int, id: OrderId)
    requires IdRests(FillHead(e, side, volume), id)
    ensures IdRests(e, id)
    ensures HasId(QuotesOf(FillHead(e, side, volume), side), id) ==> HasId(QuotesOf(e, side), id)
  {
    var q, q' := QuotesOf(e, side), QuotesOf(FillHead(e, side, volume), side);
    if HasId(q', id) {
      var k :| 0 <= k < |q'| && q'[k].orderId == id;
      if q != [] {
        assert q[if volume == q[0].volume then k + 1 else k].orderId == id;
      }
    }
  }

  lemma {:induction false} FilledIds(e: Engine, side: Side, fills: seq<Trade>, id: OrderId)
    requires IdRests(Filled(e, side, fills), id)
    ensures IdRests(e, id)
    ensures HasId(QuotesOf(Filled(e, side, fills), side), id) ==> HasId(QuotesOf(e, side), id)
  {
    if fills == [] {
    } else {
      var init, last := fills[..|fills| - 1], fills[|fills| - 1];
      FilledOneMore(e, side, init, last);
      assert init + [last] == fills;
      FillHeadIds(Filled(e, side, init), side, last.volume, id);
      FilledIds(e, side, init, id);
    }
  }

  lemma {:induction false} FilledOtherSide(e: Engine, side: Side, fills: seq<Trade>)
    ensures QuotesOf(Filled(e, side, fills), Opposite(side)) == QuotesOf(e, Opposite(side))
  {
    if fills == [] {
    } else {
      var init, last := fills[..|fills| - 1], fills[|fills| - 1];
      FilledOneMore(e, side, init, last);
      assert init + [last] == fills;
      FilledOtherSide(e, side, init);
    }
  }

  lemma SwapSides(a: Orders, b: Orders)
    requires a.Keys !! b.Keys
    ensures a + b == b + a
  {
  }

  /** A book partly filled may still be read own side first. */
  lemma FilledBySide(e: Engine, o: OrderAdd, fills: seq<Trade>)
    requires IndexComplete(e)
    ensures var opp := Opposite(o.side);
            var e' := Filled(e, opp, fills);
            BookOf(e', o.ticker)
              == OrdersOf(QuotesOf(e, o.side), o.ticker, o.side) + OrdersOf(QuotesOf(e', opp), o.ticker, opp)
  {
    var opp := Opposite(o.side);
    var e' := Filled(e, opp, fills);
    var own, left := OrdersOf(QuotesOf(e, o.side), o.ticker, o.side), OrdersOf(QuotesOf(e', opp), o.ticker, opp);
    FilledOtherSide(e, opp, fills);
    OrdersKeys(QuotesOf(e, o.side), o.ticker, o.side);
    OrdersKeys(QuotesOf(e', opp), o.ticker, opp);
    forall id | id in left ensures id !in own {
      FilledIds(e, opp, fills, id);
      CoveredApart(e, id);
    }
    SwapSides(own, left);
  }

  /** One side of a book after a fill of its front. */
  function Bitten(q: seq<Quote>, volume: int): seq<Quote> {
    if q == [] then []
    else if volume == q[0].volume then q[1..] else [q[0].(volume := q[0].volume - volume)] + q[1..]
  }

  /** And after several. */
  function Eaten(q: seq<Quote>, fills: seq<Trade>): seq<Quote>
    decreases |fills|
  {
    if fills == [] then q else Eaten(Bitten(q, fills[0].volume), fills[1..])
  }

  lemma FillHeadBites(e: Engine, side: Side, volume: int)
    ensures QuotesOf(FillHead(e, side, volume), side) == Bitten(QuotesOf(e, side), volume)
  {
  }

  lemma {:induction false} FilledQuotes(e: Engine, side: Side, fills: seq<Trade>)
    ensures QuotesOf(Filled(e, side, fills), side) == Eaten(QuotesOf(e, side), fills)
    decreases |fills|
  {
    if fills == [] {
    } else {
      assert fills == [fills[0]] + fills[1..];
      FilledFirst(e, side, fills[0], fills[1..]);
      FilledQuotes(FillHead(e, side, fills[0].volume), side, fills[1..]);
      FillHeadBites(e, side, fills[0].volume);
    }
  }

  lemma EatenFirst(q: seq<Quote>, t: Trade, fills: seq<Trade>)
    ensures Eaten(q, [t] + fills) == Eaten(Bitten(q, t.volume), fills)
  {
    assert ([t] + fills)[1..] == fills;
  }

  lemma BittenIds(q: seq<Quote>, volume: int, id: OrderId)
    ensures HasId(Bitten(q, volume), id) ==> HasId(q, id)
  {
    var q' := Bitten(q, volume);
    if HasId(q', id) {
      var k :| 0 <= k < |q'| && q'[k].orderId == id;
      assert q[k + |q| - |q'|].orderId == id;
    }
  }

  lemma BittenDistinct(q: seq<Quote>, volume: int)
    requires DistinctIds(q)
    ensures DistinctIds(Bitten(q, volume))
  {
  }

  lemma {:induction false} EatenIds(q: seq<Quote>, fills: seq<Trade>, id: OrderId)
    requires HasId(Eaten(q, fills), id)
    ensures HasId(q, id)
    decreases |fills|
  {
    if fills == [] {
    } else {
      EatenIds(Bitten(q, fills[0].volume), fills[1..], id);
      BittenIds(q, fills[0].volume, id);
    }
  }

  lemma {:induction false} EatenDistinct(q: seq<Quote>, fills: seq<Trade>)
    requires DistinctIds(q)
    ensures DistinctIds(Eaten(q, fills))
    decreases |fills|
  {
    if fills == [] {
    } else {
      BittenDistinct(q, fills[0].volume);
      EatenDistinct(Bitten(q, fills[0].volume), fills[1..]);
    }
  }

  /** The books while the first `fills` of `o` have been applied. */
  function Running(engines: Engines, o: OrderAdd, fills: seq<Trade>): Engines {
    WithEngine(engines, o.ticker, Filled(EngineOf(engines, o.ticker), Opposite(o.side), fills))
  }

  lemma MirrorMidAdd(engines: Engines, o: OrderAdd, fills: seq<Trade>)
    requires Separate(engines) && ListedTicker(o.ticker)
    ensures var e, opp := EngineOf(engines, o.ticker), Opposite(o.side);
            var out, own := Outside(Mirror(engines), e, o.ticker), OrdersOf(QuotesOf(e, o.side), o.ticker, o.side);
            Mirror(Running(engines, o, fills))
              == out + (own + OrdersOf(Eaten(QuotesOf(e, opp), fills), o.ticker, opp))
  {
    var i, opp := TickerIndex(o.ticker), Opposite(o.side);
    var e := engines[i];
    var e' := Filled(e, opp, fills);
    SeparateApart(engines, i);
    forall j, id | 0 <= j < LISTED && j != i && IdRests(e', id) ensures !EngineHasId(engines, j, id) {
      FilledIds(e, opp, fills, id);
    }
    MirrorUpdate(engines, i, e', LISTED);
    FilledBySide(e, o, fills);
    FilledQuotes(e, opp, fills);
  }

  // ----- the entry under the add's own id -----

  /** What the replica takes to be left of the add: a fill of an order with the add's own id counts
      twice. */
  function Unfilled(o: OrderAdd, fills: seq<Trade>): int {
    o.volume - TradedVolume(fills) - MadeBy(fills, o.orderId)
  }

  /** `r` has exactly this much of `o`. */
  predicate Entered(r: Orders, o: OrderAdd, volume: int) {
    if volume > 0 then o.orderId in r && r[o.orderId] == OpenOf(o, volume) else o.orderId !in r
  }

  lemma TradeEntered(r: Orders, o: OrderAdd, t: Trade, volume: int)
    requires Entered(r, o, volume) && t.takerOrderId == o.orderId && t.volume > 0
    ensures Entered(ApplyEvent(r, TradeEvent(t)), o,
                    volume - t.volume - (if t.makerOrderId == o.orderId then t.volume else 0))
  {
  }

  lemma {:induction false} TradesEntered(r: Orders, o: OrderAdd, ts: seq<Trade>, volume: int)
    requires Entered(r, o, volume) && TakenBy(ts, o.orderId)
    ensures Entered(ApplyEvents(r, AsEvents(ts)), o, volume - TradedVolume(ts) - MadeBy(ts, o.orderId))
    decreases |ts|
  {
    if ts == [] {
      ApplyNothing(r);
    } else {
      var t, made := ts[0], if ts[0].makerOrderId == o.orderId then ts[0].volume else 0;
      assert ts == [t] + ts[1..];
      ApplyFirstTrade(r, t, ts[1..]);
      TradeEntered(r, o, t, volume);
      TradesEntered(ApplyEvent(r, TradeEvent(t)), o, ts[1..], volume - t.volume - made);
    }
  }

  /** The first of some fills, and what the rest of them are the fills of. */
  lemma FirstFill(q: seq<Quote>, o: OrderAdd, remaining: int, fills: seq<Trade>)
    requires fills != [] && fills <= Sweep(q, o, remaining).trades
    ensures q != [] && remaining > 0
    ensures remaining < q[0].volume ==> fills == [Execute(o, q[0], remaining)]
    ensures remaining >= q[0].volume ==>
              && fills == [Execute(o, q[0], q[0].volume)] + fills[1..]
              && fills[1..] <= Sweep(q[1..], o, remaining - q[0].volume).trades
  {
  }

  // ----- every other id -----

  lemma {:induction false} FillsElsewhere(r: Orders, rest: Orders, q: seq<Quote>, o: OrderAdd, side: Side,
                                          remaining: int, fills: seq<Trade>)
    requires Positive(q) && DistinctIds(q) && forall i :: 0 <= i < |q| ==> q[i].orderId !in rest
    requires r - {o.orderId} == (rest + OrdersOf(q, o.ticker, side)) - {o.orderId}
    requires fills <= Sweep(q, o, remaining).trades
    ensures ApplyEvents(r, AsEvents(fills)) - {o.orderId}
         == (rest + OrdersOf(Eaten(q, fills), o.ticker, side)) - {o.orderId}
    decreases |q|
  {
    if fills == [] {
      ApplyNothing(r);
    } else if remaining < q[0].volume {
      var t := Execute(o, q[0], remaining);
      FirstFill(q, o, remaining, fills);
      assert fills == [t] + [];
      PartialFillElsewhere(r, rest, q, o, side, remaining);
      EatenFirst(q, t, []);
      ApplyFirstTrade(r, t, []);
      ApplyNothing(ApplyEvent(r, TradeEvent(t)));
    } else {
      var t := Execute(o, q[0], q[0].volume);
      FirstFill(q, o, remaining, fills);
      FullFillElsewhere(r, rest, q, o, side);
      EatenFirst(q, t, fills[1..]);
      FillsElsewhere(ApplyEvent(r, TradeEvent(t)), rest, q[1..], o, side, remaining - q[0].volume, fills[1..]);
      ApplyFirstTrade(r, t, fills[1..]);
    }
  }

  // ----- what is shown -----

  /** The replica once it has the add and these of its trades. */
  function Shown(engines: Engines, o: OrderAdd, fills: seq<Trade>): Orders {
    ApplyEvents(Mirror(engines), Published(Add(o), fills))
  }

  function OwnEntry(o: OrderAdd, fills: seq<Trade>): Orders {
    if fills == [] then map[o.orderId := OpenOf(o, o.volume)] else Taker(o, Unfilled(o, fills))
  }

  lemma FillsTaken(e: Engine, o: OrderAdd, fills: seq<Trade>)
    requires Orderly(e) && fills != [] && fills <= AddOrder(e, o).trades
    ensures TakenBy(fills, o.orderId) && o.volume > 0
  {
    MadeByMakers(QuotesOf(e, Opposite(o.side)), o, o.volume, o.orderId);
  }

  /** The replica's other entries, and everybody's but those of the swept side. */
  function Bystanders(engines: Engines, o: OrderAdd): Orders {
    var e := EngineOf(engines, o.ticker);
    Outside(Mirror(engines), e, o.ticker) + OrdersOf(QuotesOf(e, o.side), o.ticker, o.side)
  }

  lemma AddedElsewhere(engines: Engines, o: OrderAdd)
    requires Separate(engines) && ListedTicker(o.ticker) && o.volume > 0
    ensures var q, opp := QuotesOf(EngineOf(engines, o.ticker), Opposite(o.side)), Opposite(o.side);
            && Mirror(engines)[o.orderId := OpenOf(o, o.volume)] - {o.orderId}
               == (Bystanders(engines, o) + OrdersOf(q, o.ticker, opp)) - {o.orderId}
            && (forall i :: 0 <= i < |q| ==> q[i].orderId !in Bystanders(engines, o))
  {
    var i, opp := TickerIndex(o.ticker), Opposite(o.side);
    var e, out := engines[i], Outside(Mirror(engines), engines[i], o.ticker);
    MirrorSplit(engines, i);
    BookBeforeAdd(e, o, out);
    WithoutTaker(Bystanders(engines, o), QuotesOf(e, opp), o, opp, o.volume);
    SweptElsewhere(e, o, out);
  }

  lemma RunningMirror(engines: Engines, o: OrderAdd, fills: seq<Trade>)
    requires Separate(engines) && ListedTicker(o.ticker)
    ensures Mirror(Running(engines, o, fills))
         == Bystanders(engines, o)
            + OrdersOf(Eaten(QuotesOf(EngineOf(engines, o.ticker), Opposite(o.side)), fills),
                       o.ticker, Opposite(o.side))
  {
    var e, opp := EngineOf(engines, o.ticker), Opposite(o.side);
    MirrorMidAdd(engines, o, fills);
    RegroupBooks(Outside(Mirror(engines), e, o.ticker), OrdersOf(QuotesOf(e, o.side), o.ticker, o.side),
                 OrdersOf(Eaten(QuotesOf(e, opp), fills), o.ticker, opp));
  }

  lemma RegroupBooks(a: Orders, b: Orders, c: Orders)
    ensures a + (b + c) == a + b + c
  {
  }

  lemma ShownElsewhere(engines: Engines, o: OrderAdd, fills: seq<Trade>)
    requires Separate(engines) && ListedTicker(o.ticker) && o.volume > 0
    requires fills <= AddOrder(EngineOf(engines, o.ticker), o).trades
    ensures Shown(engines, o, fills) - {o.orderId} == Mirror(Running(engines, o, fills)) - {o.orderId}
  {
    var q := QuotesOf(EngineOf(engines, o.ticker), Opposite(o.side));
    AddedElsewhere(engines, o);
    FillsElsewhere(Mirror(engines)[o.orderId := OpenOf(o, o.volume)], Bystanders(engines, o), q, o, Opposite(o.side),
                   o.volume, fills);
    ApplyAddThenTrades(Mirror(engines), o, fills);
    RunningMirror(engines, o, fills);
  }

  lemma ShownEntry(engines: Engines, o: OrderAdd, fills: seq<Trade>)
    requires Orderly(EngineOf(engines, o.ticker))
    requires fills != [] && fills <= AddOrder(EngineOf(engines, o.ticker), o).trades
    ensures Entered(Shown(engines, o, fills), o, Unfilled(o, fills))
  {
    FillsTaken(EngineOf(engines, o.ticker), o, fills);
    ApplyAddThenTrades(Mirror(engines), o, fills);
    TradesEntered(Mirror(engines)[o.orderId := OpenOf(o, o.volume)], o, fills, o.volume);
  }

  lemma Composed(r: Orders, m: Orders, o: OrderAdd, volume: int)
    requires r - {o.orderId} == m - {o.orderId} && Entered(r, o, volume)
    ensures r == (m - {o.orderId}) + Taker(o, volume)
  {
    assert forall id :: id in r && id != o.orderId ==> id in r - {o.orderId} && r[id] == (r - {o.orderId})[id];
  }

  lemma ShownAtFirst(engines: Engines, o: OrderAdd)
    requires ListedTicker(o.ticker)
    ensures Shown(engines, o, []) == (Mirror(Running(engines, o, [])) - {o.orderId}) + OwnEntry(o, [])
  {
    var m := Mirror(engines);
    ApplyAddThenTrades(m, o, []);
    ApplyNothing(m[o.orderId := OpenOf(o, o.volume)]);
    EngineSet(engines, o.ticker, EMPTY, EMPTY);
    assert Running(engines, o, []) == engines;
    OneEntry(m, o.orderId, OpenOf(o, o.volume));
  }

  lemma OneEntry(m: Orders, id: OrderId, x: Open)
    ensures m[id := x] == (m - {id}) + map[id := x]
  {
  }

  /** With the first trades of an add the replica shows the book with those trades applied and its
      own figure of what is left of the add; any add, under whatever id. */
  lemma ShownMidAdd(engines: Engines, o: OrderAdd, fills: seq<Trade>)
    requires Separate(engines) && ListedTicker(o.ticker)
    requires fills <= AddOrder(EngineOf(engines, o.ticker), o).trades
    ensures Shown(engines, o, fills) == (Mirror(Running(engines, o, fills)) - {o.orderId}) + OwnEntry(o, fills)
  {
    if fills == [] {
      ShownAtFirst(engines, o);
    } else {
      FillsTaken(EngineOf(engines, o.ticker), o, fills);
      ShownElsewhere(engines, o, fills);
      ShownEntry(engines, o, fills);
      Composed(Shown(engines, o, fills), Mirror(Running(engines, o, fills)), o, Unfilled(o, fills));
    }
  }

  // ----- against the book at that moment -----

  lemma {:induction false} OrdersOnSide(q: seq<Quote>, ticker: Ticker, side: Side, id: OrderId)
    requires id in OrdersOf(q, ticker, side)
    ensures OrdersOf(q, ticker, side)[id].side == side
  {
    if id == q[0].orderId {
    } else {
      OrdersOnSide(q[1..], ticker, side, id);
    }
  }

  lemma {:induction false} MadeByNobody(q: seq<Quote>, o: OrderAdd, remaining: int, fills: seq<Trade>, id: OrderId)
    requires Positive(q) && !HasId(q, id) && fills <= Sweep(q, o, remaining).trades
    ensures MadeBy(fills, id) == 0
    decreases |q|
  {
    if fills == [] {
    } else if remaining < q[0].volume {
      assert fills == [Execute(o, q[0], remaining)] && fills[1..] == [];
    } else {
      assert fills[1..] <= Sweep(q[1..], o, remaining - q[0].volume).trades;
      assert !HasId(q[1..], id);
      MadeByNobody(q[1..], o, remaining - q[0].volume, fills[1..], id);
    }
  }

  lemma {:induction false} MadeByNonNegative(ts: seq<Trade>, taker: OrderId, id: OrderId)
    requires TakenBy(ts, taker)
    ensures MadeBy(ts, id) >= 0
  {
    if ts == [] {
    } else {
      assert TakenBy(ts[1..], taker);
      MadeByNonNegative(ts[1..], taker, id);
    }
  }

  lemma GoneWithFirst(q: seq<Quote>, fills: seq<Trade>)
    requires q != [] && DistinctIds(q)
    ensures !HasId(Eaten(q[1..], fills), q[0].orderId)
  {
    assert !HasId(q[1..], q[0].orderId);
    if HasId(Eaten(q[1..], fills), q[0].orderId) {
      EatenIds(q[1..], fills, q[0].orderId);
    }
  }

  /** An order that the sweep will use up is there until a fill names it. */
  lemma {:induction false} ThereUntilFilled(q: seq<Quote>, o: OrderAdd, remaining: int, fills: seq<Trade>, id: OrderId)
    requires Positive(q) && DistinctIds(q) && id in Sweep(q, o, remaining).filled
    requires fills <= Sweep(q, o, remaining).trades && TakenBy(fills, o.orderId)
    ensures HasId(Eaten(q, fills), id) <==> MadeBy(fills, id) == 0
    decreases |q|
  {
    LeftIds(q, o, remaining, id);
    if fills == [] {
    } else {
      var t := Execute(o, q[0], q[0].volume);
      FirstFill(q, o, remaining, fills);
      assert TakenBy(fills[1..], o.orderId);
      EatenFirst(q, t, fills[1..]);
      if q[0].orderId == id {
        MadeByNonNegative(fills[1..], o.orderId, id);
        GoneWithFirst(q, fills[1..]);
      } else {
        ThereUntilFilled(q[1..], o, remaining - q[0].volume, fills[1..], id);
      }
    }
  }

  /** The add's own id in the running books: an older order under it, until it is filled. */
  lemma OwnIdRunning(engines: Engines, o: OrderAdd, fills: seq<Trade>)
    requires Separate(engines) && WellBehaved(engines, Add(o))
    requires fills <= AddOrder(EngineOf(engines, o.ticker), o).trades
    ensures var m := Mirror(Running(engines, o, fills));
            && (o.orderId in m <==> o.orderId in Mirror(engines) && MadeBy(fills, o.orderId) == 0)
            && (o.orderId in m ==> m[o.orderId].side != o.side)
  {
    RunningMirror(engines, o, fills);
    OwnIdElsewhere(engines, o);
    var e, opp := EngineOf(engines, o.ticker), Opposite(o.side);
    var q := QuotesOf(e, opp);
    var left := OrdersOf(Eaten(q, fills), o.ticker, opp);
    OrdersKeys(Eaten(q, fills), o.ticker, opp);
    if o.orderId in left { OrdersOnSide(Eaten(q, fills), o.ticker, opp, o.orderId); }
    OwnIdSwept(engines, o, fills);
  }

  lemma OwnIdElsewhere(engines: Engines, o: OrderAdd)
    requires Separate(engines) && WellBehaved(engines, Add(o))
    ensures o.orderId !in Bystanders(engines, o)
    ensures var q := QuotesOf(EngineOf(engines, o.ticker), Opposite(o.side));
            && (HasId(q, o.orderId) <==> o.orderId in Mirror(engines))
            && (HasId(q, o.orderId) ==> o.orderId in Sweep(q, o, o.volume).filled)
  {
    var i := TickerIndex(o.ticker);
    var e := engines[i];
    MirrorKeys(engines, LISTED, o.orderId);
    assert EngineHasId(engines, i, o.orderId) <==> IdRests(e, o.orderId);
    BookKeys(e, o.ticker, o.orderId);
    OrdersKeys(QuotesOf(e, o.side), o.ticker, o.side);
    if o.orderId in Mirror(engines) {
      FillsNamesakeExactlyWhen(e, o);
      LeftIds(QuotesOf(e, Opposite(o.side)), o, o.volume, o.orderId);
      CoveredApart(e, o.orderId);
    }
  }

  lemma OwnIdSwept(engines: Engines, o: OrderAdd, fills: seq<Trade>)
    requires Separate(engines) && WellBehaved(engines, Add(o))
    requires fills <= AddOrder(EngineOf(engines, o.ticker), o).trades
    ensures var q := QuotesOf(EngineOf(engines, o.ticker), Opposite(o.side));
            HasId(Eaten(q, fills), o.orderId) <==> o.orderId in Mirror(engines) && MadeBy(fills, o.orderId) == 0
  {
    var e := EngineOf(engines, o.ticker);
    var q := QuotesOf(e, Opposite(o.side));
    OwnIdElsewhere(engines, o);
    if HasId(q, o.orderId) {
      MadeByMakers(q, o, o.volume, o.orderId);
      ThereUntilFilled(q, o, o.volume, fills, o.orderId);
    } else if HasId(Eaten(q, fills), o.orderId) {
      EatenIds(q, fills, o.orderId);
    }
  }

  /** The older order under the add's id, if there was one, has been filled, and nothing is left of
      the add beyond what that fill took off the replica's entry a second time. */
  predicate OwnIdSettled(engines: Engines, o: OrderAdd, fills: seq<Trade>) {
    (o.orderId in Mirror(engines) ==> MadeBy(fills, o.orderId) > 0) && Unfilled(o, fills) <= 0
  }

  lemma ComposedSame(m: Orders, o: OrderAdd, own: Orders, volume: int)
    requires own == (if volume > 0 then map[o.orderId := OpenOf(o, volume)] else map[])
    requires o.orderId in m ==> m[o.orderId].side != o.side
    ensures (m - {o.orderId}) + own == m <==> o.orderId !in m && volume <= 0
  {
    var r := (m - {o.orderId}) + own;
    if volume > 0 {
      assert o.orderId in r && r[o.orderId] == OpenOf(o, volume);
    } else if o.orderId in m {
      assert o.orderId !in r;
    } else {
      assert r == m;
    }
  }

  lemma NoneMadeYet(engines: Engines, o: OrderAdd, fills: seq<Trade>)
    requires Orderly(EngineOf(engines, o.ticker)) && fills <= AddOrder(EngineOf(engines, o.ticker), o).trades
    ensures MadeBy(fills, o.orderId) >= 0
  {
    if fills == [] {
    } else {
      FillsTaken(EngineOf(engines, o.ticker), o, fills);
      MadeByNonNegative(fills, o.orderId, o.orderId);
    }
  }

  /** Between two fills of a well-behaved add the replica has the running books exactly when its own
      id is settled. */
  lemma RightBetweenFills(engines: Engines, o: OrderAdd, fills: seq<Trade>)
    requires Separate(engines) && WellBehaved(engines, Add(o))
    requires fills <= AddOrder(EngineOf(engines, o.ticker), o).trades
    ensures Shown(engines, o, fills) == Mirror(Running(engines, o, fills)) <==> OwnIdSettled(engines, o, fills)
  {
    ShownMidAdd(engines, o, fills);
    OwnIdRunning(engines, o, fills);
    NoneMadeYet(engines, o, fills);
    ComposedSame(Mirror(Running(engines, o, fills)), o, OwnEntry(o, fills), Unfilled(o, fills));
  }

  lemma {:induction false} EatenOneMore(q: seq<Quote>, fills: seq<Trade>, t: Trade)
    ensures Eaten(q, fills + [t]) == Bitten(Eaten(q, fills), t.volume)
    decreases |fills|
  {
    if fills == [] {
      assert fills + [t] == [t] + [];
      EatenFirst(q, t, []);
    } else {
      EatenOneMore(Bitten(q, fills[0].volume), fills[1..], t);
      assert fills + [t] == [fills[0]] + (fills[1..] + [t]);
      EatenFirst(q, fills[0], fills[1..] + [t]);
    }
  }

  predicate IsFillOf(t: Trade, q: seq<Quote>) {
    q != [] && t.makerOrderId == q[0].orderId && 0 < t.volume <= q[0].volume
  }

  lemma FirstIsFill(q: seq<Quote>, o: OrderAdd, remaining: int, t: Trade)
    requires Positive(q) && [t] <= Sweep(q, o, remaining).trades
    ensures IsFillOf(t, q)
  {
    FirstFill(q, o, remaining, [t]);
    assert [t][0] == Execute(o, q[0], Min(remaining, q[0].volume));
  }

  /** The next fill is of the order now in front. */
  lemma {:induction false} NextIsFill(q: seq<Quote>, o: OrderAdd, remaining: int, fills: seq<Trade>, t: Trade)
    requires Positive(q) && fills + [t] <= Sweep(q, o, remaining).trades
    ensures IsFillOf(t, Eaten(q, fills))
    decreases |q|
  {
    if fills == [] {
      assert fills + [t] == [t];
      FirstIsFill(q, o, remaining, t);
    } else {
      var rest := fills[1..];
      assert (fills + [t])[1..] == rest + [t] && fills == [fills[0]] + rest;
      FirstFill(q, o, remaining, fills + [t]);
      assert |fills + [t]| > 1 && fills[0] == (fills + [t])[0];
      assert fills[0].volume == q[0].volume && Bitten(q, fills[0].volume) == q[1..];
      NextIsFill(q[1..], o, remaining - q[0].volume, rest, t);
      EatenFirst(q, fills[0], rest);
    }
  }

  lemma NextBite(q: seq<Quote>, o: OrderAdd, remaining: int, fills: seq<Trade>, t: Trade)
    requires Positive(q) && fills + [t] <= Sweep(q, o, remaining).trades
    ensures var left := Eaten(q, fills);
            && left != [] && t.makerOrderId == left[0].orderId && 0 < t.volume <= left[0].volume
            && Eaten(q, fills + [t]) == Bitten(left, t.volume)
  {
    NextIsFill(q, o, remaining, fills, t);
    EatenOneMore(q, fills, t);
  }

  /** Once a fill is announced the order it is of no longer shows what it has. */
  lemma BiteShows(others: Orders, q: seq<Quote>, ticker: Ticker, side: Side, volume: int)
    requires q != [] && DistinctIds(q) && q[0].orderId !in others && 0 < volume <= q[0].volume
    ensures var id := q[0].orderId;
            var was, now := others + OrdersOf(q, ticker, side), others + OrdersOf(Bitten(q, volume), ticker, side);
            && id in was && was[id] == Open(ticker, side, q[0].price, q[0].volume)
            && (id in now ==> now[id].volume == q[0].volume - volume)
  {
    var q' := Bitten(q, volume);
    OrdersKeys(q', ticker, side);
    if volume == q[0].volume {
      assert !HasId(q', q[0].orderId);
    } else {
      assert q'[1..] == q[1..];
    }
  }

  lemma AheadDiffers(was: Orders, now: Orders, o: OrderAdd, own: Orders, id: OrderId)
    requires id in was && was[id].side != o.side && (id in now ==> now[id].volume != was[id].volume)
    requires own.Keys <= {o.orderId} && (o.orderId in own ==> own[o.orderId].side == o.side)
    ensures (now - {o.orderId}) + own != was
  {
    var r := (now - {o.orderId}) + own;
    if id in r {
      assert r[id] != was[id];
    }
  }

  /** With a fill announced and not yet applied the replica is ahead of the book. */
  lemma WrongWithFillInHand(engines: Engines, o: OrderAdd, fills: seq<Trade>, t: Trade)
    requires Separate(engines) && ListedTicker(o.ticker)
    requires fills + [t] <= AddOrder(EngineOf(engines, o.ticker), o).trades
    ensures Shown(engines, o, fills + [t]) != Mirror(Running(engines, o, fills))
  {
    var e, opp := EngineOf(engines, o.ticker), Opposite(o.side);
    var q := QuotesOf(e, opp);
    FillsTaken(e, o, fills + [t]);
    NextBite(q, o, o.volume, fills, t);
    EatenDistinct(q, fills);
    FrontIsNoBystander(engines, o, fills);
    BiteShows(Bystanders(engines, o), Eaten(q, fills), o.ticker, opp, t.volume);
    RunningMirror(engines, o, fills);
    RunningMirror(engines, o, fills + [t]);
    ShownMidAdd(engines, o, fills + [t]);
    AheadDiffers(Mirror(Running(engines, o, fills)), Mirror(Running(engines, o, fills + [t])), o,
                 OwnEntry(o, fills + [t]), t.makerOrderId);
  }

  lemma FrontIsNoBystander(engines: Engines, o: OrderAdd, fills: seq<Trade>)
    requires Separate(engines) && ListedTicker(o.ticker) && o.volume > 0
    requires Eaten(QuotesOf(EngineOf(engines, o.ticker), Opposite(o.side)), fills) != []
    ensures Eaten(QuotesOf(EngineOf(engines, o.ticker), Opposite(o.side)), fills)[0].orderId !in Bystanders(engines, o)
  {
    var q := QuotesOf(EngineOf(engines, o.ticker), Opposite(o.side));
    var id := Eaten(q, fills)[0].orderId;
    AddedElsewhere(engines, o);
    assert HasId(Eaten(q, fills), id);
    EatenIds(q, fills, id);
  }

  /** A well-behaved add that does not fill has a remainder that no book holds yet. */
  lemma RestingUnsettled(engines: Engines, o: OrderAdd)
    requires Separate(engines) && WellBehaved(engines, Add(o))
    requires o.volume > TradedVolume(AddOrder(EngineOf(engines, o.ticker), o).trades)
    ensures !OwnIdSettled(engines, o, AddOrder(EngineOf(engines, o.ticker), o).trades)
  {
    var e := EngineOf(engines, o.ticker);
    var q := QuotesOf(e, Opposite(o.side));
    SweepConserves(q, o, o.volume);
    FillsNamesakeExactlyWhen(e, o);
    OwnIdElsewhere(engines, o);
    MadeByNobody(q, o, o.volume, AddOrder(e, o).trades, o.orderId);
  }

  lemma NewIdNowhere(engines: Engines, o: OrderAdd)
    requires Separate(engines) && ListedTicker(o.ticker) && o.orderId !in Mirror(engines)
    ensures !HasId(QuotesOf(EngineOf(engines, o.ticker), Opposite(o.side)), o.orderId)
  {
    var i := TickerIndex(o.ticker);
    MirrorKeys(engines, LISTED, o.orderId);
    assert EngineHasId(engines, i, o.orderId) <==> IdRests(engines[i], o.orderId);
  }

  /** Under a new id, that means wholly filled. */
  lemma NewIdSettled(engines: Engines, o: OrderAdd, fills: seq<Trade>)
    requires Separate(engines) && ListedTicker(o.ticker) && o.orderId !in Mirror(engines)
    requires fills <= AddOrder(EngineOf(engines, o.ticker), o).trades
    ensures OwnIdSettled(engines, o, fills) <==> o.volume <= TradedVolume(fills)
  {
    NewIdNowhere(engines, o);
    MadeByNobody(QuotesOf(EngineOf(engines, o.ticker), Opposite(o.side)), o, o.volume, fills, o.orderId);
  }
}
