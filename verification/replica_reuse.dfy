/** An add under an id that is already open. The replica keeps one entry per id, so it loses track of
    the older order; it recovers only if the add fills that order and is itself used up. */
module ReplicaReuse {
  import opened Types
  import opened Quotes
  import opened EngineModel
  import opened RouterModel
  import opened ReplicaModel
  import opened ReplicaAgreement

  // ----- the reused id -----

  /** The entry under `id` is positive and at most `v`, if there is one. */
  predicate AtMost(r: Orders, id: OrderId, v: int) {
    id in r ==> 0 < r[id].volume <= v
  }

  /** Volume traded with makers under this id. */
  function MadeBy(ts: seq<Trade>, id: OrderId): int {
    if ts == [] then 0 else (if ts[0].makerOrderId == id then ts[0].volume else 0) + MadeBy(ts[1..], id)
  }

  predicate TakenBy(ts: seq<Trade>, id: OrderId) {
    forall i :: 0 <= i < |ts| ==> ts[i].takerOrderId == id && ts[i].volume > 0
  }

  lemma TradeShrinksTaker(r: Orders, t: Trade, id: OrderId, v: int)
    requires AtMost(r, id, v) && t.takerOrderId == id && t.volume > 0
    ensures AtMost(ApplyEvent(r, TradeEvent(t)), id, v - t.volume - (if t.makerOrderId == id then t.volume else 0))
  {
  }

  /** Each trade takes its volume off the taker's entry, twice if the maker has the same id. */
  lemma {:induction false} TradesShrinkTaker(r: Orders, ts: seq<Trade>, id: OrderId, v: int)
    requires AtMost(r, id, v) && TakenBy(ts, id)
    ensures AtMost(ApplyEvents(r, AsEvents(ts)), id, v - TradedVolume(ts) - MadeBy(ts, id))
    decreases |ts|
  {
    if ts == [] {
      ApplyNothing(r);
    } else {
      var t := ts[0];
      var made := if t.makerOrderId == id then t.volume else 0;
      assert ts == [t] + ts[1..];
      ApplyFirstTrade(r, t, ts[1..]);
      TradeShrinksTaker(r, t, id, v);
      TradesShrinkTaker(ApplyEvent(r, TradeEvent(t)), ts[1..], id, v - t.volume - made);
    }
  }

  lemma {:induction false} MadeByMakers(q: seq<Quote>, o: OrderAdd, remaining: int, id: OrderId)
    requires Positive(q)
    ensures var r := Sweep(q, o, remaining);
            && TakenBy(r.trades, o.orderId)
            && MadeBy(r.trades, id) >= 0 && (id in r.filled ==> MadeBy(r.trades, id) > 0)
  {
    if remaining > 0 && q != [] && Crosses(o, q[0].price) && q[0].volume <= remaining {
      var rest := Sweep(q[1..], o, remaining - q[0].volume);
      MadeByMakers(q[1..], o, remaining - q[0].volume, id);
      assert ([Execute(o, q[0], q[0].volume)] + rest.trades)[1..] == rest.trades;
    }
  }

  /** What is left to sweep has the ids that were not used up. */
  lemma LeftIds(q: seq<Quote>, o: OrderAdd, remaining: int, id: OrderId)
    requires Positive(q) && DistinctIds(q)
    ensures var r := Sweep(q, o, remaining);
            && (HasId(r.left, id) <==> HasId(q, id) && id !in r.filled)
            && (id in r.filled ==> HasId(q, id))
  {
    var r := Sweep(q, o, remaining);
    var n := |r.filled|;
    SweepTakesPrefix(q, o, remaining);
    assert forall i :: 0 <= i < |r.left| ==> r.left[i].orderId == q[n + i].orderId by {
      forall i | 0 <= i < |r.left| ensures r.left[i].orderId == q[n + i].orderId {
        if i > 0 { assert r.left[i] == r.left[1..][i - 1]; }
      }
    }
    if HasId(q, id) && id !in r.filled {
      var k :| 0 <= k < |q| && q[k].orderId == id;
      assert k >= n;
      assert r.left[k - n].orderId == id;
    }
  }

  /** The replica's entry under the taker's id once all trades are in. */
  lemma EntryAfterSweep(r: Orders, q: seq<Quote>, o: OrderAdd)
    requires Positive(q) && o.volume > 0
    ensures var s := Sweep(q, o, o.volume);
            var r' := ApplyEvents(r[o.orderId := OpenOf(o, o.volume)], AsEvents(s.trades));
            && AtMost(r', o.orderId, s.remaining)
            && (o.orderId in s.filled ==> AtMost(r', o.orderId, s.remaining - 1))
  {
    var s := Sweep(q, o, o.volume);
    MadeByMakers(q, o, o.volume, o.orderId);
    SweepConserves(q, o, o.volume);
    TradesShrinkTaker(r[o.orderId := OpenOf(o, o.volume)], s.trades, o.orderId, o.volume);
  }

  // ----- every other id -----

  lemma FullFillElsewhere(r: Orders, rest: Orders, q: seq<Quote>, o: OrderAdd, side: Side)
    requires q != [] && q[0].volume > 0 && DistinctIds(q) && q[0].orderId !in rest
    requires r - {o.orderId} == (rest + OrdersOf(q, o.ticker, side)) - {o.orderId}
    ensures ApplyEvent(r, TradeEvent(Execute(o, q[0], q[0].volume))) - {o.orderId}
         == (rest + OrdersOf(q[1..], o.ticker, side)) - {o.orderId}
  {
    OrdersKeys(q[1..], o.ticker, side);
    assert !HasId(q[1..], q[0].orderId);
    var x, maker := o.orderId, q[0].orderId;
    var was, now := rest + OrdersOf(q, o.ticker, side), rest + OrdersOf(q[1..], o.ticker, side);
    assert was - {maker} == now - {maker} && maker !in now;
    ShrinkElsewhere(r, was, x, maker, q[0].volume);
    ShrinkElsewhere(Shrink(r, maker, q[0].volume), Shrink(was, maker, q[0].volume), x, x, q[0].volume);
    assert Shrink(was, maker, q[0].volume) == now;
  }

  lemma PartialFillElsewhere(r: Orders, rest: Orders, q: seq<Quote>, o: OrderAdd, side: Side, amount: int)
    requires q != [] && 0 < amount < q[0].volume
    requires r - {o.orderId} == (rest + OrdersOf(q, o.ticker, side)) - {o.orderId}
    ensures ApplyEvent(r, TradeEvent(Execute(o, q[0], amount))) - {o.orderId}
         == (rest + OrdersOf([q[0].(volume := q[0].volume - amount)] + q[1..], o.ticker, side)) - {o.orderId}
  {
    var x, maker := o.orderId, q[0].orderId;
    var q' := [q[0].(volume := q[0].volume - amount)] + q[1..];
    var was, now := rest + OrdersOf(q, o.ticker, side), rest + OrdersOf(q', o.ticker, side);
    assert q'[1..] == q[1..];
    ShrinkElsewhere(r, was, x, maker, amount);
    ShrinkElsewhere(Shrink(r, maker, amount), Shrink(was, maker, amount), x, x, amount);
    assert Shrink(was, maker, amount) == now;
  }

  /** Replicas that differ at `x` only still do after an order shrinks; `x` itself may shrink freely. */
  lemma ShrinkElsewhere(r: Orders, s: Orders, x: OrderId, id: OrderId, amount: int)
    requires r - {x} == s - {x}
    ensures Shrink(r, id, amount) - {x} == Shrink(s, id, amount) - {x}
    ensures id == x ==> Shrink(r, id, amount) - {x} == s - {x}
  {
    if id == x {
      assert Shrink(r, x, amount) - {x} == r - {x} && Shrink(s, x, amount) - {x} == s - {x};
    } else if id in r {
      assert id in r - {x} && (r - {x})[id] == r[id] && (s - {x})[id] == s[id];
      var less := r[id].(volume := r[id].volume - amount);
      assert (r - {id}) - {x} == (r - {x}) - {id} && (s - {id}) - {x} == (s - {x}) - {id};
      assert r[id := less] - {x} == (r - {x})[id := less] && s[id := less] - {x} == (s - {x})[id := less];
    } else {
      assert id !in s - {x};
    }
  }

  lemma {:induction false} SweepElsewhere(r: Orders, rest: Orders, q: seq<Quote>, o: OrderAdd, side: Side,
                                          remaining: int)
    requires Positive(q) && DistinctIds(q) && forall i :: 0 <= i < |q| ==> q[i].orderId !in rest
    requires r - {o.orderId} == (rest + OrdersOf(q, o.ticker, side)) - {o.orderId}
    ensures ApplyEvents(r, AsEvents(Sweep(q, o, remaining).trades)) - {o.orderId}
         == (rest + OrdersOf(Sweep(q, o, remaining).left, o.ticker, side)) - {o.orderId}
    decreases |q|
  {
    if remaining <= 0 || q == [] || !Crosses(o, q[0].price) {
      ApplyNothing(r);
    } else if remaining < q[0].volume {
      var t := Execute(o, q[0], remaining);
      PartialFillElsewhere(r, rest, q, o, side, remaining);
      ApplyFirstTrade(r, t, []);
      ApplyNothing(ApplyEvent(r, TradeEvent(t)));
      assert [t] + [] == [t];
    } else {
      var t := Execute(o, q[0], q[0].volume);
      FullFillElsewhere(r, rest, q, o, side);
      SweepElsewhere(ApplyEvent(r, TradeEvent(t)), rest, q[1..], o, side, remaining - q[0].volume);
      ApplyFirstTrade(r, t, Sweep(q[1..], o, remaining - q[0].volume).trades);
    }
  }

  // ----- the reused add -----

  /** The orders a taker uses up are those it accepts and is large enough to reach. */
  lemma {:induction false} FilledExactly(q: seq<Quote>, o: OrderAdd, remaining: int, k: nat)
    requires Sorted(q, Opposite(o.side)) && Positive(q) && k < |q|
    ensures k < |Sweep(q, o, remaining).filled| <==> Crosses(o, q[k].price) && TotalVolume(q[..k + 1]) <= remaining
  {
    VolumeThrough(q, k);
    if remaining <= 0 || !Crosses(o, q[0].price) {
      assert k > 0 ==> !Better(Opposite(o.side), q[k].price, q[0].price);
    } else if remaining < q[0].volume {
    } else if k == 0 {
      assert q[..1][1..] == [];
    } else {
      assert forall i :: 0 <= i < |q[1..]| ==> q[1..][i] == q[i + 1];
      FilledExactly(q[1..], o, remaining - q[0].volume, k - 1);
      assert q[..k + 1][1..] == q[1..][..k];
    }
  }

  /** Positive volumes add up. */
  lemma {:induction false} VolumeThrough(q: seq<Quote>, k: nat)
    requires Positive(q) && k < |q|
    ensures TotalVolume(q[..k + 1]) >= q[0].volume
    decreases k
  {
    if k == 0 {
      assert q[..1][1..] == [];
    } else {
      assert forall i :: 0 <= i < |q[1..]| ==> q[1..][i] == q[i + 1];
      VolumeThrough(q[1..], k - 1);
      assert q[..k + 1][1..] == q[1..][..k];
    }
  }

  /** The condition on the book before the add says what the add will do. */
  lemma FillsNamesakeExactlyWhen(e: Engine, o: OrderAdd)
    requires Orderly(e) && o.volume > 0
    ensures var s := Sweep(QuotesOf(e, Opposite(o.side)), o, o.volume);
            FillsNamesake(e, o) <==> s.remaining == 0 && o.orderId in s.filled
  {
    var q := QuotesOf(e, Opposite(o.side));
    var s := Sweep(q, o, o.volume);
    SweepFillsExactly(q, o, o.volume);
    SweepTakesPrefix(q, o, o.volume);
    if FillsNamesake(e, o) {
      var k :| 0 <= k < |q| && q[k].orderId == o.orderId && Crosses(o, q[k].price)
               && TotalVolume(q[..k + 1]) <= o.volume <= CrossingVolume(q, o);
      FilledExactly(q, o, o.volume, k);
      assert s.filled[k] == o.orderId;
    } else if s.remaining == 0 && o.orderId in s.filled {
      var k :| 0 <= k < |s.filled| && s.filled[k] == o.orderId;
      FilledExactly(q, o, o.volume, k);
      assert false;
    }
  }

  /** A positive add of a listed ticker under an id that is open. */
  predicate Reuses(engines: Engines, o: OrderAdd) {
    Listed(Add(o)) && o.volume > 0 && o.orderId in Mirror(engines)
  }

  /** What `o` does to the other side of its own book. */
  function Swath(engines: Engines, o: OrderAdd): Swept
    requires Listed(Add(o))
  {
    Sweep(QuotesOf(engines[TickerIndex(o.ticker)], Opposite(o.side)), o, o.volume)
  }

  lemma FilledIsGone(e: Engine, o: OrderAdd)
    requires Orderly(e) && IndexComplete(e)
    requires o.orderId in Sweep(QuotesOf(e, Opposite(o.side)), o, o.volume).filled
    ensures IdRests(e, o.orderId) && !IdRests(AfterMatch(e, o), o.orderId)
  {
    LeftIds(QuotesOf(e, Opposite(o.side)), o, o.volume, o.orderId);
    CoveredApart(e, o.orderId);
  }

  lemma NamesakeKeepsSeparate(engines: Engines, o: OrderAdd)
    requires Separate(engines) && Reuses(engines, o) && o.orderId in Swath(engines, o).filled
    ensures var i := TickerIndex(o.ticker);
            Apart(engines, i, AddOrder(engines[i], o).engine) && Separate(Route(engines, Add(o)).engines)
  {
    var i := TickerIndex(o.ticker);
    var e, e' := engines[i], AddOrder(engines[i], o).engine;
    FilledIsGone(e, o);
    AddKeepsWellFormed(e, o);
    AddKeepsComplete(e, o);
    IdsAfterAdd(e, o);
    SeparateApart(engines, i);
    assert Apart(engines, i, e');
    SeparateUpdate(engines, i, e');
  }

  /** The engines after an add that used up its namesake. */
  lemma MirrorAfterNamesake(engines: Engines, o: OrderAdd)
    requires Separate(engines) && Reuses(engines, o) && o.orderId in Swath(engines, o).filled
    ensures var i, s := TickerIndex(o.ticker), Swath(engines, o);
            var rest := Outside(Mirror(engines), engines[i], o.ticker)
                        + OrdersOf(QuotesOf(engines[i], o.side), o.ticker, o.side);
            Mirror(Route(engines, Add(o)).engines) == Spread(rest, s.left, o, Opposite(o.side), s.remaining)
  {
    var i := TickerIndex(o.ticker);
    var e, e' := engines[i], AddOrder(engines[i], o).engine;
    NamesakeKeepsSeparate(engines, o);
    SeparateApart(engines, i);
    MirrorUpdate(engines, i, e', LISTED);
    FilledIsGone(e, o);
    BookAfterAdd(e, o, Outside(Mirror(engines), e, o.ticker));
  }

  lemma SweptElsewhere(e: Engine, o: OrderAdd, rest: Orders)
    requires IndexComplete(e) && rest.Keys !! BookOf(e, o.ticker).Keys
    ensures var q := QuotesOf(e, Opposite(o.side));
            forall i :: 0 <= i < |q| ==> q[i].orderId !in rest + OrdersOf(QuotesOf(e, o.side), o.ticker, o.side)
  {
    var opp := Opposite(o.side);
    var q := QuotesOf(e, opp);
    SidesApart(e, o.ticker);
    OrdersKeys(q, o.ticker, opp);
    forall i | 0 <= i < |q| ensures q[i].orderId in OrdersOf(q, o.ticker, opp) {
      assert HasId(q, q[i].orderId);
    }
  }

  lemma WithoutTaker(rest: Orders, q: seq<Quote>, o: OrderAdd, side: Side, remaining: int)
    ensures Spread(rest, q, o, side, remaining) - {o.orderId} == (rest + OrdersOf(q, o.ticker, side)) - {o.orderId}
  {
  }

  /** Away from the reused id the replica is right, as always. */
  lemma UpdatedElsewhere(engines: Engines, o: OrderAdd)
    requires Separate(engines) && Reuses(engines, o) && o.orderId in Swath(engines, o).filled
    ensures Updated(engines, Add(o)) - {o.orderId} == Mirror(Route(engines, Add(o)).engines) - {o.orderId}
  {
    var i, opp := TickerIndex(o.ticker), Opposite(o.side);
    var e, M := engines[i], Mirror(engines);
    var q := QuotesOf(e, opp);
    var out := Outside(M, e, o.ticker);
    var rest := out + OrdersOf(QuotesOf(e, o.side), o.ticker, o.side);
    var r := M[o.orderId := OpenOf(o, o.volume)];
    MirrorSplit(engines, i);
    BookBeforeAdd(e, o, out);
    WithoutTaker(rest, q, o, opp, o.volume);
    SweptElsewhere(e, o, out);
    SweepElsewhere(r, rest, q, o, opp, o.volume);
    ApplyAddThenTrades(M, o, AddOrder(e, o).trades);
    MirrorAfterNamesake(engines, o);
    WithoutTaker(rest, Swath(engines, o).left, o, opp, Swath(engines, o).remaining);
  }

  lemma EntryAfterAdd(engines: Engines, o: OrderAdd)
    requires Separate(engines) && Reuses(engines, o)
    ensures var s := Swath(engines, o);
            && AtMost(Updated(engines, Add(o)), o.orderId, s.remaining)
            && (o.orderId in s.filled ==> AtMost(Updated(engines, Add(o)), o.orderId, s.remaining - 1))
  {
    var e := engines[TickerIndex(o.ticker)];
    EntryAfterSweep(Mirror(engines), QuotesOf(e, Opposite(o.side)), o);
    ApplyAddThenTrades(Mirror(engines), o, AddOrder(e, o).trades);
  }

  lemma EqualEverywhere(a: Orders, b: Orders, id: OrderId)
    requires a - {id} == b - {id} && id !in a && id !in b
    ensures a == b
  {
    assert a - {id} == a && b - {id} == b;
  }

  /** Both orders used up: the replica has dropped the one entry they shared. */
  lemma NamesakeAgrees(engines: Engines, o: OrderAdd)
    requires Separate(engines) && Reuses(engines, o) && FillsNamesake(engines[TickerIndex(o.ticker)], o)
    ensures Agrees(engines, Add(o)) && Separate(Route(engines, Add(o)).engines)
  {
    var i := TickerIndex(o.ticker);
    var after := Route(engines, Add(o)).engines;
    FillsNamesakeExactlyWhen(engines[i], o);
    NamesakeKeepsSeparate(engines, o);
    SeparateOnePerId(after);
    UpdatedElsewhere(engines, o);
    EntryAfterAdd(engines, o);
    NamesakeGone(engines, o);
    EqualEverywhere(Updated(engines, Add(o)), Mirror(after), o.orderId);
  }

  lemma NamesakeGone(engines: Engines, o: OrderAdd)
    requires Separate(engines) && Reuses(engines, o)
    requires o.orderId in Swath(engines, o).filled && Swath(engines, o).remaining == 0
    ensures o.orderId !in Mirror(Route(engines, Add(o)).engines)
  {
    var i := TickerIndex(o.ticker);
    var e, after := engines[i], Route(engines, Add(o)).engines;
    FilledIsGone(e, o);
    assert EngineHasId(engines, i, o.orderId);
    MirrorKeys(after, LISTED, o.orderId);
    forall j | 0 <= j < LISTED ensures !EngineHasId(after, j, o.orderId) {
      if j != i {
        assert EngineHasId(after, j, o.orderId) == EngineHasId(engines, j, o.orderId);
      }
    }
  }

  /** The namesake is used up but some of the add rests: the replica shows too little of it. */
  lemma NamesakeRestDisagrees(engines: Engines, o: OrderAdd)
    requires Separate(engines) && Reuses(engines, o)
    requires o.orderId in Swath(engines, o).filled && Swath(engines, o).remaining > 0
    ensures !Agrees(engines, Add(o))
  {
    var s := Swath(engines, o);
    EntryAfterAdd(engines, o);
    MirrorAfterNamesake(engines, o);
    var mirror := Mirror(Route(engines, Add(o)).engines);
    assert o.orderId in mirror && mirror[o.orderId] == OpenOf(o, s.remaining);
  }

  /** The older order keeps resting in the engine, wherever it does. */
  lemma OlderStillRests(engines: Engines, o: OrderAdd) returns (j: nat)
    requires Separate(engines) && Reuses(engines, o) && o.orderId !in Swath(engines, o).filled
    ensures j < LISTED && EngineHasId(engines, j, o.orderId)
    ensures j == TickerIndex(o.ticker) ==> IdRests(AfterMatch(engines[j], o), o.orderId)
  {
    MirrorKeys(engines, LISTED, o.orderId);
    j :| 0 <= j < LISTED && EngineHasId(engines, j, o.orderId);
    if j == TickerIndex(o.ticker) {
      LeftIds(QuotesOf(engines[j], Opposite(o.side)), o, o.volume, o.orderId);
    }
  }

  /** The add is used up but its namesake is not: the replica has dropped an order still resting. */
  lemma HiddenOrderDisagrees(engines: Engines, o: OrderAdd)
    requires Separate(engines) && Reuses(engines, o)
    requires o.orderId !in Swath(engines, o).filled && Swath(engines, o).remaining <= 0
    ensures !Agrees(engines, Add(o))
  {
    var after := Route(engines, Add(o)).engines;
    var j := OlderStillRests(engines, o);
    EntryAfterAdd(engines, o);
    assert EngineHasId(after, j, o.orderId);
    MirrorKeys(after, LISTED, o.orderId);
  }

  lemma InsertedTwin(q: seq<Quote>, side: Side, x: Quote)
    ensures HasId(Insert(q, side, x), x.orderId)
    ensures HasId(q, x.orderId) ==> !DistinctIds(Insert(q, side, x))
  {
    var p := InsertAt(q, side, x);
    var q' := Insert(q, side, x);
    assert q'[p].orderId == x.orderId;
    if HasId(q, x.orderId) {
      var k :| 0 <= k < |q| && q[k].orderId == x.orderId;
      if k < p {
        assert q'[k].orderId == q'[p].orderId;
      } else {
        assert q'[k + 1] == q[k] && q'[p].orderId == q'[k + 1].orderId;
      }
    }
  }

  /** Both rest: two orders under one id, and the replica has one entry. */
  lemma TwinsDisagree(engines: Engines, o: OrderAdd)
    requires Separate(engines) && Reuses(engines, o)
    requires o.orderId !in Swath(engines, o).filled && Swath(engines, o).remaining > 0
    ensures !Agrees(engines, Add(o))
  {
    var i, s := TickerIndex(o.ticker), Swath(engines, o);
    var after := Route(engines, Add(o)).engines;
    var j := OlderStillRests(engines, o);
    var m := AfterMatch(engines[i], o);
    InsertedTwin(QuotesOf(m, o.side), o.side, AsQuote(o, s.remaining));
    assert EngineHasId(after, i, o.orderId);
    if j == i {
      assert !OnePerId(after[i]);
    } else {
      assert EngineHasId(after, j, o.orderId);
    }
  }

  lemma ReusedIdDisagrees(engines: Engines, o: OrderAdd)
    requires Separate(engines) && Reuses(engines, o)
    requires Swath(engines, o).remaining > 0 || o.orderId !in Swath(engines, o).filled
    ensures !Agrees(engines, Add(o))
  {
    var s := Swath(engines, o);
    if s.remaining <= 0 {
      HiddenOrderDisagrees(engines, o);
    } else if o.orderId in s.filled {
      NamesakeRestDisagrees(engines, o);
    } else {
      TwinsDisagree(engines, o);
    }
  }

  lemma NothingBelowZero(e: Engine, o: OrderAdd)
    requires Orderly(e) && o.volume > 0
    ensures Sweep(QuotesOf(e, Opposite(o.side)), o, o.volume).remaining >= 0
  {
    SweepFillsExactly(QuotesOf(e, Opposite(o.side)), o, o.volume);
  }

  /** Reusing an open id is harmless in one case only. */
  lemma ReusedIdAgreesExactlyWhen(engines: Engines, o: OrderAdd)
    requires Separate(engines) && Reuses(engines, o)
    ensures Agrees(engines, Add(o)) <==> FillsNamesake(engines[TickerIndex(o.ticker)], o)
    ensures Agrees(engines, Add(o)) ==> Separate(Route(engines, Add(o)).engines)
  {
    NothingBelowZero(engines[TickerIndex(o.ticker)], o);
    FillsNamesakeExactlyWhen(engines[TickerIndex(o.ticker)], o);
    if FillsNamesake(engines[TickerIndex(o.ticker)], o) {
      NamesakeAgrees(engines, o);
    } else {
      ReusedIdDisagrees(engines, o);
    }
  }
}
