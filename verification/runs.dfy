/** Facts about whole runs of one engine: volume is conserved, the mid price follows the book,
    and every trade is one the settlement side can apply. */
module Runs {
  import opened Types
  import opened Quotes
  import opened EngineModel

  // ----- conservation -----

  lemma {:induction false} TradedConcat(a: seq<Trade>, b: seq<Trade>)
    ensures TradedVolume(a + b) == TradedVolume(a) + TradedVolume(b)
  {
    if a == [] {
      assert a + b == b;
    } else {
      TradedConcat(a[1..], b);
      assert (a + b)[1..] == a[1..] + b;
    }
  }

  /** Volume a command brings to `side`. */
  function Brought(cmd: Command, side: Side): int {
    if cmd.Add? && cmd.order.side == side then Max(0, cmd.order.volume) else 0
  }

  /** Volume of the resting orders a cancel takes off `side`. */
  function TakenOff(e: Engine, cmd: Command, side: Side): int {
    if cmd.Cancel? && Accepts(e, cmd.cancel) && e.index[cmd.cancel.orderId].side == side then
      TotalVolume(Select(QuotesOf(e, side), e.index[cmd.cancel.orderId].price, cmd.cancel.orderId, true))
    else 0
  }

  function AllBrought(cmds: seq<Command>, side: Side): int {
    if cmds == [] then 0
    else AllBrought(cmds[..|cmds| - 1], side) + Brought(cmds[|cmds| - 1], side)
  }

  function AllTakenOff(cmds: seq<Command>, side: Side): int {
    if cmds == [] then 0
    else AllTakenOff(cmds[..|cmds| - 1], side)
         + TakenOff(Run(cmds[..|cmds| - 1]).engine, cmds[|cmds| - 1], side)
  }

  lemma AddConserves(e: Engine, o: OrderAdd, side: Side)
    requires Orderly(e)
    ensures TotalVolume(QuotesOf(e, side)) + Brought(Add(o), side)
         == TotalVolume(QuotesOf(AddOrder(e, o).engine, side)) + TradedVolume(AddOrder(e, o).trades)
  {
    var q := QuotesOf(e, Opposite(o.side));
    var r := Sweep(q, o, o.volume);
    SweepConserves(q, o, o.volume);
    SweepFillsExactly(q, o, o.volume);
    InsertVolume(QuotesOf(e, o.side), o.side, AsQuote(o, r.remaining));
  }

  lemma CancelConserves(e: Engine, c: OrderCancel, side: Side)
    ensures TotalVolume(QuotesOf(e, side))
         == TotalVolume(QuotesOf(CancelOrder(e, c), side)) + TakenOff(e, Cancel(c), side)
  {
    if Accepts(e, c) {
      SelectVolume(QuotesOf(e, side), e.index[c.orderId].price, c.orderId);
    }
  }

  /** On each side, over every run: positive volume added == traded + cancelled + resting. */
  lemma {:induction false} VolumeConserved(cmds: seq<Command>, side: Side)
    ensures AllBrought(cmds, side)
         == TradedVolume(Run(cmds).trades) + AllTakenOff(cmds, side)
            + TotalVolume(QuotesOf(Run(cmds).engine, side))
  {
    if cmds == [] {
    } else {
      var init, cmd := cmds[..|cmds| - 1], cmds[|cmds| - 1];
      var e := Run(init).engine;
      VolumeConserved(init, side);
      RunWellFormed(init);
      TradedConcat(Run(init).trades, Apply(e, cmd).trades);
      match cmd
      case Add(o) => AddConserves(e, o, side);
      case Cancel(c) => CancelConserves(e, c, side);
    }
  }

  // ----- mid price -----

  /** `mid` is that of the latest between-command state that had an order resting, if any had. */
  ghost predicate LastQuotedMid(cmds: seq<Command>, mid: Option<Price>) {
    var e := Run(cmds).engine;
    if Quoted(e) then mid.Some? && IsMid(e, mid.value)
    else if cmds == [] then mid.None?
    else LastQuotedMid(cmds[..|cmds| - 1], mid)
  }

  lemma QuotedMid(e: Engine)
    requires WellFormed(e) && Quoted(e)
    ensures e.mid.Some? && IsMid(e, e.mid.value)
  {
    assert Publish(e) == e;
    MidIsPlain(e);
  }

  predicate QuotedAfter(cmds: seq<Command>) {
    Quoted(Run(cmds).engine)
  }

  predicate EverQuoted(cmds: seq<Command>) {
    exists k :: 0 <= k <= |cmds| && QuotedAfter(cmds[..k])
  }

  lemma EverQuotedStep(cmds: seq<Command>)
    requires cmds != []
    ensures EverQuoted(cmds) <==> EverQuoted(cmds[..|cmds| - 1]) || QuotedAfter(cmds)
  {
    var init := cmds[..|cmds| - 1];
    assert cmds[..|cmds|] == cmds;
    assert forall k :: 0 <= k <= |init| ==> init[..k] == cmds[..k];
    if EverQuoted(init) {
      var k :| 0 <= k <= |init| && QuotedAfter(init[..k]);
      assert QuotedAfter(cmds[..k]);
    }
  }

  lemma UnquotedKeepsMid(e: Engine, cmd: Command)
    requires !Quoted(Apply(e, cmd).engine)
    ensures Apply(e, cmd).engine.mid == e.mid
  {
  }

  /** The published mid is the current book's while anything rests, else the last quoted one. */
  lemma {:induction false} MidFollowsBook(cmds: seq<Command>)
    ensures LastQuotedMid(cmds, Run(cmds).engine.mid)
  {
    RunWellFormed(cmds);
    if Quoted(Run(cmds).engine) {
      QuotedMid(Run(cmds).engine);
    } else if cmds != [] {
      MidFollowsBook(cmds[..|cmds| - 1]);
      UnquotedKeepsMid(Run(cmds[..|cmds| - 1]).engine, cmds[|cmds| - 1]);
    }
  }

  /** It is absent exactly as long as no order has ever rested. */
  lemma {:induction false} MidAbsentUntilQuoted(cmds: seq<Command>)
    ensures Run(cmds).engine.mid.None? <==> !EverQuoted(cmds)
  {
    if cmds == [] {
      assert forall k :: 0 <= k <= |cmds| ==> cmds[..k] == [];
    } else {
      EverQuotedStep(cmds);
      RunWellFormed(cmds);
      if !QuotedAfter(cmds) {
        MidAbsentUntilQuoted(cmds[..|cmds| - 1]);
        UnquotedKeepsMid(Run(cmds[..|cmds| - 1]).engine, cmds[|cmds| - 1]);
      }
    }
  }

  lemma MidOfBest(e: Engine)
    requires WellFormed(e)
    ensures e.bids != [] && e.asks != [] ==>
              && e.mid.Some? && e.bids[0].price <= e.mid.value <= e.asks[0].price
              && CutHalf(e.mid.value, e.bids[0].price + e.asks[0].price)
    ensures e.bids != [] && e.asks == [] ==> e.mid == Some(e.bids[0].price)
    ensures e.bids == [] && e.asks != [] ==> e.mid == Some(e.asks[0].price)
  {
  }

  /** With both sides quoted the mid is half the sum of best bid and best ask, cut toward zero, and
      lies between them, prices of any sign; with one side quoted it is that side's best price. */
  lemma MidWithinSpread(cmds: seq<Command>)
    ensures var e := Run(cmds).engine;
            && (forall i :: 0 <= i < |e.bids| ==> e.bids[i].price <= e.bids[0].price)
            && (forall i :: 0 <= i < |e.asks| ==> e.asks[0].price <= e.asks[i].price)
            && (e.bids != [] && e.asks != [] ==>
                  && e.mid.Some? && e.bids[0].price <= e.mid.value <= e.asks[0].price
                  && var sum := e.bids[0].price + e.asks[0].price;
                     && -1 <= 2 * e.mid.value - sum <= 1
                     && (0 <= 2 * e.mid.value <= sum || sum <= 2 * e.mid.value <= 0))
            && (e.bids != [] && e.asks == [] ==> e.mid == Some(e.bids[0].price))
            && (e.bids == [] && e.asks != [] ==> e.mid == Some(e.asks[0].price))
  {
    var e := Run(cmds).engine;
    RunWellFormed(cmds);
    if e.bids != [] { FirstIsBest(e.bids, Buy); }
    if e.asks != [] { FirstIsBest(e.asks, Sell); }
    MidOfBest(e);
  }

  // ----- trades are fit for settlement -----

  predicate UserIn(id: UserId, n: nat) {
    0 <= id < n
  }

  predicate QuotesOwnedBy(q: seq<Quote>, n: nat) {
    forall i :: 0 <= i < |q| ==> UserIn(q[i].userId, n)
  }

  predicate OwnedBy(e: Engine, n: nat) {
    QuotesOwnedBy(e.bids, n) && QuotesOwnedBy(e.asks, n)
  }

  /** A positive fill of the given ticker between two of the `n` users. */
  predicate Settleable(t: Trade, ticker: Ticker, n: nat) {
    t.volume > 0 && t.ticker == ticker && UserIn(t.makerId, n) && UserIn(t.takerId, n)
  }

  lemma SweepOwners(q: seq<Quote>, o: OrderAdd, remaining: int, n: nat)
    requires Positive(q) && QuotesOwnedBy(q, n) && UserIn(o.userId, n)
    ensures var r := Sweep(q, o, remaining);
            && QuotesOwnedBy(r.left, n)
            && (forall i :: 0 <= i < |r.trades| ==> Settleable(r.trades[i], o.ticker, n))
  {
    var r := Sweep(q, o, remaining);
    SweepTakesPrefix(q, o, remaining);
    SweepTrades(q, o, remaining);
    forall i | 0 <= i < |r.left| ensures UserIn(r.left[i].userId, n) {
      if i > 0 { assert r.left[i] == r.left[1..][i - 1]; }
    }
  }

  lemma InsertOwners(q: seq<Quote>, side: Side, x: Quote, n: nat)
    requires QuotesOwnedBy(q, n) && UserIn(x.userId, n)
    ensures QuotesOwnedBy(Insert(q, side, x), n)
  {
    var p := InsertPlace(q, side, x);
  }

  lemma WithoutOwners(q: seq<Quote>, price: Price, id: OrderId, n: nat)
    requires QuotesOwnedBy(q, n)
    ensures QuotesOwnedBy(Without(q, price, id), n)
  {
    SelectMembers(q, price, id, false);
    var left := Without(q, price, id);
    forall i | 0 <= i < |left| ensures UserIn(left[i].userId, n) { assert left[i] in q; }
  }

  /** One command prints only positive trades between known users, on the command's ticker. */
  lemma StepSettleable(e: Engine, cmd: Command, n: nat)
    requires Orderly(e) && OwnedBy(e, n)
    requires cmd.Add? ==> UserIn(cmd.order.userId, n)
    ensures OwnedBy(Apply(e, cmd).engine, n)
    ensures forall t :: t in Apply(e, cmd).trades ==> cmd.Add? && Settleable(t, cmd.order.ticker, n)
  {
    match cmd
    case Add(o) =>
      var r := Sweep(QuotesOf(e, Opposite(o.side)), o, o.volume);
      SweepOwners(QuotesOf(e, Opposite(o.side)), o, o.volume, n);
      InsertOwners(QuotesOf(e, o.side), o.side, AsQuote(o, r.remaining), n);
    case Cancel(c) =>
      if Accepts(e, c) {
        var loc := e.index[c.orderId];
        WithoutOwners(QuotesOf(e, loc.side), loc.price, c.orderId, n);
      }
  }
}
