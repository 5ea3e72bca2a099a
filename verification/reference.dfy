/** A naive engine that keeps one list of live orders in arrival order and scans all of it for
    every fill, and the proof that the real engine trades exactly as it does. */
module Reference {
  import opened Types
  import opened Throughout
  import opened Quotes
  import opened EngineModel

  datatype Live = Live(side: Side, quote: Quote)

  /** `live[i]` is an ask at or below the limit of a buy, or a bid at or above that of a sell. */
  predicate Candidate(live: seq<Live>, o: OrderAdd, i: int) {
    0 <= i < |live|
    && match o.side
       case Buy => live[i].side.Sell? && live[i].quote.price <= o.price
       case Sell => live[i].side.Buy? && live[i].quote.price >= o.price
  }

  /** No candidate has a better price, nor the same price and an earlier arrival. */
  ghost predicate HasPriority(live: seq<Live>, o: OrderAdd, i: nat)
    requires i < |live|
  {
    forall j :: Candidate(live, o, j) ==>
      && (o.side.Buy? ==> live[i].quote.price <= live[j].quote.price)
      && (o.side.Sell? ==> live[i].quote.price >= live[j].quote.price)
      && (live[j].quote.price == live[i].quote.price ==> i <= j)
  }

  /** Scans every live order for the one to trade with next. */
  function Pick(live: seq<Live>, o: OrderAdd): (best: Option<nat>)
    ensures best.None? ==> forall j :: !Candidate(live, o, j)
    ensures best.Some? ==> Candidate(live, o, best.value) && HasPriority(live, o, best.value)
  {
    if live == [] then None
    else
      var n := |live| - 1;
      var best := Pick(live[..n], o);
      assert forall j :: Candidate(live, o, j) <==> Candidate(live[..n], o, j) || (j == n && Candidate(live, o, n));
      if Candidate(live, o, n)
         && (best.None? || Better(Opposite(o.side), live[n].quote.price, live[best.value].quote.price))
      then Some(n) else best
  }

  datatype Scan = Scan(live: seq<Live>, trades: seq<Trade>, remaining: int)

  function Drop(live: seq<Live>, i: nat): seq<Live>
    requires i < |live|
  {
    live[..i] + live[i + 1..]
  }

  function Reduce(live: seq<Live>, i: nat, amount: int): seq<Live>
    requires i < |live|
  {
    live[i := live[i].(quote := live[i].quote.(volume := live[i].quote.volume - amount))]
  }

  /** Repeatedly trades with the order that has priority; a partial fill keeps its place. */
  function MatchLive(live: seq<Live>, o: OrderAdd, remaining: int): Scan
    decreases |live| + (if remaining > 0 then 1 else 0)
  {
    var best := Pick(live, o);
    if remaining <= 0 || best.None? then Scan(live, [], remaining)
    else
      var maker := live[best.value].quote;
      var traded := Min(remaining, maker.volume);
      var next := if traded == maker.volume then Drop(live, best.value) else Reduce(live, best.value, traded);
      var rest := MatchLive(next, o, remaining - traded);
      Scan(rest.live, [Execute(o, maker, traded)] + rest.trades, rest.remaining)
  }

  function KeepOthers(live: seq<Live>, c: OrderCancel): seq<Live> {
    if live == [] then []
    else
      var n := |live| - 1;
      var x := live[n].quote;
      if x.orderId == c.orderId && x.userId == c.userId then KeepOthers(live[..n], c)
      else KeepOthers(live[..n], c) + [live[n]]
  }

  datatype Result = Result(live: seq<Live>, trades: seq<Trade>)

  function ApplyLive(live: seq<Live>, cmd: Command): Result {
    match cmd
    case Add(o) =>
      var s := MatchLive(live, o, o.volume);
      Result(if s.remaining > 0 then s.live + [Live(o.side, AsQuote(o, s.remaining))] else s.live, s.trades)
    case Cancel(c) => Result(KeepOthers(live, c), [])
  }

  function RunLive(cmds: seq<Command>): Result {
    if cmds == [] then Result([], [])
    else
      var before := RunLive(cmds[..|cmds| - 1]);
      var step := ApplyLive(before.live, cmds[|cmds| - 1]);
      Result(step.live, before.trades + step.trades)
  }

  // ----- the abstraction: a book is its side's live orders, stably sorted by price -----

  function Arrange(live: seq<Live>, side: Side): seq<Quote> {
    if live == [] then []
    else
      var n := |live| - 1;
      var before := Arrange(live[..n], side);
      if live[n].side == side then Insert(before, side, live[n].quote) else before
  }

  lemma ArrangeOneMore(live: seq<Live>, x: Live)
    ensures Arrange(live + [x], x.side) == Insert(Arrange(live, x.side), x.side, x.quote)
    ensures Arrange(live + [x], Opposite(x.side)) == Arrange(live, Opposite(x.side))
  {
    assert (live + [x])[..|live|] == live;
  }

  lemma {:induction false} ArrangeSorted(live: seq<Live>, side: Side)
    ensures Sorted(Arrange(live, side), side)
  {
    if live == [] {
    } else {
      ArrangeSorted(live[..|live| - 1], side);
      InsertKeepsOrder(Arrange(live[..|live| - 1], side), side, live[|live| - 1].quote);
    }
  }

  /** The scan's choice is the head of the arranged book, or there is none to choose. */
  lemma {:induction false} PickIsHead(live: seq<Live>, o: OrderAdd)
    ensures var q := Arrange(live, Opposite(o.side));
            match Pick(live, o)
            case None => q == [] || !Crosses(o, q[0].price)
            case Some(i) => q != [] && Crosses(o, q[0].price) && q[0] == live[i].quote
  {
    if live == [] {
    } else {
      PickIsHead(live[..|live| - 1], o);
    }
  }

  /** A later arrival that does not change the choice is not ahead of it in the book. */
  lemma LaterWaits(live: seq<Live>, i: nat, o: OrderAdd)
    requires Pick(live, o) == Some(i) && i < |live| - 1
    ensures var init, last := live[..|live| - 1], live[|live| - 1];
            var q := Arrange(init, Opposite(o.side));
            && Pick(init, o) == Some(i) && q != []
            && (last.side == Opposite(o.side) ==> !Better(last.side, last.quote.price, q[0].price))
  {
    PickIsHead(live[..|live| - 1], o);
  }

  lemma LastChosen(live: seq<Live>, o: OrderAdd)
    requires live != [] && Pick(live, o) == Some(|live| - 1)
    ensures var init, last := live[..|live| - 1], live[|live| - 1];
            var q := Arrange(init, Opposite(o.side));
            last.side == Opposite(o.side) && (q == [] || Better(last.side, last.quote.price, q[0].price))
  {
    PickIsHead(live[..|live| - 1], o);
  }

  lemma InsertBehindHead(head: Quote, tail: seq<Quote>, side: Side, x: Quote)
    requires !Better(side, x.price, head.price)
    ensures Insert([head] + tail, side, x) == [head] + Insert(tail, side, x)
  {
    assert ([head] + tail)[1..] == tail;
  }

  /** Taking the chosen order out takes the head off its side of the book. */
  lemma {:induction false} DropArranges(live: seq<Live>, i: nat, o: OrderAdd)
    requires Pick(live, o) == Some(i)
    ensures Arrange(live, Opposite(o.side)) != []
    ensures Arrange(Drop(live, i), Opposite(o.side)) == Arrange(live, Opposite(o.side))[1..]
    ensures Arrange(Drop(live, i), o.side) == Arrange(live, o.side)
  {
    var n := |live| - 1;
    var init, last := live[..n], live[n];
    assert live == init + [last];
    ArrangeOneMore(init, last);
    if i == n {
      LastChosen(live, o);
      assert Drop(live, i) == init;
    } else {
      LaterWaits(live, i, o);
      DropArranges(init, i, o);
      assert Drop(live, i) == Drop(init, i) + [last];
      ArrangeOneMore(Drop(init, i), last);
    }
  }

  /** Reducing order `i` in place reduces the head of the other side's book and nothing else. */
  predicate ReducesHead(live: seq<Live>, i: nat, amount: int, o: OrderAdd) {
    var q := Arrange(live, Opposite(o.side));
    && i < |live| && q != []
    && Arrange(Reduce(live, i, amount), Opposite(o.side)) == [q[0].(volume := q[0].volume - amount)] + q[1..]
    && Arrange(Reduce(live, i, amount), o.side) == Arrange(live, o.side)
  }

  lemma {:induction false} ReduceLast(init: seq<Live>, last: Live, amount: int, o: OrderAdd)
    requires last.side == Opposite(o.side)
    requires var q := Arrange(init, last.side); q == [] || Better(last.side, last.quote.price, q[0].price)
    ensures ReducesHead(init + [last], |init|, amount, o)
  {
    var less := last.(quote := last.quote.(volume := last.quote.volume - amount));
    assert Reduce(init + [last], |init|, amount) == init + [less];
    ArrangeOneMore(init, last);
    ArrangeOneMore(init, less);
  }

  lemma {:induction false} ReduceEarlier(init: seq<Live>, last: Live, i: nat, amount: int, o: OrderAdd)
    requires ReducesHead(init, i, amount, o)
    requires last.side == Opposite(o.side) ==> !Better(last.side, last.quote.price, Arrange(init, last.side)[0].price)
    ensures ReducesHead(init + [last], i, amount, o)
  {
    var q := Arrange(init, Opposite(o.side));
    assert Reduce(init + [last], i, amount) == Reduce(init, i, amount) + [last];
    ArrangeOneMore(init, last);
    ArrangeOneMore(Reduce(init, i, amount), last);
    if last.side == Opposite(o.side) {
      InsertReduced(q, last.side, last.quote, amount);
    }
  }

  lemma {:induction false} InsertReduced(q: seq<Quote>, side: Side, x: Quote, amount: int)
    requires q != [] && !Better(side, x.price, q[0].price)
    ensures var q' := Insert(q, side, x);
            && q' != [] && q'[0] == q[0]
            && Insert([q[0].(volume := q[0].volume - amount)] + q[1..], side, x)
               == [q[0].(volume := q[0].volume - amount)] + q'[1..]
  {
    assert q == [q[0]] + q[1..];
    InsertBehindHead(q[0], q[1..], side, x);
    InsertBehindHead(q[0].(volume := q[0].volume - amount), q[1..], side, x);
  }

  /** The scan's choice is the one whose reduction reduces the head. */
  lemma {:induction false} ReduceArranges(live: seq<Live>, i: nat, amount: int, o: OrderAdd)
    requires Pick(live, o) == Some(i)
    ensures ReducesHead(live, i, amount, o)
  {
    var n := |live| - 1;
    var init, last := live[..n], live[n];
    assert live == init + [last];
    if i == n {
      LastChosen(live, o);
      ReduceLast(init, last, amount, o);
    } else {
      LaterWaits(live, i, o);
      ReduceArranges(init, i, amount, o);
      ReduceEarlier(init, last, i, amount, o);
    }
  }

  /** Scanning all orders for every fill amounts to sweeping the arranged book. */
  lemma {:induction false} ScanIsSweep(live: seq<Live>, o: OrderAdd, remaining: int)
    requires Positive(Arrange(live, Opposite(o.side)))
    ensures var s := MatchLive(live, o, remaining);
            var r := Sweep(Arrange(live, Opposite(o.side)), o, remaining);
            && s.trades == r.trades && s.remaining == r.remaining
            && Arrange(s.live, Opposite(o.side)) == r.left
            && Arrange(s.live, o.side) == Arrange(live, o.side)
    decreases |live| + (if remaining > 0 then 1 else 0)
  {
    PickIsHead(live, o);
    var best := Pick(live, o);
    if remaining > 0 && best.Some? {
      var i := best.value;
      var q := Arrange(live, Opposite(o.side));
      if remaining < q[0].volume {
        ReduceArranges(live, i, remaining, o);
        ScanIsSweep(Reduce(live, i, remaining), o, 0);
      } else {
        DropArranges(live, i, o);
        ScanIsSweep(Drop(live, i), o, remaining - q[0].volume);
      }
    }
  }

  // ----- cancelling -----

  /** The quotes of `q` not owned by the canceller under this id. */
  function Spared(q: seq<Quote>, c: OrderCancel): seq<Quote> {
    if q == [] then []
    else if q[0].orderId == c.orderId && q[0].userId == c.userId then Spared(q[1..], c)
    else [q[0]] + Spared(q[1..], c)
  }

  lemma {:induction false} SparedMembers(q: seq<Quote>, c: OrderCancel)
    ensures forall x :: x in Spared(q, c) <==> x in q && !(x.orderId == c.orderId && x.userId == c.userId)
  {
    if q == [] {
    } else {
      SparedMembers(q[1..], c);
      assert q == [q[0]] + q[1..];
    }
  }

  lemma {:induction false} SparedInsert(q: seq<Quote>, side: Side, x: Quote, c: OrderCancel)
    requires Sorted(q, side)
    ensures Spared(Insert(q, side, x), c)
         == if x.orderId == c.orderId && x.userId == c.userId then Spared(q, c) else Insert(Spared(q, c), side, x)
  {
    if q == [] || Better(side, x.price, q[0].price) {
      assert ([x] + q)[1..] == q;
      SparedMembers(q, c);
      var s := Spared(q, c);
      if s != [] {
        assert s[0] in q;
        assert !Better(side, s[0].price, q[0].price);
      }
    } else {
      SparedInsert(q[1..], side, x, c);
      assert Insert(q, side, x)[1..] == Insert(q[1..], side, x);
      SparedMembers(q[1..], c);
    }
  }

  lemma {:induction false} KeepArranges(live: seq<Live>, c: OrderCancel, side: Side)
    ensures Arrange(KeepOthers(live, c), side) == Spared(Arrange(live, side), c)
  {
    if live == [] {
    } else {
      var n := |live| - 1;
      KeepArranges(live[..n], c, side);
      ArrangeSorted(live[..n], side);
      SparedInsert(Arrange(live[..n], side), side, live[n].quote, c);
      var kept := KeepOthers(live[..n], c) + [live[n]];
      assert kept[..|kept| - 1] == KeepOthers(live[..n], c);
    }
  }

  lemma {:induction false} SparedNobody(q: seq<Quote>, c: OrderCancel)
    requires forall i :: 0 <= i < |q| ==> q[i].orderId != c.orderId || q[i].userId != c.userId
    ensures Spared(q, c) == q
  {
    if q == [] {
    } else {
      SparedNobody(q[1..], c);
    }
  }

  lemma {:induction false} SparedOne(q: seq<Quote>, c: OrderCancel, k: nat)
    requires k < |q| && DistinctIds(q) && q[k].orderId == c.orderId && q[k].userId == c.userId
    ensures Spared(q, c) == q[..k] + q[k + 1..]
  {
    if k == 0 {
      SparedNobody(q[1..], c);
    } else {
      SparedOne(q[1..], c, k - 1);
      assert q[..k] + q[k + 1..] == [q[0]] + (q[1..][..k - 1] + q[1..][k..]);
    }
  }

  /** Going through the index erases what a scan for id and owner would. */
  lemma CancelIsScan(e: Engine, c: OrderCancel)
    requires IndexSound(e) && IndexComplete(e)
    ensures CancelOrder(e, c).bids == Spared(e.bids, c)
    ensures CancelOrder(e, c).asks == Spared(e.asks, c)
  {
    if Accepts(e, c) {
      var side := e.index[c.orderId].side;
      var q := QuotesOf(e, side);
      assert Names(q, c.orderId, e.index[c.orderId]);
      var k :| 0 <= k < |q| && q[k].orderId == c.orderId && q[k].userId == c.userId;
      CancelRemovesExactlyOne(e, c, side, k);
      SparedOne(q, c, k);
      SparedNobody(QuotesOf(e, Opposite(side)), c);
    } else {
      SparedNobody(e.bids, c);
      SparedNobody(e.asks, c);
    }
  }

  // ----- refinement -----

  predicate Represents(e: Engine, live: seq<Live>) {
    e.bids == Arrange(live, Buy) && e.asks == Arrange(live, Sell)
  }

  lemma AddRefines(e: Engine, live: seq<Live>, o: OrderAdd)
    requires Orderly(e) && Represents(e, live)
    ensures Represents(AddOrder(e, o).engine, ApplyLive(live, Add(o)).live)
    ensures AddOrder(e, o).trades == ApplyLive(live, Add(o)).trades
  {
    var opp := Opposite(o.side);
    var s, r := MatchLive(live, o, o.volume), Sweep(QuotesOf(e, opp), o, o.volume);
    assert QuotesOf(e, opp) == Arrange(live, opp) && QuotesOf(e, o.side) == Arrange(live, o.side);
    ScanIsSweep(live, o, o.volume);
    var e', live' := AddOrder(e, o).engine, ApplyLive(live, Add(o)).live;
    assert QuotesOf(e', opp) == r.left;
    if r.remaining > 0 {
      ArrangeOneMore(s.live, Live(o.side, AsQuote(o, s.remaining)));
      assert QuotesOf(e', o.side) == Insert(QuotesOf(e, o.side), o.side, AsQuote(o, r.remaining));
    } else {
      assert QuotesOf(e', o.side) == QuotesOf(e, o.side);
    }
    RepresentsBySide(e', live', o.side);
  }

  lemma RepresentsBySide(e: Engine, live: seq<Live>, side: Side)
    requires QuotesOf(e, side) == Arrange(live, side) && QuotesOf(e, Opposite(side)) == Arrange(live, Opposite(side))
    ensures Represents(e, live)
  {
  }

  lemma CancelRefines(e: Engine, live: seq<Live>, c: OrderCancel)
    requires IndexSound(e) && IndexComplete(e) && Represents(e, live)
    ensures Represents(CancelOrder(e, c), ApplyLive(live, Cancel(c)).live)
  {
    CancelIsScan(e, c);
    KeepArranges(live, c, Buy);
    KeepArranges(live, c, Sell);
  }

  /** Price-time priority over whole runs: as long as no add reuses an id that is resting, the
      engine prints exactly the trades of the naive engine, in the same order, and its books
      hold the same orders. */
  lemma {:induction false} EngineRefinesReference(cmds: seq<Command>)
    requires FreshIds(cmds)
    ensures Run(cmds).trades == RunLive(cmds).trades
    ensures Represents(Run(cmds).engine, RunLive(cmds).live)
  {
    if cmds == [] {
    } else {
      var init, cmd := cmds[..|cmds| - 1], cmds[|cmds| - 1];
      FreshPrefix(cmds);
      EngineRefinesReference(init);
      RunWellFormed(init);
      RunIndexComplete(init);
      match cmd
      case Add(o) => AddRefines(Run(init).engine, RunLive(init).live, o);
      case Cancel(c) => CancelRefines(Run(init).engine, RunLive(init).live, c);
    }
  }

  // ----- what id reuse breaks, exactly -----

  /** On one side of the book the index-driven cancel hits precisely the canceller's orders. */
  predicate HitsOwnOnly(q: seq<Quote>, side: Side, loc: Location, c: OrderCancel) {
    forall i :: 0 <= i < |q| && q[i].orderId == c.orderId ==>
      (q[i].userId == c.userId <==> side == loc.side && q[i].price == loc.price)
  }

  predicate OwnsNone(q: seq<Quote>, c: OrderCancel) {
    forall i :: 0 <= i < |q| ==> !(q[i].orderId == c.orderId && q[i].userId == c.userId)
  }

  /** Every order under the cancelled id is the canceller's if and only if it queues at the
      indexed level; with no index entry for the canceller, none is theirs. */
  predicate Unambiguous(e: Engine, c: OrderCancel) {
    if Accepts(e, c) then
      HitsOwnOnly(e.bids, Buy, e.index[c.orderId], c) && HitsOwnOnly(e.asks, Sell, e.index[c.orderId], c)
    else OwnsNone(e.bids, c) && OwnsNone(e.asks, c)
  }

  lemma {:induction false} SpareAlike(q: seq<Quote>, side: Side, loc: Location, c: OrderCancel)
    requires HitsOwnOnly(q, side, loc, c)
    ensures Spared(q, c) == if side == loc.side then Without(q, loc.price, c.orderId) else q
  {
    if q == [] {
    } else {
      assert HitsOwnOnly(q[1..], side, loc, c);
      SpareAlike(q[1..], side, loc, c);
    }
  }

  lemma SpareUnlike(q: seq<Quote>, side: Side, loc: Location, c: OrderCancel)
    requires !HitsOwnOnly(q, side, loc, c)
    ensures Spared(q, c) != if side == loc.side then Without(q, loc.price, c.orderId) else q
  {
    var i :| 0 <= i < |q| && q[i].orderId == c.orderId
          && (q[i].userId == c.userId) != (side == loc.side && q[i].price == loc.price);
    SparedMembers(q, c);
    SelectMembers(q, loc.price, c.orderId, false);
    assert q[i] in q;
  }

  lemma SparedAll(q: seq<Quote>, c: OrderCancel)
    ensures Spared(q, c) == q <==> OwnsNone(q, c)
  {
    if OwnsNone(q, c) {
      SparedNobody(q, c);
    } else {
      var i :| 0 <= i < |q| && q[i].orderId == c.orderId && q[i].userId == c.userId;
      SparedMembers(q, c);
      assert q[i] in q;
    }
  }

  /** In any state, ids reused or not, a cancel does what the naive engine does if and only if
      the cancelled id is unambiguous. (Adds agree in every state: see `AddRefines`.) */
  lemma CancelAgreesExactlyWhen(e: Engine, live: seq<Live>, c: OrderCancel)
    requires Represents(e, live)
    ensures Represents(CancelOrder(e, c), ApplyLive(live, Cancel(c)).live) <==> Unambiguous(e, c)
  {
    KeepArranges(live, c, Buy);
    KeepArranges(live, c, Sell);
    if Accepts(e, c) {
      var loc := e.index[c.orderId];
      if HitsOwnOnly(e.bids, Buy, loc, c) {
        SpareAlike(e.bids, Buy, loc, c);
      } else {
        SpareUnlike(e.bids, Buy, loc, c);
      }
      if HitsOwnOnly(e.asks, Sell, loc, c) {
        SpareAlike(e.asks, Sell, loc, c);
      } else {
        SpareUnlike(e.asks, Sell, loc, c);
      }
    } else {
      SparedAll(e.bids, c);
      SparedAll(e.asks, c);
    }
  }

  /** After `cmds` the two engines have printed the same trades and hold the same orders. */
  predicate InStep(cmds: seq<Command>) {
    Run(cmds).trades == RunLive(cmds).trades && Represents(Run(cmds).engine, RunLive(cmds).live)
  }

  predicate UnambiguousAt(cmds: seq<Command>, k: nat)
    requires k < |cmds|
  {
    cmds[k].Cancel? ==> Unambiguous(Run(cmds[..k]).engine, cmds[k].cancel)
  }

  /** From a state where they agree, one more command keeps them in step exactly when it is an
      add, or an unambiguous cancel. */
  lemma StepsInStep(cmds: seq<Command>, k: nat)
    requires k < |cmds| && InStep(cmds[..k])
    ensures InStep(cmds[..k + 1]) <==> UnambiguousAt(cmds, k)
  {
    var before, after := cmds[..k], cmds[..k + 1];
    assert after[..|after| - 1] == before && after[|after| - 1] == cmds[k];
    RunWellFormed(before);
    match cmds[k]
    case Add(o) => AddRefines(Run(before).engine, RunLive(before).live, o);
    case Cancel(c) => CancelAgreesExactlyWhen(Run(before).engine, RunLive(before).live, c);
  }

  /** Every run, ids reused or not: the engine keeps in step with the naive one throughout if and
      only if every cancel was unambiguous when it came. */
  lemma RunAgreesExactlyWhen(cmds: seq<Command>)
    ensures (forall k :: 0 <= k <= |cmds| ==> InStep(cmds[..k]))
       <==> (forall k :: 0 <= k < |cmds| ==> UnambiguousAt(cmds, k))
  {
    var good := (k: nat) => k <= |cmds| && InStep(cmds[..k]);
    var fine := (k: nat) => k < |cmds| && UnambiguousAt(cmds, k);
    assert cmds[..0] == [];
    forall k: nat | k < |cmds| && good(k) ensures good(k + 1) <==> fine(k) {
      StepsInStep(cmds, k);
    }
    GoodThroughout(good, fine, |cmds|);
    assert forall k: nat :: k <= |cmds| ==> good(k) == InStep(cmds[..k]);
    assert forall k: nat :: k < |cmds| ==> fine(k) == UnambiguousAt(cmds, k);
  }

  function SellAt(price: Price, ticker: Ticker): OrderAdd {
    OrderAdd(1, 7, ticker, Sell, price, 5)
  }

  function BuyAll(ticker: Ticker): OrderAdd {
    OrderAdd(2, 8, ticker, Buy, 101, 10)
  }

  /** Two sells under one id, a cancel of that id by their owner, then a buy of everything. */
  function Reuse(ticker: Ticker): seq<Command> {
    [Add(SellAt(100, ticker)), Add(SellAt(101, ticker)), Cancel(OrderCancel(1, 7, ticker)), Add(BuyAll(ticker))]
  }

  lemma SelectTwo(x: Quote, y: Quote)
    requires x.price != y.price
    ensures Without([x, y], y.price, y.orderId) == [x]
  {
    assert [x, y][1..] == [y] && [y][1..] == [];
    assert Select([y], y.price, y.orderId, false) == Select([], y.price, y.orderId, false);
  }

  lemma ReuseOnEngine(ticker: Ticker)
    ensures |Run(Reuse(ticker)).trades| == 1
  {
    var cmds := Reuse(ticker);
    assert cmds[..3][..2] == cmds[..2] && cmds[..2][..1] == cmds[..1] && cmds[..1][..0] == [];
    var low, high := AsQuote(SellAt(100, ticker), 5), AsQuote(SellAt(101, ticker), 5);
    assert Run(cmds[..1]).engine.asks == [low];
    assert Insert([low], Sell, high) == [low, high];
    assert Run(cmds[..2]).engine.asks == [low, high];
    SelectTwo(low, high);
    assert Run(cmds[..3]).engine.asks == [low];
    assert Sweep([low], BuyAll(ticker), 10).trades == [Execute(BuyAll(ticker), low, 5)];
  }

  /** Adds that meet no opposite order just queue up. */
  lemma AddQueues(live: seq<Live>, o: OrderAdd)
    requires (forall i :: 0 <= i < |live| ==> live[i].side == o.side) && o.volume > 0
    ensures ApplyLive(live, Add(o)) == Result(live + [Live(o.side, AsQuote(o, o.volume))], [])
  {
    assert Pick(live, o) == None;
  }

  lemma RunLiveOneMore(cmds: seq<Command>, k: nat)
    requires k < |cmds|
    ensures var before := RunLive(cmds[..k]);
            RunLive(cmds[..k + 1]) == Result(ApplyLive(before.live, cmds[k]).live,
                                             before.trades + ApplyLive(before.live, cmds[k]).trades)
  {
    assert cmds[..k + 1][..k] == cmds[..k];
  }

  lemma ReuseOnReference(ticker: Ticker)
    ensures RunLive(Reuse(ticker)).trades == []
  {
    var cmds := Reuse(ticker);
    var low, high := SellAt(100, ticker), SellAt(101, ticker);
    AddQueues([], low);
    RunLiveOneMore(cmds, 0);
    AddQueues([Live(Sell, AsQuote(low, 5))], high);
    RunLiveOneMore(cmds, 1);
    CancelClears(Live(Sell, AsQuote(low, 5)), Live(Sell, AsQuote(high, 5)), OrderCancel(1, 7, ticker));
    RunLiveOneMore(cmds, 2);
    AddQueues([], BuyAll(ticker));
    RunLiveOneMore(cmds, 3);
    assert cmds[..4] == cmds;
  }

  lemma CancelClears(x: Live, y: Live, c: OrderCancel)
    requires x.quote.orderId == y.quote.orderId == c.orderId && x.quote.userId == y.quote.userId == c.userId
    ensures KeepOthers([x] + [y], c) == []
  {
    assert ([x] + [y])[..1] == [x];
    assert KeepOthers([x], c) == [];
  }

  /** The freshness hypothesis is needed: with a reused id the engine cancels only the order its
      index remembers and still trades with the other. */
  lemma ReusedIdDiverges(ticker: Ticker)
    ensures |Run(Reuse(ticker)).trades| == 1 && RunLive(Reuse(ticker)).trades == []
  {
    ReuseOnEngine(ticker);
    ReuseOnReference(ticker);
  }
}
