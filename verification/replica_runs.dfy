/** The replica over whole runs: it holds exactly the engines' resting orders throughout if and only
    if every command was well behaved. */
module ReplicaRuns {
  import opened Types
  import opened Quotes
  import opened EngineModel
  import opened RouterModel
  import opened ReplicaModel
  import opened ReplicaAgreement
  import opened ReplicaReuse
  import opened Throughout

  lemma {:induction false} OpenAre(q: seq<Quote>, ticker: Ticker, side: Side, id: OrderId)
    requires Positive(q) && id in OrdersOf(q, ticker, side)
    ensures var x := OrdersOf(q, ticker, side)[id]; x.volume > 0 && x.ticker == ticker
  {
    if id != q[0].orderId { OpenAre(q[1..], ticker, side, id); }
  }

  /** Everything the engines hold is positive and on a listed ticker. */
  lemma {:induction false} MirrorHoldsReal(engines: Engines, n: nat, id: OrderId)
    requires n <= LISTED && id in MirrorUpTo(engines, n)
    requires forall i :: 0 <= i < LISTED ==> Orderly(engines[i])
    ensures var x := MirrorUpTo(engines, n)[id]; x.volume > 0 && x.ticker in INSTRUMENTS
  {
    var ticker, e := INSTRUMENTS[n - 1], engines[n - 1];
    if id in OrdersOf(e.asks, ticker, Sell) {
      OpenAre(e.asks, ticker, Sell, id);
    } else if id in OrdersOf(e.bids, ticker, Buy) {
      OpenAre(e.bids, ticker, Buy, id);
    } else {
      MirrorHoldsReal(engines, n - 1, id);
    }
  }

  /** An add that is unlisted or not positive prints nothing and changes no resting order. */
  lemma BadAddIgnored(engines: Engines, o: OrderAdd)
    requires !Listed(Add(o)) || o.volume <= 0
    ensures Route(engines, Add(o)).trades == []
    ensures Mirror(Route(engines, Add(o)).engines) == Mirror(engines)
  {
    if Listed(Add(o)) {
      var i := TickerIndex(o.ticker);
      SameMirror(engines, i, AddOrder(engines[i], o).engine, LISTED);
    }
  }

  lemma {:induction false} SameMirror(engines: Engines, i: nat, e: Engine, n: nat)
    requires i < LISTED && n <= LISTED && e.bids == engines[i].bids && e.asks == engines[i].asks
    ensures MirrorUpTo(engines[i := e], n) == MirrorUpTo(engines, n)
  {
    if n == 0 {
    } else {
      SameMirror(engines, i, e, n - 1);
      var after: Engines := engines[i := e];
      assert after[n - 1].bids == engines[n - 1].bids && after[n - 1].asks == engines[n - 1].asks;
      assert BookOf(after[n - 1], INSTRUMENTS[n - 1]) == BookOf(engines[n - 1], INSTRUMENTS[n - 1]);
    }
  }

  lemma BadAddDisagrees(engines: Engines, o: OrderAdd)
    requires Separate(engines) && (!Listed(Add(o)) || o.volume <= 0)
    ensures !Agrees(engines, Add(o))
  {
    BadAddIgnored(engines, o);
    ApplyAddThenTrades(Mirror(engines), o, []);
    ApplyNothing(Mirror(engines)[o.orderId := OpenOf(o, o.volume)]);
    if o.orderId in Mirror(engines) {
      MirrorHoldsReal(engines, LISTED, o.orderId);
      if !Listed(Add(o)) {
        assert forall i :: 0 <= i < LISTED ==> INSTRUMENTS[i] != o.ticker;
      }
    }
  }

  /** One command, from any agreeing state: the replica still agrees if and only if the command
      was well behaved. */
  lemma AgreesExactlyWhen(engines: Engines, cmd: Command)
    requires Separate(engines)
    ensures Agrees(engines, cmd) <==> WellBehaved(engines, cmd)
    ensures WellBehaved(engines, cmd) ==> Separate(Route(engines, cmd).engines)
  {
    match cmd
    case Add(o) =>
      if !Listed(cmd) || o.volume <= 0 {
        BadAddDisagrees(engines, o);
      } else if o.orderId !in Mirror(engines) {
        NewOrderAgrees(engines, o);
      } else {
        ReusedIdAgreesExactlyWhen(engines, o);
      }
    case Cancel(c) => CancelAgreesExactlyWhen(engines, c);
  }

  /** Every command was well behaved when it came. */
  predicate WellBehavedRun(cmds: seq<Command>) {
    cmds == []
    || (WellBehavedRun(cmds[..|cmds| - 1])
        && WellBehaved(RunRouter(cmds[..|cmds| - 1]).engines, cmds[|cmds| - 1]))
  }

  /** The replica after one more command's events. */
  lemma FeedOneMore(cmds: seq<Command>)
    requires cmds != []
    ensures var engines, cmd := RunRouter(cmds[..|cmds| - 1]).engines, cmds[|cmds| - 1];
            && RunRouter(cmds).engines == Route(engines, cmd).engines
            && ApplyEvents(map[], Feed(cmds))
               == ApplyEvents(ApplyEvents(map[], Feed(cmds[..|cmds| - 1])), Published(cmd, Route(engines, cmd).trades))
  {
    var init, cmd := cmds[..|cmds| - 1], cmds[|cmds| - 1];
    ApplyConcat(map[], Feed(init), Published(cmd, Route(RunRouter(init).engines, cmd).trades));
  }

  /** On a well-behaved stream the replica, fed every event from the start, holds exactly the
      resting orders of all engines after each command. */
  lemma {:induction false} ReplicaFollows(cmds: seq<Command>)
    requires WellBehavedRun(cmds)
    ensures ApplyEvents(map[], Feed(cmds)) == Mirror(RunRouter(cmds).engines)
    ensures Separate(RunRouter(cmds).engines)
  {
    if cmds == [] {
      EmptySeparate();
    } else {
      var init, cmd := cmds[..|cmds| - 1], cmds[|cmds| - 1];
      ReplicaFollows(init);
      FeedOneMore(cmds);
      AgreesExactlyWhen(RunRouter(init).engines, cmd);
    }
  }

  lemma EmptySeparate()
    ensures Separate(ALL_EMPTY) && Mirror(ALL_EMPTY) == map[]
  {
    forall id ensures id !in Mirror(ALL_EMPTY) {
      MirrorKeys(ALL_EMPTY, LISTED, id);
    }
    forall i, j, id | 0 <= i < j < LISTED ensures !(EngineHasId(ALL_EMPTY, i, id) && EngineHasId(ALL_EMPTY, j, id)) {
      assert ALL_EMPTY[i] == EMPTY;
    }
  }

  /** After `cmds` the replica holds exactly the engines' resting orders. */
  ghost predicate Followed(cmds: seq<Command>) {
    Holds(ApplyEvents(map[], Feed(cmds)), RunRouter(cmds).engines)
  }

  lemma FollowedOneMore(cmds: seq<Command>)
    requires cmds != [] && WellBehavedRun(cmds[..|cmds| - 1])
    ensures Followed(cmds[..|cmds| - 1])
    ensures Followed(cmds) <==> WellBehaved(RunRouter(cmds[..|cmds| - 1]).engines, cmds[|cmds| - 1])
  {
    var init := cmds[..|cmds| - 1];
    ReplicaFollows(init);
    SeparateOnePerId(RunRouter(init).engines);
    FeedOneMore(cmds);
    AgreesExactlyWhen(RunRouter(init).engines, cmds[|cmds| - 1]);
  }

  lemma {:induction false} AlwaysFollowed(cmds: seq<Command>)
    ensures Always(Followed, cmds) <==> WellBehavedRun(cmds)
  {
    if cmds == [] {
      EmptySeparate();
      SeparateOnePerId(ALL_EMPTY);
    } else {
      AlwaysFollowed(cmds[..|cmds| - 1]);
      if WellBehavedRun(cmds[..|cmds| - 1]) {
        FollowedOneMore(cmds);
      }
    }
  }

  /** Every run of any commands: the replica was right after each of them if and only if each of
      them was well behaved. */
  lemma FollowsExactlyWhen(cmds: seq<Command>)
    ensures (forall k :: 0 <= k <= |cmds| ==> Followed(cmds[..k])) <==> WellBehavedRun(cmds)
  {
    AlwaysMeans(Followed, cmds);
    AlwaysFollowed(cmds);
  }

  lemma FirstOrderRests(o: OrderAdd)
    requires Listed(Add(o)) && o.volume > 0
    ensures var e := Route(ALL_EMPTY, Add(o)).engines[TickerIndex(o.ticker)];
            QuotesOf(e, o.side) == [AsQuote(o, o.volume)] && QuotesOf(e, Opposite(o.side)) == []
  {
    assert ALL_EMPTY[TickerIndex(o.ticker)] == EMPTY;
  }

  lemma ForeignCancelIll(o: OrderAdd, c: OrderCancel)
    requires Listed(Add(o)) && o.volume > 0 && c.orderId == o.orderId && c.userId != o.userId
    ensures !WellBehaved(Route(ALL_EMPTY, Add(o)).engines, Cancel(c))
  {
    var i, engines := TickerIndex(o.ticker), Route(ALL_EMPTY, Add(o)).engines;
    FirstOrderRests(o);
    assert QuotesOf(engines[i], o.side)[0].orderId == c.orderId;
    assert EngineHasId(engines, i, c.orderId);
    MirrorKeys(engines, LISTED, c.orderId);
    forall j | 0 <= j < LISTED ensures !OwnRests(engines[j], c) {
      if j == i {
        assert !OwnIn(QuotesOf(engines[i], o.side), c) && !OwnIn(QuotesOf(engines[i], Opposite(o.side)), c);
      } else {
        assert engines[j] == EMPTY;
      }
    }
  }

  lemma FirstStepOf(cmds: seq<Command>)
    requires cmds != []
    ensures RunRouter(cmds[..0]).engines == ALL_EMPTY
    ensures RunRouter(cmds[..1]).engines == Route(ALL_EMPTY, cmds[0]).engines
  {
    assert cmds[..0] == [];
    RunOneMore(cmds, 0);
  }

  lemma FirstWellBehaved(cmds: seq<Command>, o: OrderAdd)
    requires |cmds| == 1 && cmds[0] == Add(o) && Listed(Add(o)) && o.volume > 0
    ensures WellBehavedRun(cmds)
  {
    EmptySeparate();
    assert cmds[..0] == [];
    assert RunRouter([]).engines == ALL_EMPTY;
  }

  /** The listener claims to mirror the exchange; a cancel sent by somebody else is enough to make
      it drop an order the engine keeps. */
  lemma ForeignCancelHides(cmds: seq<Command>, o: OrderAdd, c: OrderCancel)
    requires Listed(Add(o)) && o.volume > 0 && c.orderId == o.orderId && c.userId != o.userId
    requires |cmds| == 2 && cmds[0] == Add(o) && cmds[1] == Cancel(c)
    ensures Followed(cmds[..1]) && !Followed(cmds)
  {
    FirstStepOf(cmds);
    ForeignCancelIll(o, c);
    FirstWellBehaved(cmds[..1], o);
    FollowedOneMore(cmds);
  }
}
