/** The router as it runs: a fixed array of engine objects, one mutated per command. */
module Routing {
  import opened Types
  import opened EngineModel
  import opened Matching
  import opened RouterModel

  method NewEngines(count: nat) returns (list: seq<MatchingEngine>)
    ensures |list| == count && fresh(list)
    ensures forall i, j :: 0 <= i < j < |list| ==> list[i] != list[j]
    ensures forall i :: 0 <= i < |list| ==> list[i].Valid() && list[i].View() == EMPTY
  {
    list := [];
    while |list| < count
      invariant |list| <= count && fresh(list)
      invariant forall i, j :: 0 <= i < j < |list| ==> list[i] != list[j]
      invariant forall i :: 0 <= i < |list| ==> list[i].Valid() && list[i].View() == EMPTY
    {
      var engine := new MatchingEngine();
      list := list + [engine];
    }
  }

  class MatchingEngineRouter {
    const engines: seq<MatchingEngine>

    ghost predicate Valid()
      reads this, engines
    {
      && |engines| == LISTED
      && (forall i, j :: 0 <= i < j < LISTED ==> engines[i] != engines[j])
      && (forall i :: 0 <= i < LISTED ==> engines[i].Valid())
    }

    ghost function View(): (v: Engines)
      requires |engines| == LISTED
      reads engines
      ensures forall i :: 0 <= i < LISTED ==> v[i] == engines[i].View()
    {
      seq(LISTED, i requires 0 <= i < |engines| reads engines => engines[i].View())
    }

    constructor ()
      ensures Valid() && fresh(engines) && View() == ALL_EMPTY
    {
      var list := NewEngines(LISTED);
      engines := list;
      new;
      assert forall i :: 0 <= i < LISTED ==> View()[i] == EMPTY == ALL_EMPTY[i];
    }

    method OnOrderAdd(order: OrderAdd) returns (trades: seq<Trade>)
      requires Valid()
      modifies engines
      ensures Valid()
      ensures Routed(View(), trades) == Route(old(View()), Add(order))
    {
      var index := TickerIndex(order.ticker);
      trades := [];
      if index < |engines| {
        ghost var before := View();
        trades := engines[index].OnOrderAdd(order);
        assert View() == before[index := engines[index].View()];
      }
    }

    method OnOrderCancel(cancel: OrderCancel)
      requires Valid()
      modifies engines
      ensures Valid()
      ensures Routed(View(), []) == Route(old(View()), Cancel(cancel))
    {
      var index := TickerIndex(cancel.ticker);
      if index < |engines| {
        ghost var before := View();
        engines[index].OnOrderCancel(cancel);
        assert View() == before[index := engines[index].View()];
      }
    }

    /** Absent for an unlisted ticker. */
    method MidPrice(ticker: Ticker) returns (mid: Option<Price>)
      requires Valid()
      ensures forall i :: 0 <= i < LISTED && INSTRUMENTS[i] == ticker ==> mid == View()[i].mid
      ensures ticker !in INSTRUMENTS ==> mid == None
    {
      var index := TickerIndex(ticker);
      mid := if index < |engines| then engines[index].midPrice else None;
      forall i | 0 <= i < LISTED && INSTRUMENTS[i] == ticker ensures mid == View()[i].mid {
        TickerIndexOfListed(i);
      }
    }
  }

  /** Whole runs of the router object follow the model. */
  method ReplayRouted(cmds: seq<Command>) returns (router: MatchingEngineRouter, trades: seq<Trade>)
    ensures fresh(router) && fresh(router.engines) && router.Valid()
    ensures Routed(router.View(), trades) == RunRouter(cmds)
  {
    router := new MatchingEngineRouter();
    trades := [];
    for k := 0 to |cmds|
      invariant fresh(router) && fresh(router.engines) && router.Valid()
      invariant Routed(router.View(), trades) == RunRouter(cmds[..k])
    {
      RunOneMore(cmds, k);
      match cmds[k]
      case Add(order) =>
        var more := router.OnOrderAdd(order);
        trades := trades + more;
      case Cancel(cancel) =>
        router.OnOrderCancel(cancel);
        assert trades + [] == trades;
    }
    assert cmds[..|cmds|] == cmds;
  }
}
