/** The inventory thread inside one trade, statement by statement: the maker is filled before the
    taker, and only then is the mid read and both are marked. */
module Settlement {
  import opened Types
  import opened AccountsModel

  /** The statement the thread is about to execute. */
  datatype Stage =
    | FillMaker(trade: Trade)
    | FillTaker(trade: Trade)
    | ReadMid(trade: Trade)
    | MarkMaker(trade: Trade, mid: Price)
    | MarkTaker(trade: Trade, mid: Price)

  function StageDo(accounts: Accounts, stage: Stage): Accounts
    requires Settles(stage.trade, |accounts|)
  {
    match stage
    case FillMaker(t) => FillUser(accounts, t.makerId, t.ticker, Opposite(t.takerSide), t.executionPrice, t.volume)
    case FillTaker(t) => FillUser(accounts, t.takerId, t.ticker, t.takerSide, t.executionPrice, t.volume)
    case ReadMid(_) => accounts
    case MarkMaker(t, mid) => RevalueUser(accounts, t.makerId, t.ticker, mid)
    case MarkTaker(t, mid) => RevalueUser(accounts, t.takerId, t.ticker, mid)
  }

  /** What follows, `now` being the mid price published at this moment; `None` when the trade is
      settled, as it is right after a read that finds no mid. */
  function StageNext(stage: Stage, now: Option<Price>): Option<Stage> {
    match stage
    case FillMaker(t) => Some(FillTaker(t))
    case FillTaker(t) => Some(ReadMid(t))
    case ReadMid(t) => (match now case None => None case Some(mid) => Some(MarkMaker(t, mid)))
    case MarkMaker(t, mid) => Some(MarkTaker(t, mid))
    case MarkTaker(_, _) => None
  }

  /** The mid a settlement has used, once it is at its end. */
  function MidUsed(stage: Stage): Option<Price> {
    if stage.MarkTaker? then Some(stage.mid) else None
  }

  /** Accounts part way through a trade that began with `base`. */
  function Reached(base: Accounts, stage: Stage): (accounts: Accounts)
    requires Settles(stage.trade, |base|)
    ensures |accounts| == |base|
  {
    match stage
    case FillMaker(_) => base
    case FillTaker(t) => StageDo(base, FillMaker(t))
    case ReadMid(t) => FillBoth(base, t)
    case MarkMaker(t, _) => FillBoth(base, t)
    case MarkTaker(t, mid) => StageDo(FillBoth(base, t), MarkMaker(t, mid))
  }

  /** The stages one after the other are the settlement. */
  lemma StageReaches(base: Accounts, stage: Stage, now: Option<Price>)
    requires Settles(stage.trade, |base|)
    ensures var after := StageDo(Reached(base, stage), stage);
            match StageNext(stage, now)
            case None => after == Settle(base, stage.trade, MidUsed(stage))
            case Some(next) => after == Reached(base, next)
  {
  }

  /** The one moment at which accounts do not balance is between the two fills. */
  lemma ReachedTotals(base: Accounts, stage: Stage, ticker: Ticker)
    requires Settles(stage.trade, |base|)
    ensures var t := stage.trade;
            var (shares, cash) := if stage.FillTaker? then Moved(t, Opposite(t.takerSide), ticker) else (0, 0.0);
            && TotalPosition(Reached(base, stage), ticker) == TotalPosition(base, ticker) + shares
            && TotalCash(Reached(base, stage), ticker) == TotalCash(base, ticker) + cash
  {
    var t := stage.trade;
    match stage
    case FillMaker(_) =>
    case FillTaker(_) => FillUserTotals(base, t, t.makerId, Opposite(t.takerSide), ticker);
    case ReadMid(_) => FillBothKeepsTotals(base, t, ticker);
    case MarkMaker(_, _) => FillBothKeepsTotals(base, t, ticker);
    case MarkTaker(_, mid) =>
      FillBothKeepsTotals(base, t, ticker);
      RevalueTotals(FillBoth(base, t), t.makerId, t.ticker, mid, ticker);
  }

  function StagesLeft(stage: Stage): nat {
    match stage
    case FillMaker(_) => 5
    case FillTaker(_) => 4
    case ReadMid(_) => 3
    case MarkMaker(_, _) => 2
    case MarkTaker(_, _) => 1
  }
}
