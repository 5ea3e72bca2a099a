/** Average-cost accounting for one position, its exact relation to cash flows, and the
    zero-sum law over all users. Money is exact: `real` in place of double. */
module AccountsModel {
  import opened Types

  datatype Holding = Holding(volume: int, avgCost: real, realizedPnl: real, unrealizedPnl: real)

  const FLAT := Holding(0, 0.0, 0.0, 0.0)

  const PRICE_MULTIPLIER := 1000000.0

  function ToUsd(price: Price): real {
    price as real / PRICE_MULTIPLIER
  }

  function Abs(n: int): nat {
    if n < 0 then -n else n
  }

  function Signed(side: Side, volume: int): int {
    if side.Buy? then volume else -volume
  }

  datatype Effect = Extends | Reduces | Closes | Flips

  /** What a signed change does to a signed position. */
  function EffectOf(position: int, delta: int): Effect {
    if position == 0 || (position > 0) == (delta > 0) then Extends
    else if Abs(delta) < Abs(position) then Reduces
    else if Abs(delta) == Abs(position) then Closes
    else Flips
  }

  /** Average price of `x` shares at `a` and `y` shares at `b`. */
  function Blend(a: real, x: real, b: real, y: real): real
    requires x + y != 0.0
  {
    (a * x + b * y) / (x + y)
  }

  /** A signed fill at `usd` per share. One of nothing on a flat holding leaves it flat. */
  function Fill(h: Holding, delta: int, usd: real): Holding {
    var volume := h.volume + delta;
    match EffectOf(h.volume, delta)
    case Extends =>
      var before, more := Abs(h.volume) as real, Abs(delta) as real;
      h.(volume := volume, avgCost := if before + more == 0.0 then 0.0 else Blend(h.avgCost, before, usd, more))
    case Reduces =>
      h.(volume := volume, realizedPnl := h.realizedPnl + (usd - h.avgCost) * (-delta) as real)
    case Closes =>
      h.(volume := 0, avgCost := 0.0, realizedPnl := h.realizedPnl + (usd - h.avgCost) * h.volume as real)
    case Flips =>
      h.(volume := volume, avgCost := usd, realizedPnl := h.realizedPnl + (usd - h.avgCost) * h.volume as real)
  }

  /** Total P&L at a mark: realized, plus the open position against its cost basis. */
  function Net(h: Holding, mark: real): real {
    h.realizedPnl + h.volume as real * (mark - h.avgCost)
  }

  /** Realized P&L less the cost basis still open. */
  function CashFlow(h: Holding): real {
    h.realizedPnl - h.volume as real * h.avgCost
  }

  function Cost(delta: int, usd: real): real {
    delta as real * usd
  }

  lemma NetIsCashPlusMark(h: Holding, mark: real)
    ensures Net(h, mark) == CashFlow(h) + h.volume as real * mark
  {
  }

  lemma WeightedAverage(a: real, x: real, b: real, y: real)
    requires x + y != 0.0
    ensures Blend(a, x, b, y) * (x + y) == a * x + b * y
  {
  }

  lemma ExtendBasis(h: Holding, delta: int, usd: real)
    requires EffectOf(h.volume, delta).Extends?
    ensures (h.volume + delta) as real * Fill(h, delta, usd).avgCost
         == h.volume as real * h.avgCost + delta as real * usd
  {
    if h.volume != 0 || delta != 0 {
      WeightedAverage(h.avgCost, Abs(h.volume) as real, usd, Abs(delta) as real);
    }
  }

  /** The accounting identity, one fill at a time and in every branch: cash flow falls by
      exactly what the fill cost. */
  lemma FillMovesCash(h: Holding, delta: int, usd: real)
    ensures Fill(h, delta, usd).volume == h.volume + delta
    ensures CashFlow(Fill(h, delta, usd)) == CashFlow(h) - Cost(delta, usd)
  {
    var p, d := h.volume as real, delta as real;
    match EffectOf(h.volume, delta)
    case Extends => ExtendBasis(h, delta, usd);
    case Reduces =>
      assert (usd - h.avgCost) * (-d) == d * h.avgCost - d * usd;
      assert (p + d) * h.avgCost == p * h.avgCost + d * h.avgCost;
    case Closes =>
      assert (usd - h.avgCost) * p == p * usd - p * h.avgCost;
    case Flips =>
      assert (usd - h.avgCost) * p == p * usd - p * h.avgCost;
      assert (p + d) * usd == p * usd + d * usd;
  }

  lemma CancelFactor(x: real, y: real, n: real)
    requires n != 0.0 && n * x == n * y
    ensures x == y
  {
    assert n * (x - y) == 0.0;
  }

  lemma SumTimes(a: real, b: real, x: real)
    ensures a * x + b * x == (a + b) * x
  {
  }

  /** Averaging in `y` and then `z` shares at one price is averaging in `y + z`. */
  lemma BlendSplits(a: real, x: real, u: real, y: real, z: real)
    requires x >= 0.0 && y > 0.0 && z > 0.0
    ensures Blend(Blend(a, x, u, y), x + y, u, z) == Blend(a, x, u, y + z)
  {
    var first := Blend(a, x, u, y);
    var twice, once := Blend(first, x + y, u, z), Blend(a, x, u, y + z);
    WeightedAverage(a, x, u, y);
    WeightedAverage(first, x + y, u, z);
    WeightedAverage(a, x, u, y + z);
    CancelFactor(twice, once, x + y + z);
  }

  lemma SplitExtend(h: Holding, a: int, b: int, usd: real)
    requires (a > 0 && b > 0) || (a < 0 && b < 0)
    requires EffectOf(h.volume, a + b).Extends?
    ensures Fill(Fill(h, a, usd), b, usd) == Fill(h, a + b, usd)
  {
    var x, y, z := Abs(h.volume) as real, Abs(a) as real, Abs(b) as real;
    BlendSplits(h.avgCost, x, usd, y, z);
    assert Abs(h.volume + a) as real == x + y && Abs(a + b) as real == y + z;
  }

  lemma SplitFactor(k: real, a: real, b: real)
    ensures k * a + k * b == k * (a + b)
  {
  }

  lemma SplitWithin(h: Holding, a: int, b: int, usd: real)
    requires (a > 0 && b > 0) || (a < 0 && b < 0)
    requires EffectOf(h.volume, a + b).Reduces?
    ensures Fill(Fill(h, a, usd), b, usd) == Fill(h, a + b, usd)
  {
    var gain, first := usd - h.avgCost, Fill(h, a, usd);
    assert EffectOf(h.volume, a).Reduces? && EffectOf(first.volume, b).Reduces?;
    assert first.realizedPnl == h.realizedPnl + gain * (-a) as real;
    assert Fill(first, b, usd).realizedPnl == h.realizedPnl + gain * (-a) as real + gain * (-b) as real;
    assert (-a) as real + (-b) as real == (-(a + b)) as real;
    SplitFactor(gain, (-a) as real, (-b) as real);
  }

  lemma SplitThrough(h: Holding, a: int, b: int, usd: real)
    requires (a > 0 && b > 0) || (a < 0 && b < 0)
    requires EffectOf(h.volume, a).Reduces? && !EffectOf(h.volume, a + b).Reduces?
    ensures Fill(Fill(h, a, usd), b, usd) == Fill(h, a + b, usd)
  {
    SplitFactor(usd - h.avgCost, (-a) as real, (h.volume + a) as real);
    assert (-a) as real + (h.volume + a) as real == h.volume as real;
  }

  /** Opening from flat, or adding at the average, leaves the average at the fill price. */
  lemma FreshOpen(h: Holding, b: int, usd: real)
    requires b != 0 && EffectOf(h.volume, b).Extends?
    requires h.volume == 0 || h.avgCost == usd
    ensures Fill(h, b, usd) == h.(volume := h.volume + b, avgCost := usd)
  {
    BlendAtPrice(h.avgCost, Abs(h.volume) as real, usd, Abs(b) as real);
  }

  lemma BlendAtPrice(a: real, x: real, u: real, y: real)
    requires x >= 0.0 && y > 0.0 && (x == 0.0 || a == u)
    ensures Blend(a, x, u, y) == u
  {
    WeightedAverage(a, x, u, y);
    SumTimes(x, y, u);
    CancelFactor(Blend(a, x, u, y), u, x + y);
  }

  lemma SplitPast(h: Holding, a: int, b: int, usd: real)
    requires (a > 0 && b > 0) || (a < 0 && b < 0)
    requires EffectOf(h.volume, a).Closes? || EffectOf(h.volume, a).Flips?
    ensures Fill(Fill(h, a, usd), b, usd) == Fill(h, a + b, usd)
  {
    var first, once := Fill(h, a, usd), Fill(h, a + b, usd);
    assert EffectOf(h.volume, a + b).Flips?;
    assert first.realizedPnl == once.realizedPnl == h.realizedPnl + (usd - h.avgCost) * h.volume as real;
    FreshOpen(first, b, usd);
  }

  /** A fill may be split: filling `a` and then `b` shares at one price is filling `a + b`,
      also when the first part closes the position and the second opens the other way. So a flip
      is exactly a close followed by a fresh open. */
  lemma FillSplits(h: Holding, a: int, b: int, usd: real)
    requires (a > 0 && b > 0) || (a < 0 && b < 0)
    ensures Fill(Fill(h, a, usd), b, usd) == Fill(h, a + b, usd)
  {
    if EffectOf(h.volume, a + b).Extends? {
      SplitExtend(h, a, b, usd);
    } else if EffectOf(h.volume, a + b).Reduces? {
      SplitWithin(h, a, b, usd);
    } else if EffectOf(h.volume, a).Reduces? {
      SplitThrough(h, a, b, usd);
    } else {
      SplitPast(h, a, b, usd);
    }
  }

  /** The four effects in terms of the two tests the code makes. */
  lemma FillByTests(h: Holding, delta: int, usd: real)
    ensures var same := h.volume == 0 || (h.volume > 0) == (delta > 0);
            var after := h.volume + delta;
            var flipped := (h.volume > 0 && after < 0) || (h.volume < 0 && after > 0);
            var goal := Fill(h, delta, usd);
            && goal.volume == after && goal.unrealizedPnl == h.unrealizedPnl
            && (same <==> EffectOf(h.volume, delta).Extends?)
            && (same ==> goal.realizedPnl == h.realizedPnl)
            && (!same && flipped ==> goal.avgCost == usd)
            && (!(!same && flipped) && after == 0 ==> goal.avgCost == 0.0)
            && (!(!same && flipped) && after != 0 ==>
                  goal.avgCost == if same then Blend(h.avgCost, Abs(h.volume) as real, usd, Abs(delta) as real)
                                  else h.avgCost)
  {
  }

  /** What a closing fill realizes, per unit and unit by unit. */
  lemma RealizedOnClosed(h: Holding, delta: int, usd: real)
    requires !EffectOf(h.volume, delta).Extends?
    ensures var perUnit := if h.volume > 0 then usd - h.avgCost else h.avgCost - usd;
            Fill(h, delta, usd).realizedPnl
              == h.realizedPnl + perUnit * Min(Abs(h.volume), Abs(delta)) as real
  {
    var k, n := usd - h.avgCost, Min(Abs(h.volume), Abs(delta)) as real;
    assert (-k) * n == k * (-n);
  }

  // ----- sequences of fills -----

  datatype Execution = Execution(delta: int, usd: real)

  function FillAll(h: Holding, fills: seq<Execution>): Holding
    decreases |fills|
  {
    if fills == [] then h
    else FillAll(Fill(h, fills[0].delta, fills[0].usd), fills[1..])
  }

  function Bought(fills: seq<Execution>): int {
    if fills == [] then 0 else fills[0].delta + Bought(fills[1..])
  }

  /** Money spent, net of money received. */
  function Spent(fills: seq<Execution>): real {
    if fills == [] then 0.0 else Cost(fills[0].delta, fills[0].usd) + Spent(fills[1..])
  }

  lemma {:induction false} FillAllMovesCash(h: Holding, fills: seq<Execution>)
    ensures FillAll(h, fills).volume == h.volume + Bought(fills)
    ensures CashFlow(FillAll(h, fills)) == CashFlow(h) - Spent(fills)
    decreases |fills|
  {
    if fills == [] {
    } else {
      FillMovesCash(h, fills[0].delta, fills[0].usd);
      FillAllMovesCash(Fill(h, fills[0].delta, fills[0].usd), fills[1..]);
    }
  }

  /** Realized P&L is cash flow plus the cost basis of what is still open. */
  lemma RealizedIsCashPlusBasis(fills: seq<Execution>)
    ensures var h := FillAll(FLAT, fills);
            h.realizedPnl == -Spent(fills) + h.volume as real * h.avgCost
  {
    FillAllMovesCash(FLAT, fills);
  }

  lemma {:induction false} RemoveOne(fills: seq<Execution>, k: nat)
    requires k < |fills|
    ensures Bought(fills) == fills[k].delta + Bought(fills[..k] + fills[k + 1..])
    ensures Spent(fills) == Cost(fills[k].delta, fills[k].usd) + Spent(fills[..k] + fills[k + 1..])
  {
    var rest := fills[..k] + fills[k + 1..];
    if k == 0 {
      assert rest == fills[1..];
    } else {
      RemoveOne(fills[1..], k - 1);
      assert rest[0] == fills[0] && rest[1..] == fills[1..][..k - 1] + fills[1..][k..];
    }
  }

  lemma MultisetWithout(fills: seq<Execution>, k: nat)
    requires k < |fills|
    ensures multiset(fills[..k] + fills[k + 1..]) == multiset(fills) - multiset{fills[k]}
  {
    assert fills == fills[..k] + [fills[k]] + fills[k + 1..];
  }

  lemma MultisetOfTail(fills: seq<Execution>)
    requires fills != []
    ensures multiset(fills[1..]) == multiset(fills) - multiset{fills[0]}
  {
    assert fills == [fills[0]] + fills[1..];
  }

  lemma Occurs(fills: seq<Execution>, x: Execution) returns (k: nat)
    requires x in multiset(fills)
    ensures k < |fills| && fills[k] == x
  {
    assert x in fills;
    k :| 0 <= k < |fills| && fills[k] == x;
  }

  lemma MatchHead(a: seq<Execution>, b: seq<Execution>) returns (k: nat)
    requires multiset(a) == multiset(b) && a != []
    ensures k < |b| && b[k] == a[0]
    ensures multiset(a[1..]) == multiset(b[..k] + b[k + 1..])
  {
    assert a[0] in multiset(a) by { assert a[0] in a; }
    k := Occurs(b, a[0]);
    MultisetWithout(b, k);
    MultisetOfTail(a);
  }

  lemma {:induction false} TotalsIgnoreOrder(a: seq<Execution>, b: seq<Execution>)
    requires multiset(a) == multiset(b)
    ensures Bought(a) == Bought(b) && Spent(a) == Spent(b)
  {
    assert |a| == |multiset(a)| && |b| == |multiset(b)|;
    if a == [] {
    } else {
      var k := MatchHead(a, b);
      RemoveOne(b, k);
      TotalsIgnoreOrder(a[1..], b[..k] + b[k + 1..]);
    }
  }

  /** Position and total P&L at any mark do not depend on the order of the fills. */
  lemma NetIgnoresOrder(a: seq<Execution>, b: seq<Execution>, mark: real)
    requires multiset(a) == multiset(b)
    ensures FillAll(FLAT, a).volume == FillAll(FLAT, b).volume
    ensures Net(FillAll(FLAT, a), mark) == Net(FillAll(FLAT, b), mark)
  {
    TotalsIgnoreOrder(a, b);
    FillAllMovesCash(FLAT, a);
    FillAllMovesCash(FLAT, b);
    SameNet(FillAll(FLAT, a), FillAll(FLAT, b), mark);
  }

  lemma SameNet(a: Holding, b: Holding, mark: real)
    requires a.volume == b.volume && CashFlow(a) == CashFlow(b)
    ensures Net(a, mark) == Net(b, mark)
  {
    NetIsCashPlusMark(a, mark);
    NetIsCashPlusMark(b, mark);
  }

  /** The split between realized and open P&L does depend on it. */
  lemma RealizedDependsOnOrder()
    ensures var a := [Execution(1, 1.0), Execution(-1, 2.0), Execution(1, 3.0)];
            var b := [Execution(1, 1.0), Execution(1, 3.0), Execution(-1, 2.0)];
            && multiset(a) == multiset(b)
            && FillAll(FLAT, a).realizedPnl == 1.0 && FillAll(FLAT, b).realizedPnl == 0.0
  {
    var a := [Execution(1, 1.0), Execution(-1, 2.0), Execution(1, 3.0)];
    var b := [Execution(1, 1.0), Execution(1, 3.0), Execution(-1, 2.0)];
    assert a[1..] == [a[1], a[2]] && a[1..][1..] == [a[2]] && a[1..][1..][1..] == [];
    assert b[1..] == [b[1], b[2]] && b[1..][1..] == [b[2]] && b[1..][1..][1..] == [];
    var h1 := Fill(FLAT, 1, 1.0);
    assert h1 == Holding(1, 1.0, 0.0, 0.0);
    var h2 := Fill(h1, -1, 2.0);
    assert h2 == Holding(0, 0.0, 1.0, 0.0);
    assert Fill(h1, 1, 3.0) == Holding(2, 2.0, 0.0, 0.0);
  }

  /** A user who ends flat has realized all the cash they took out. */
  lemma FlatRealizesCash(fills: seq<Execution>)
    requires Bought(fills) == 0
    ensures FillAll(FLAT, fills).realizedPnl == -Spent(fills)
  {
    FillAllMovesCash(FLAT, fills);
  }

  /** Two orders of the same fills realize the same exactly if the user ends flat, or with the same
      average cost. */
  lemma RealizedAgreesExactlyWhen(a: seq<Execution>, b: seq<Execution>)
    requires multiset(a) == multiset(b)
    ensures FillAll(FLAT, a).realizedPnl == FillAll(FLAT, b).realizedPnl
       <==> Bought(a) == 0 || FillAll(FLAT, a).avgCost == FillAll(FLAT, b).avgCost
  {
    TotalsIgnoreOrder(a, b);
    FillAllMovesCash(FLAT, a);
    FillAllMovesCash(FLAT, b);
    SameRealized(FillAll(FLAT, a), FillAll(FLAT, b));
  }

  lemma SameRealized(a: Holding, b: Holding)
    requires a.volume == b.volume && CashFlow(a) == CashFlow(b)
    ensures a.realizedPnl == b.realizedPnl <==> a.volume == 0 || a.avgCost == b.avgCost
  {
    SameProduct(a.volume as real, a.avgCost, b.avgCost);
  }

  lemma SameProduct(n: real, x: real, y: real)
    ensures n * x == n * y <==> n == 0.0 || x == y
  {
    if n != 0.0 {
      assert n * x / n == x && n * y / n == y;
    }
  }

  // ----- all users -----

  type Inventory = map<Ticker, Holding>

  function HoldingOf(inventory: Inventory, ticker: Ticker): Holding {
    if ticker in inventory then inventory[ticker] else FLAT
  }

  type Accounts = seq<Inventory>

  predicate Settles(t: Trade, users: nat) {
    0 <= t.makerId < users && 0 <= t.takerId < users
  }

  function FillUser(accounts: Accounts, user: UserId, ticker: Ticker, side: Side, price: Price, volume: int): Accounts
    requires 0 <= user < |accounts|
  {
    accounts[user := accounts[user][ticker :=
      Fill(HoldingOf(accounts[user], ticker), Signed(side, volume), ToUsd(price))]]
  }

  /** Both sides of a trade, maker first; maker and taker may be the same user. */
  function FillBoth(accounts: Accounts, t: Trade): Accounts
    requires Settles(t, |accounts|)
  {
    var a := FillUser(accounts, t.makerId, t.ticker, Opposite(t.takerSide), t.executionPrice, t.volume);
    FillUser(a, t.takerId, t.ticker, t.takerSide, t.executionPrice, t.volume)
  }

  function Revalued(h: Holding, mid: Price): Holding {
    h.(unrealizedPnl := h.volume as real * (ToUsd(mid) - h.avgCost))
  }

  function Revalue(inventory: Inventory, ticker: Ticker, mid: Price): Inventory {
    if ticker in inventory then inventory[ticker := Revalued(inventory[ticker], mid)] else inventory
  }

  function RevalueUser(accounts: Accounts, user: UserId, ticker: Ticker, mid: Price): Accounts
    requires 0 <= user < |accounts|
  {
    accounts[user := Revalue(accounts[user], ticker, mid)]
  }

  /** One turn of the inventory loop, given the mid price it happened to read. */
  function Settle(accounts: Accounts, t: Trade, mid: Option<Price>): Accounts
    requires Settles(t, |accounts|)
  {
    var filled := FillBoth(accounts, t);
    match mid
    case None => filled
    case Some(m) => RevalueUser(RevalueUser(filled, t.makerId, t.ticker, m), t.takerId, t.ticker, m)
  }

  predicate AllSettle(ts: seq<Trade>, users: nat) {
    forall i :: 0 <= i < |ts| ==> Settles(ts[i], users)
  }

  function Opened(users: nat): Accounts {
    seq(users, _ => map[])
  }

  /** Accounts after settling `ts` in order, `mids[i]` being the mid read for the i-th. */
  function SettleAll(users: nat, ts: seq<Trade>, mids: seq<Option<Price>>): (accounts: Accounts)
    requires AllSettle(ts, users) && |mids| == |ts|
    ensures |accounts| == users
  {
    if ts == [] then Opened(users)
    else
      var n := |ts| - 1;
      Settle(SettleAll(users, ts[..n], mids[..n]), ts[n], mids[n])
  }

  function TotalPosition(accounts: Accounts, ticker: Ticker): int {
    if accounts == [] then 0
    else HoldingOf(accounts[0], ticker).volume + TotalPosition(accounts[1..], ticker)
  }

  function TotalNet(accounts: Accounts, ticker: Ticker, mark: real): real {
    if accounts == [] then 0.0
    else Net(HoldingOf(accounts[0], ticker), mark) + TotalNet(accounts[1..], ticker, mark)
  }

  function TotalCash(accounts: Accounts, ticker: Ticker): real {
    if accounts == [] then 0.0
    else CashFlow(HoldingOf(accounts[0], ticker)) + TotalCash(accounts[1..], ticker)
  }

  lemma {:induction false} TotalNetIsCashPlusMark(accounts: Accounts, ticker: Ticker, mark: real)
    ensures TotalNet(accounts, ticker, mark)
         == TotalCash(accounts, ticker) + TotalPosition(accounts, ticker) as real * mark
  {
    if accounts == [] {
    } else {
      TotalNetIsCashPlusMark(accounts[1..], ticker, mark);
      NetIsCashPlusMark(HoldingOf(accounts[0], ticker), mark);
      SumTimes(HoldingOf(accounts[0], ticker).volume as real, TotalPosition(accounts[1..], ticker) as real, mark);
    }
  }

  lemma {:induction false} TotalsAfterUpdate(accounts: Accounts, user: nat, x: Inventory, ticker: Ticker)
    requires user < |accounts|
    ensures var h, h' := HoldingOf(accounts[user], ticker), HoldingOf(x, ticker);
            && TotalPosition(accounts[user := x], ticker) == TotalPosition(accounts, ticker) + h'.volume - h.volume
            && TotalCash(accounts[user := x], ticker) == TotalCash(accounts, ticker) + CashFlow(h') - CashFlow(h)
  {
    if user == 0 {
      assert accounts[user := x][1..] == accounts[1..];
    } else {
      TotalsAfterUpdate(accounts[1..], user - 1, x, ticker);
      assert accounts[user := x][1..] == accounts[1..][user - 1 := x];
    }
  }

  /** What a fill of `t` on `side` adds to the totals of `ticker`. */
  function Moved(t: Trade, side: Side, ticker: Ticker): (int, real) {
    if t.ticker != ticker then (0, 0.0)
    else (Signed(side, t.volume), -Cost(Signed(side, t.volume), ToUsd(t.executionPrice)))
  }

  lemma FillUserTotals(accounts: Accounts, t: Trade, user: UserId, side: Side, ticker: Ticker)
    requires 0 <= user < |accounts|
    ensures var after := FillUser(accounts, user, t.ticker, side, t.executionPrice, t.volume);
            && TotalPosition(after, ticker) == TotalPosition(accounts, ticker) + Moved(t, side, ticker).0
            && TotalCash(after, ticker) == TotalCash(accounts, ticker) + Moved(t, side, ticker).1
  {
    var h := HoldingOf(accounts[user], t.ticker);
    var d, usd := Signed(side, t.volume), ToUsd(t.executionPrice);
    var x := accounts[user][t.ticker := Fill(h, d, usd)];
    TotalsAfterUpdate(accounts, user, x, ticker);
    FillMovesCash(h, d, usd);
    if t.ticker != ticker {
      assert HoldingOf(x, ticker) == HoldingOf(accounts[user], ticker);
    }
  }

  lemma OppositeMoves(t: Trade, ticker: Ticker)
    ensures Moved(t, t.takerSide, ticker).0 + Moved(t, Opposite(t.takerSide), ticker).0 == 0
    ensures Moved(t, t.takerSide, ticker).1 + Moved(t, Opposite(t.takerSide), ticker).1 == 0.0
  {
    SumTimes(t.volume as real, -(t.volume as real), ToUsd(t.executionPrice));
  }

  lemma RevalueTotals(accounts: Accounts, user: UserId, t: Ticker, mid: Price, ticker: Ticker)
    requires 0 <= user < |accounts|
    ensures TotalPosition(RevalueUser(accounts, user, t, mid), ticker) == TotalPosition(accounts, ticker)
    ensures TotalCash(RevalueUser(accounts, user, t, mid), ticker) == TotalCash(accounts, ticker)
  {
    TotalsAfterUpdate(accounts, user, Revalue(accounts[user], t, mid), ticker);
  }

  lemma FillBothKeepsTotals(accounts: Accounts, t: Trade, ticker: Ticker)
    requires Settles(t, |accounts|)
    ensures TotalPosition(FillBoth(accounts, t), ticker) == TotalPosition(accounts, ticker)
    ensures TotalCash(FillBoth(accounts, t), ticker) == TotalCash(accounts, ticker)
  {
    var side := Opposite(t.takerSide);
    FillUserTotals(accounts, t, t.makerId, side, ticker);
    var a := FillUser(accounts, t.makerId, t.ticker, side, t.executionPrice, t.volume);
    FillUserTotals(a, t, t.takerId, t.takerSide, ticker);
    OppositeMoves(t, ticker);
  }

  lemma SettleKeepsTotals(accounts: Accounts, t: Trade, mid: Option<Price>, ticker: Ticker)
    requires Settles(t, |accounts|)
    ensures TotalPosition(Settle(accounts, t, mid), ticker) == TotalPosition(accounts, ticker)
    ensures TotalCash(Settle(accounts, t, mid), ticker) == TotalCash(accounts, ticker)
  {
    FillBothKeepsTotals(accounts, t, ticker);
    var filled := FillBoth(accounts, t);
    if mid.Some? {
      RevalueTotals(filled, t.makerId, t.ticker, mid.value, ticker);
      RevalueTotals(RevalueUser(filled, t.makerId, t.ticker, mid.value), t.takerId, t.ticker, mid.value, ticker);
    }
  }

  lemma {:induction false} OpenedTotals(users: nat, ticker: Ticker)
    ensures TotalPosition(Opened(users), ticker) == 0 && TotalCash(Opened(users), ticker) == 0.0
  {
    if users == 0 {
    } else {
      OpenedTotals(users - 1, ticker);
      assert Opened(users)[1..] == Opened(users - 1);
    }
  }

  lemma {:induction false} TotalsStayZero(users: nat, ts: seq<Trade>, mids: seq<Option<Price>>, ticker: Ticker)
    requires AllSettle(ts, users) && |mids| == |ts|
    ensures var accounts := SettleAll(users, ts, mids);
            TotalPosition(accounts, ticker) == 0 && TotalCash(accounts, ticker) == 0.0
  {
    if ts == [] {
      OpenedTotals(users, ticker);
    } else {
      var n := |ts| - 1;
      TotalsStayZero(users, ts[..n], mids[..n], ticker);
      SettleKeepsTotals(SettleAll(users, ts[..n], mids[..n]), ts[n], mids[n], ticker);
    }
  }

  /** Nobody gains but at another's expense: after any trades, self-trades included, positions in
      a ticker sum to zero over the users, and so does total P&L at any common mark. */
  lemma ZeroSum(users: nat, ts: seq<Trade>, mids: seq<Option<Price>>, ticker: Ticker, mark: real)
    requires AllSettle(ts, users) && |mids| == |ts|
    ensures TotalPosition(SettleAll(users, ts, mids), ticker) == 0
    ensures TotalNet(SettleAll(users, ts, mids), ticker, mark) == 0.0
  {
    TotalsStayZero(users, ts, mids, ticker);
    TotalNetIsCashPlusMark(SettleAll(users, ts, mids), ticker, mark);
  }

  /** A trade's fills of one user in one ticker; a self-trade has both. */
  function ExecutionsIn(t: Trade, user: UserId, ticker: Ticker): seq<Execution> {
    if t.ticker != ticker then []
    else
      var taken := if t.takerSide.Buy? then t.volume else -t.volume;
      var usd := t.executionPrice as real / 1000000.0;
      (if t.makerId == user then [Execution(-taken, usd)] else [])
      + (if t.takerId == user then [Execution(taken, usd)] else [])
  }

  /** What one user did in one ticker, in order. */
  function ExecutionsOf(ts: seq<Trade>, user: UserId, ticker: Ticker): seq<Execution> {
    if ts == [] then []
    else ExecutionsOf(ts[..|ts| - 1], user, ticker) + ExecutionsIn(ts[|ts| - 1], user, ticker)
  }

  /** Equal except for the stored mark-to-market figure. */
  predicate SameBook(a: Holding, b: Holding) {
    a.volume == b.volume && a.avgCost == b.avgCost && a.realizedPnl == b.realizedPnl
  }

  lemma {:induction false} FillAllAppend(h: Holding, fills: seq<Execution>, x: Execution)
    ensures FillAll(h, fills + [x]) == Fill(FillAll(h, fills), x.delta, x.usd)
    decreases |fills|
  {
    if fills == [] {
      assert [x][1..] == [];
    } else {
      FillAllAppend(Fill(h, fills[0].delta, fills[0].usd), fills[1..], x);
      assert (fills + [x])[1..] == fills[1..] + [x];
    }
  }

  lemma FillSameBook(a: Holding, b: Holding, delta: int, usd: real)
    requires SameBook(a, b)
    ensures SameBook(Fill(a, delta, usd), Fill(b, delta, usd))
  {
  }

  /** One fill of one user, seen from any user's holding in any ticker. */
  lemma FillUserSeen(accounts: Accounts, t: Trade, who: UserId, side: Side,
                     user: UserId, ticker: Ticker, fills: seq<Execution>)
    requires 0 <= who < |accounts| && 0 <= user < |accounts|
    requires SameBook(HoldingOf(accounts[user], ticker), FillAll(FLAT, fills))
    ensures var after := FillUser(accounts, who, t.ticker, side, t.executionPrice, t.volume);
            var more := if who == user && t.ticker == ticker
                        then fills + [Execution(Signed(side, t.volume), ToUsd(t.executionPrice))] else fills;
            SameBook(HoldingOf(after[user], ticker), FillAll(FLAT, more))
  {
    var x := Execution(Signed(side, t.volume), ToUsd(t.executionPrice));
    FillAllAppend(FLAT, fills, x);
    FillSameBook(HoldingOf(accounts[user], ticker), FillAll(FLAT, fills), x.delta, x.usd);
  }

  /** One trade, seen from any user's holding in any ticker. */
  lemma FillBothSeen(accounts: Accounts, t: Trade, user: UserId, ticker: Ticker, before: seq<Execution>)
    requires Settles(t, |accounts|) && 0 <= user < |accounts|
    requires SameBook(HoldingOf(accounts[user], ticker), FillAll(FLAT, before))
    ensures var after := before + ExecutionsIn(t, user, ticker);
            SameBook(HoldingOf(FillBoth(accounts, t)[user], ticker), FillAll(FLAT, after))
  {
    var side := Opposite(t.takerSide);
    FillUserSeen(accounts, t, t.makerId, side, user, ticker, before);
    var a := FillUser(accounts, t.makerId, t.ticker, side, t.executionPrice, t.volume);
    var more := if t.makerId == user && t.ticker == ticker
                then before + [Execution(Signed(side, t.volume), ToUsd(t.executionPrice))] else before;
    FillUserSeen(a, t, t.takerId, t.takerSide, user, ticker, more);
    var after := if t.takerId == user && t.ticker == ticker
                 then more + [Execution(Signed(t.takerSide, t.volume), ToUsd(t.executionPrice))] else more;
    assert after == before + ExecutionsIn(t, user, ticker);
  }

  lemma SettleSameBook(accounts: Accounts, t: Trade, mid: Option<Price>, user: UserId, ticker: Ticker)
    requires Settles(t, |accounts|) && 0 <= user < |accounts|
    ensures SameBook(HoldingOf(Settle(accounts, t, mid)[user], ticker), HoldingOf(FillBoth(accounts, t)[user], ticker))
  {
  }

  /** Each user's holding is that user's own fills folded in order; nothing else leaks in. */
  lemma {:induction false} HoldingIsOwnFills(users: nat, ts: seq<Trade>, mids: seq<Option<Price>>,
                                             user: UserId, ticker: Ticker)
    requires AllSettle(ts, users) && |mids| == |ts| && 0 <= user < users
    ensures SameBook(HoldingOf(SettleAll(users, ts, mids)[user], ticker), FillAll(FLAT, ExecutionsOf(ts, user, ticker)))
  {
    if ts == [] {
    } else {
      var n := |ts| - 1;
      var accounts := SettleAll(users, ts[..n], mids[..n]);
      HoldingIsOwnFills(users, ts[..n], mids[..n], user, ticker);
      FillBothSeen(accounts, ts[n], user, ticker, ExecutionsOf(ts[..n], user, ticker));
      SettleSameBook(accounts, ts[n], mids[n], user, ticker);
    }
  }
}
