/** One instrument's engine as a value: the two flat books, the order index and the published
    mid price; what a command does to it; and what every run of commands keeps true. */
module EngineModel {
  import opened Types
  import opened Quotes

  /** Where the index believes an order rests, and who owns it. */
  datatype Location = Location(side: Side, price: Price, userId: UserId)

  datatype Engine = Engine(bids: seq<Quote>, asks: seq<Quote>,
                           index: map<OrderId, Location>, mid: Option<Price>)

  datatype Outcome = Outcome(engine: Engine, trades: seq<Trade>)

  const EMPTY := Engine([], [], map[], None)

  function QuotesOf(e: Engine, side: Side): seq<Quote> {
    if side.Buy? then e.bids else e.asks
  }

  function WithQuotes(e: Engine, side: Side, q: seq<Quote>): Engine {
    if side.Buy? then e.(bids := q) else e.(asks := q)
  }

  /** Division by two, truncating toward zero. */
  function Half(n: int): int {
    if n >= 0 then n / 2 else -((-n) / 2)
  }

  /** Mid price of two best prices, where a side may be empty. */
  function Mid(bid: Option<Price>, ask: Option<Price>): Option<Price> {
    match (bid, ask)
    case (Some(b), Some(a)) => Some(Half(b + a))
    case (Some(b), None) => bid
    case (None, _) => ask
  }

  function Best(q: seq<Quote>): Option<Price> {
    if q == [] then None else Some(q[0].price)
  }

  predicate Quoted(e: Engine) {
    e.bids != [] || e.asks != []
  }

  /** Recomputes the mid; an empty book leaves the last published one in place. */
  function Publish(e: Engine): Engine {
    if Quoted(e) then e.(mid := Mid(Best(e.bids), Best(e.asks))) else e
  }

  function AsQuote(o: OrderAdd, volume: int): Quote {
    Quote(o.price, o.orderId, o.userId, volume)
  }

  function Rest(e: Engine, o: OrderAdd, remaining: int): Engine {
    WithQuotes(e, o.side, Insert(QuotesOf(e, o.side), o.side, AsQuote(o, remaining)))
      .(index := e.index[o.orderId := Location(o.side, o.price, o.userId)])
  }

  function Ids(s: seq<OrderId>): set<OrderId> {
    set id | id in s
  }

  /** The swept side and the index after matching `o`. */
  function AfterMatch(e: Engine, o: OrderAdd): Engine {
    var r := Sweep(QuotesOf(e, Opposite(o.side)), o, o.volume);
    WithQuotes(e, Opposite(o.side), r.left).(index := e.index - Ids(r.filled))
  }

  function AddOrder(e: Engine, o: OrderAdd): Outcome {
    var r := Sweep(QuotesOf(e, Opposite(o.side)), o, o.volume);
    var matched := AfterMatch(e, o);
    var rested := if r.remaining > 0 then Rest(matched, o, r.remaining) else matched;
    Outcome(Publish(rested), r.trades)
  }

  predicate Accepts(e: Engine, c: OrderCancel) {
    c.orderId in e.index && e.index[c.orderId].userId == c.userId
  }

  function CancelOrder(e: Engine, c: OrderCancel): Engine {
    if !Accepts(e, c) then e
    else
      var loc := e.index[c.orderId];
      Publish(WithQuotes(e, loc.side, Without(QuotesOf(e, loc.side), loc.price, c.orderId))
                .(index := e.index - {c.orderId}))
  }

  function Apply(e: Engine, cmd: Command): Outcome {
    match cmd
    case Add(o) => AddOrder(e, o)
    case Cancel(c) => Outcome(CancelOrder(e, c), [])
  }

  /** State and all trades, in order, after running `cmds` from an empty engine. */
  function Run(cmds: seq<Command>): Outcome {
    if cmds == [] then Outcome(EMPTY, [])
    else
      var before := Run(cmds[..|cmds| - 1]);
      var step := Apply(before.engine, cmds[|cmds| - 1]);
      Outcome(step.engine, before.trades + step.trades)
  }

  // ----- what holds with no assumption on order ids -----

  predicate Uncrossed(bids: seq<Quote>, asks: seq<Quote>) {
    forall i, j :: 0 <= i < |bids| && 0 <= j < |asks| ==> bids[i].price < asks[j].price
  }

  /** Both books sorted, volumes positive, no bid at or above an ask. */
  predicate Orderly(e: Engine) {
    && Sorted(e.bids, Buy) && Positive(e.bids)
    && Sorted(e.asks, Sell) && Positive(e.asks)
    && Uncrossed(e.bids, e.asks)
  }

  /** Some quote of `q` is the order the location describes. */
  predicate Names(q: seq<Quote>, id: OrderId, loc: Location) {
    exists k :: 0 <= k < |q| && q[k].orderId == id && q[k].price == loc.price && q[k].userId == loc.userId
  }

  predicate IndexSound(e: Engine) {
    forall id :: id in e.index ==> Names(QuotesOf(e, e.index[id].side), id, e.index[id])
  }

  /** `p` is the highest price in `q`. */
  predicate Highest(q: seq<Quote>, p: Price) {
    HasPrice(q, p) && forall i :: 0 <= i < |q| ==> q[i].price <= p
  }

  predicate Lowest(q: seq<Quote>, p: Price) {
    HasPrice(q, p) && forall i :: 0 <= i < |q| ==> p <= q[i].price
  }

  /** `m` is half of `n`, or as close to it as an integer on the side of zero can be. */
  predicate CutHalf(m: int, n: int) {
    -1 <= 2 * m - n <= 1 && (0 <= 2 * m <= n || n <= 2 * m <= 0)
  }

  /** With both sides quoted `m` is half the sum of the highest bid and the lowest ask, cut toward
      zero; with one side quoted it is the highest bid, or the lowest ask. */
  ghost predicate IsMid(e: Engine, m: Price) {
    if e.asks == [] then Highest(e.bids, m)
    else if e.bids == [] then Lowest(e.asks, m)
    else exists bid, ask :: Highest(e.bids, bid) && Lowest(e.asks, ask) && CutHalf(m, bid + ask)
  }

  lemma FirstIsBest(q: seq<Quote>, side: Side)
    requires Sorted(q, side) && q != []
    ensures if side.Buy? then Highest(q, q[0].price) else Lowest(q, q[0].price)
  {
  }

  lemma MidIsPlain(e: Engine)
    requires Sorted(e.bids, Buy) && Sorted(e.asks, Sell) && Quoted(e)
    ensures Publish(e).mid.Some? && IsMid(Publish(e), Publish(e).mid.value)
  {
    if e.bids != [] { FirstIsBest(e.bids, Buy); }
    if e.asks != [] { FirstIsBest(e.asks, Sell); }
    if e.bids != [] && e.asks != [] {
      assert CutHalf(Half(e.bids[0].price + e.asks[0].price), e.bids[0].price + e.asks[0].price);
    }
  }

  /** There is only one such price. */
  lemma MidUnique(e: Engine, m: Price, m': Price)
    requires IsMid(e, m) && IsMid(e, m')
    ensures m == m'
  {
    if e.asks != [] && e.bids != [] {
      var bid, ask :| Highest(e.bids, bid) && Lowest(e.asks, ask) && CutHalf(m, bid + ask);
      var bid', ask' :| Highest(e.bids, bid') && Lowest(e.asks, ask') && CutHalf(m', bid' + ask');
      assert bid == bid' && ask == ask';
    }
  }

  predicate MidCurrent(e: Engine) {
    Quoted(e) ==> e.mid == Mid(Best(e.bids), Best(e.asks))
  }

  predicate WellFormed(e: Engine) {
    Orderly(e) && IndexSound(e) && MidCurrent(e)
  }

  lemma NamesAfterSweep(q: seq<Quote>, o: OrderAdd, remaining: int, id: OrderId, loc: Location)
    requires Positive(q) && Names(q, id, loc) && id !in Sweep(q, o, remaining).filled
    ensures Names(Sweep(q, o, remaining).left, id, loc)
  {
    var r := Sweep(q, o, remaining);
    SweepTakesPrefix(q, o, remaining);
    var n := |r.filled|;
    var k :| 0 <= k < |q| && q[k].orderId == id && q[k].price == loc.price && q[k].userId == loc.userId;
    assert forall i :: 0 <= i < n ==> r.filled[i] in r.filled;
    if k > n {
      assert r.left[k - n] == r.left[1..][k - n - 1] == q[n + 1..][k - n - 1] == q[k];
    }
    assert r.left[k - n].orderId == id;
  }

  lemma NamesAfterInsert(q: seq<Quote>, side: Side, x: Quote, id: OrderId, loc: Location)
    ensures Names(q, id, loc) ==> Names(Insert(q, side, x), id, loc)
    ensures Names(Insert(q, side, x), x.orderId, Location(side, x.price, x.userId))
  {
    var p := InsertPlace(q, side, x);
    var q' := Insert(q, side, x);
    assert q'[p] == x;
    if Names(q, id, loc) {
      var k :| 0 <= k < |q| && q[k].orderId == id && q[k].price == loc.price && q[k].userId == loc.userId;
      assert q'[if k < p then k else k + 1] == q[k];
    }
  }

  lemma NamesAfterWithout(q: seq<Quote>, price: Price, gone: OrderId, id: OrderId, loc: Location)
    requires Names(q, id, loc) && id != gone
    ensures Names(Without(q, price, gone), id, loc)
  {
    SelectMembers(q, price, gone, false);
    var k :| 0 <= k < |q| && q[k].orderId == id && q[k].price == loc.price && q[k].userId == loc.userId;
    assert q[k] in q && q[k] in Without(q, price, gone);
  }

  predicate HasPrice(q: seq<Quote>, p: Price) {
    exists k :: 0 <= k < |q| && q[k].price == p
  }

  predicate PricesWithin(q': seq<Quote>, q: seq<Quote>) {
    forall i :: 0 <= i < |q'| ==> HasPrice(q, q'[i].price)
  }

  /** Taking quotes away never makes a book cross. */
  lemma UncrossedFewer(bids: seq<Quote>, asks: seq<Quote>, bids': seq<Quote>, asks': seq<Quote>)
    requires Uncrossed(bids, asks)
    requires bids' == bids || PricesWithin(bids', bids)
    requires asks' == asks || PricesWithin(asks', asks)
    ensures Uncrossed(bids', asks')
  {
    assert PricesWithin(bids, bids) && PricesWithin(asks, asks);
    forall i, j | 0 <= i < |bids'| && 0 <= j < |asks'| ensures bids'[i].price < asks'[j].price {
      assert HasPrice(bids, bids'[i].price) && HasPrice(asks, asks'[j].price);
    }
  }

  lemma SweepPricesKept(q: seq<Quote>, o: OrderAdd, remaining: int)
    requires Positive(q)
    ensures PricesWithin(Sweep(q, o, remaining).left, q)
  {
    var r := Sweep(q, o, remaining);
    SweepTakesPrefix(q, o, remaining);
    forall i | 0 <= i < |r.left| ensures HasPrice(q, r.left[i].price) {
      if i > 0 { assert r.left[i] == r.left[1..][i - 1]; }
      assert q[|r.filled| + i].price == r.left[i].price;
    }
  }

  /** Matching keeps both books in order and the index sound. */
  lemma MatchKeeps(e: Engine, o: OrderAdd)
    requires Orderly(e) && IndexSound(e)
    ensures Orderly(AfterMatch(e, o)) && IndexSound(AfterMatch(e, o))
  {
    var opp := Opposite(o.side);
    var q := QuotesOf(e, opp);
    var m := AfterMatch(e, o);
    SweepKeepsOrder(q, opp, o, o.volume);
    SweepPricesKept(q, o, o.volume);
    UncrossedFewer(e.bids, e.asks, m.bids, m.asks);
    forall id | id in m.index ensures Names(QuotesOf(m, m.index[id].side), id, m.index[id]) {
      if m.index[id].side == opp { NamesAfterSweep(q, o, o.volume, id, m.index[id]); }
    }
  }

  lemma InsertPrices(q: seq<Quote>, side: Side, x: Quote)
    ensures forall i {:trigger Insert(q, side, x)[i]} :: 0 <= i < |Insert(q, side, x)| ==>
              Insert(q, side, x)[i].price == x.price || HasPrice(q, Insert(q, side, x)[i].price)
  {
    var p := InsertPlace(q, side, x);
    var q' := Insert(q, side, x);
    forall i | 0 <= i < |q'| ensures q'[i].price == x.price || HasPrice(q, q'[i].price) {
      if i < p {
        assert q[i].price == q'[i].price;
      } else if i > p {
        assert q[i - 1].price == q'[i].price;
      }
    }
  }

  lemma UncrossedAfterInsert(e: Engine, o: OrderAdd, remaining: int)
    requires Uncrossed(e.bids, e.asks)
    requires var q := QuotesOf(e, Opposite(o.side)); forall i :: 0 <= i < |q| ==> !Crosses(o, q[i].price)
    ensures var e' := Rest(e, o, remaining); Uncrossed(e'.bids, e'.asks)
  {
    var e' := Rest(e, o, remaining);
    InsertPrices(QuotesOf(e, o.side), o.side, AsQuote(o, remaining));
    forall i, j | 0 <= i < |e'.bids| && 0 <= j < |e'.asks| ensures e'.bids[i].price < e'.asks[j].price {
      if o.side.Buy? {
        assert !Crosses(o, QuotesOf(e, Sell)[j].price);
        assert e'.bids[i].price == o.price || HasPrice(e.bids, e'.bids[i].price);
      } else {
        assert !Crosses(o, QuotesOf(e, Buy)[i].price);
        assert e'.asks[j].price == o.price || HasPrice(e.asks, e'.asks[j].price);
      }
    }
  }

  lemma RestKeeps(e: Engine, o: OrderAdd, remaining: int)
    requires Orderly(e) && IndexSound(e) && remaining > 0
    requires var q := QuotesOf(e, Opposite(o.side)); forall i :: 0 <= i < |q| ==> !Crosses(o, q[i].price)
    ensures Orderly(Rest(e, o, remaining)) && IndexSound(Rest(e, o, remaining))
  {
    var q, x := QuotesOf(e, o.side), AsQuote(o, remaining);
    var e' := Rest(e, o, remaining);
    InsertKeepsOrder(q, o.side, x);
    UncrossedAfterInsert(e, o, remaining);
    forall id | id in e'.index ensures Names(QuotesOf(e', e'.index[id].side), id, e'.index[id]) {
      NamesAfterInsert(q, o.side, x, id, e'.index[id]);
      if id != o.orderId {
        assert Names(QuotesOf(e, e.index[id].side), id, e.index[id]);
      }
    }
  }

  lemma PublishKeeps(e: Engine)
    requires Orderly(e) && IndexSound(e)
    ensures WellFormed(Publish(e))
  {
    var p := Publish(e);
    forall id | id in p.index ensures Names(QuotesOf(p, p.index[id].side), id, p.index[id]) {
      assert Names(QuotesOf(e, e.index[id].side), id, e.index[id]);
    }
  }

  /** An add keeps the engine well formed, whatever its id, volume or price. */
  lemma AddKeepsWellFormed(e: Engine, o: OrderAdd)
    requires WellFormed(e)
    ensures WellFormed(AddOrder(e, o).engine)
  {
    var r := Sweep(QuotesOf(e, Opposite(o.side)), o, o.volume);
    MatchKeeps(e, o);
    if r.remaining > 0 {
      SweepFillsExactly(QuotesOf(e, Opposite(o.side)), o, o.volume);
      RestKeeps(AfterMatch(e, o), o, r.remaining);
      PublishKeeps(Rest(AfterMatch(e, o), o, r.remaining));
    } else {
      PublishKeeps(AfterMatch(e, o));
    }
  }

  /** What an add does to the index, ids reused or not: the makers it uses up leave it, and if
      anything of the add rests, the entry under its own id becomes its own. */
  lemma IndexAfterAdd(e: Engine, o: OrderAdd, id: OrderId)
    requires Orderly(e)
    ensures var q, after := QuotesOf(e, Opposite(o.side)), AddOrder(e, o).engine;
            var gone := |q| - |QuotesOf(after, Opposite(o.side))|;
            && 0 <= gone <= |q|
            && if id == o.orderId && o.volume > 0 && o.volume > CrossingVolume(q, o) then
                 id in after.index && after.index[id] == Location(o.side, o.price, o.userId)
               else
                 && (id in after.index <==> id in e.index && forall k :: 0 <= k < gone ==> q[k].orderId != id)
                 && (id in after.index ==> after.index[id] == e.index[id])
  {
    var q := QuotesOf(e, Opposite(o.side));
    var r := Sweep(q, o, o.volume);
    SweepTakesPrefix(q, o, o.volume);
    SweepFillsExactly(q, o, o.volume);
    assert id in r.filled <==> exists k :: 0 <= k < |r.filled| && q[k].orderId == id;
  }

  lemma WithoutPricesKept(q: seq<Quote>, price: Price, id: OrderId)
    ensures PricesWithin(Without(q, price, id), q)
    ensures Positive(q) ==> Positive(Without(q, price, id))
  {
    var left := Without(q, price, id);
    SelectMembers(q, price, id, false);
    forall i | 0 <= i < |left|
      ensures HasPrice(q, left[i].price)
      ensures Positive(q) ==> left[i].volume > 0
    {
      assert left[i] in q;
    }
  }

  lemma CancelKeepsWellFormed(e: Engine, c: OrderCancel)
    requires WellFormed(e)
    ensures WellFormed(CancelOrder(e, c))
  {
    if Accepts(e, c) {
      var loc := e.index[c.orderId];
      var q := QuotesOf(e, loc.side);
      var e' := WithQuotes(e, loc.side, Without(q, loc.price, c.orderId)).(index := e.index - {c.orderId});
      SelectKeepsOrder(q, loc.side, loc.price, c.orderId, false);
      WithoutPricesKept(q, loc.price, c.orderId);
      UncrossedFewer(e.bids, e.asks, e'.bids, e'.asks);
      forall id | id in e'.index ensures Names(QuotesOf(e', e'.index[id].side), id, e'.index[id]) {
        if e'.index[id].side == loc.side {
          NamesAfterWithout(q, loc.price, c.orderId, id, e'.index[id]);
        }
      }
      PublishKeeps(e');
    }
  }

  lemma ApplyKeepsWellFormed(e: Engine, cmd: Command)
    requires WellFormed(e)
    ensures WellFormed(Apply(e, cmd).engine)
  {
    match cmd
    case Add(o) => AddKeepsWellFormed(e, o);
    case Cancel(c) => CancelKeepsWellFormed(e, c);
  }

  /** Every run from an empty book, ids repeating or not, ends uncrossed, sorted, with positive
      volumes, an index that only names resting orders, and a mid that matches the book. */
  lemma {:induction false} RunWellFormed(cmds: seq<Command>)
    ensures WellFormed(Run(cmds).engine)
  {
    if cmds == [] {
    } else {
      RunWellFormed(cmds[..|cmds| - 1]);
      ApplyKeepsWellFormed(Run(cmds[..|cmds| - 1]).engine, cmds[|cmds| - 1]);
    }
  }

  // ----- what holds when ids in use are not reused -----

  predicate HasId(q: seq<Quote>, id: OrderId) {
    exists i :: 0 <= i < |q| && q[i].orderId == id
  }

  predicate DistinctIds(q: seq<Quote>) {
    forall i, j :: 0 <= i < j < |q| ==> q[i].orderId != q[j].orderId
  }

  /** Every quote of `q` rests once and is in the index at its own place. */
  predicate Covered(q: seq<Quote>, side: Side, index: map<OrderId, Location>) {
    && DistinctIds(q)
    && (forall i :: 0 <= i < |q| ==>
          q[i].orderId in index && index[q[i].orderId] == Location(side, q[i].price, q[i].userId))
  }

  predicate IndexComplete(e: Engine) {
    Covered(e.bids, Buy, e.index) && Covered(e.asks, Sell, e.index)
  }

  predicate IdRests(e: Engine, id: OrderId) {
    HasId(e.bids, id) || HasId(e.asks, id)
  }

  /** A positive-volume add must not reuse an id that is resting. */
  predicate FreshFor(e: Engine, cmd: Command) {
    cmd.Add? && cmd.order.volume > 0 ==> !IdRests(e, cmd.order.orderId)
  }

  predicate FreshIds(cmds: seq<Command>) {
    forall k :: 0 <= k < |cmds| ==> FreshFor(Run(cmds[..k]).engine, cmds[k])
  }

  lemma FreshPrefix(cmds: seq<Command>)
    requires cmds != [] && FreshIds(cmds)
    ensures FreshIds(cmds[..|cmds| - 1])
    ensures FreshFor(Run(cmds[..|cmds| - 1]).engine, cmds[|cmds| - 1])
  {
    var init := cmds[..|cmds| - 1];
    forall k | 0 <= k < |init| ensures FreshFor(Run(init[..k]).engine, init[k]) {
      assert init[..k] == cmds[..k];
    }
  }

  /** The ids of swept makers leave the index; the quotes that remain stay covered. */
  lemma SweepKeepsCover(q: seq<Quote>, side: Side, index: map<OrderId, Location>, o: OrderAdd, remaining: int)
    requires Positive(q) && Covered(q, side, index)
    ensures var r := Sweep(q, o, remaining);
            && Covered(r.left, side, index - Ids(r.filled))
            && (forall id :: HasId(r.left, id) ==> HasId(q, id))
  {
    var r := Sweep(q, o, remaining);
    var n := |r.filled|;
    SweepTakesPrefix(q, o, remaining);
    forall i | 0 <= i < |r.left| ensures r.left[i] == q[n + i].(volume := r.left[i].volume) {
      if i > 0 { assert r.left[i] == r.left[1..][i - 1]; }
    }
  }

  /** Sweeping one side drops no id of the other from the index. */
  lemma SweepSparesOther(q: seq<Quote>, side: Side, other: seq<Quote>, index: map<OrderId, Location>,
                         o: OrderAdd, remaining: int)
    requires Positive(q) && Covered(q, side, index) && Covered(other, Opposite(side), index)
    ensures Covered(other, Opposite(side), index - Ids(Sweep(q, o, remaining).filled))
  {
    SweepTakesPrefix(q, o, remaining);
  }

  lemma InsertAt(q: seq<Quote>, side: Side, x: Quote) returns (p: nat)
    ensures var q' := Insert(q, side, x);
            && p <= |q| && |q'| == |q| + 1 && q'[p] == x
            && (forall i :: 0 <= i < p ==> q'[i] == q[i])
            && (forall i :: p < i < |q'| ==> q'[i] == q[i - 1])
  {
    p := InsertPlace(q, side, x);
  }

  lemma InsertKeepsDistinct(q: seq<Quote>, side: Side, x: Quote)
    requires DistinctIds(q) && !HasId(q, x.orderId)
    ensures DistinctIds(Insert(q, side, x))
  {
    var p := InsertAt(q, side, x);
  }

  lemma InsertKeepsCover(q: seq<Quote>, side: Side, index: map<OrderId, Location>, x: Quote)
    requires Covered(q, side, index) && !HasId(q, x.orderId)
    ensures Covered(Insert(q, side, x), side, index[x.orderId := Location(side, x.price, x.userId)])
  {
    var p := InsertAt(q, side, x);
    InsertKeepsDistinct(q, side, x);
  }

  lemma MatchKeepsComplete(e: Engine, o: OrderAdd)
    requires Orderly(e) && IndexComplete(e)
    ensures IndexComplete(AfterMatch(e, o))
    ensures forall id :: IdRests(AfterMatch(e, o), id) ==> IdRests(e, id)
  {
    var opp := Opposite(o.side);
    SweepKeepsCover(QuotesOf(e, opp), opp, e.index, o, o.volume);
    SweepSparesOther(QuotesOf(e, opp), opp, QuotesOf(e, o.side), e.index, o, o.volume);
  }

  lemma RestKeepsComplete(m: Engine, o: OrderAdd, remaining: int)
    requires IndexComplete(m) && !IdRests(m, o.orderId)
    ensures IndexComplete(Rest(m, o, remaining))
  {
    InsertKeepsCover(QuotesOf(m, o.side), o.side, m.index, AsQuote(o, remaining));
  }

  /** The index stays complete if the remainder does not rest beside an order of the same id. */
  lemma AddKeepsComplete(e: Engine, o: OrderAdd)
    requires Orderly(e) && IndexComplete(e)
    requires Sweep(QuotesOf(e, Opposite(o.side)), o, o.volume).remaining > 0 ==> !IdRests(AfterMatch(e, o), o.orderId)
    ensures IndexComplete(AddOrder(e, o).engine)
  {
    var r := Sweep(QuotesOf(e, Opposite(o.side)), o, o.volume);
    MatchKeepsComplete(e, o);
    if r.remaining > 0 {
      RestKeepsComplete(AfterMatch(e, o), o, r.remaining);
    }
  }

  lemma {:induction false} WithoutNobody(q: seq<Quote>, price: Price, id: OrderId)
    requires !HasId(q, id)
    ensures Without(q, price, id) == q
  {
    if q == [] {
    } else {
      assert forall i :: 0 <= i < |q[1..]| ==> q[1..][i] == q[i + 1];
      WithoutNobody(q[1..], price, id);
    }
  }

  /** In a list of distinct ids a cancel cuts out the one quote it names. */
  lemma {:induction false} WithoutOne(q: seq<Quote>, k: nat)
    requires k < |q| && DistinctIds(q)
    ensures Without(q, q[k].price, q[k].orderId) == q[..k] + q[k + 1..]
  {
    if k == 0 {
      WithoutNobody(q[1..], q[0].price, q[0].orderId);
    } else {
      WithoutOne(q[1..], k - 1);
      assert q[..k] + q[k + 1..] == [q[0]] + (q[1..][..k - 1] + q[1..][k..]);
    }
  }

  /** What a cancel does when every resting order is covered by the index. */
  predicate CancelEffect(e: Engine, c: OrderCancel, e': Engine, side: Side, k: nat)
    requires k < |QuotesOf(e, side)|
  {
    var q := QuotesOf(e, side);
    if q[k].userId == c.userId then
      && QuotesOf(e', side) == q[..k] + q[k + 1..]
      && QuotesOf(e', Opposite(side)) == QuotesOf(e, Opposite(side))
      && e'.index == e.index - {c.orderId}
    else e' == e
  }

  /** A cancel by the owner removes exactly the order it names, wherever it rests, and one by
      anyone else changes nothing. */
  lemma CancelRemovesExactlyOne(e: Engine, c: OrderCancel, side: Side, k: nat)
    requires IndexComplete(e)
    requires k < |QuotesOf(e, side)| && QuotesOf(e, side)[k].orderId == c.orderId
    ensures CancelEffect(e, c, CancelOrder(e, c), side, k)
  {
    assert Covered(QuotesOf(e, side), side, e.index);
    WithoutOne(QuotesOf(e, side), k);
  }

  /** A cancel of an id that rests nowhere changes nothing. */
  lemma CancelOfUnknown(e: Engine, c: OrderCancel)
    requires IndexSound(e) && !IdRests(e, c.orderId)
    ensures CancelOrder(e, c) == e
  {
    assert c.orderId in e.index ==>
        Names(QuotesOf(e, e.index[c.orderId].side), c.orderId, e.index[c.orderId]);
  }

  lemma CutKeepsCover(q: seq<Quote>, side: Side, index: map<OrderId, Location>, k: nat)
    requires Covered(q, side, index) && k < |q|
    ensures Covered(q[..k] + q[k + 1..], side, index - {q[k].orderId})
  {
    var q' := q[..k] + q[k + 1..];
    assert forall i :: 0 <= i < |q'| ==> q'[i] == (if i < k then q[i] else q[i + 1]);
  }

  lemma CancelKeepsComplete(e: Engine, c: OrderCancel)
    requires IndexSound(e) && IndexComplete(e)
    ensures IndexComplete(CancelOrder(e, c))
  {
    if Accepts(e, c) {
      var side := e.index[c.orderId].side;
      var q := QuotesOf(e, side);
      assert Names(q, c.orderId, e.index[c.orderId]);
      var k :| 0 <= k < |q| && q[k].orderId == c.orderId;
      CancelRemovesExactlyOne(e, c, side, k);
      CutKeepsCover(q, side, e.index, k);
    }
  }

  lemma {:induction false} RunIndexComplete(cmds: seq<Command>)
    requires FreshIds(cmds)
    ensures IndexComplete(Run(cmds).engine)
  {
    if cmds == [] {
    } else {
      var init, cmd := cmds[..|cmds| - 1], cmds[|cmds| - 1];
      FreshPrefix(cmds);
      RunIndexComplete(init);
      RunWellFormed(init);
      match cmd
      case Add(o) =>
        MatchKeepsComplete(Run(init).engine, o);
        AddKeepsComplete(Run(init).engine, o);
      case Cancel(c) => CancelKeepsComplete(Run(init).engine, c);
    }
  }

  /** Without id reuse the index domain is exactly the set of resting ids. */
  lemma RunIndexExact(cmds: seq<Command>, id: OrderId)
    requires FreshIds(cmds)
    ensures id in Run(cmds).engine.index <==> IdRests(Run(cmds).engine, id)
  {
    RunIndexComplete(cmds);
    RunWellFormed(cmds);
    var e := Run(cmds).engine;
    if id in e.index {
      assert Names(QuotesOf(e, e.index[id].side), id, e.index[id]);
    }
  }
}
