/** The four worker threads, their bounded queues and the ordered shutdown, as one state machine
    over every interleaving of their statements. A consumer's failed pop and its later look at the
    finished flag are separate steps, as they are in the code. */
module Pipeline {
  import opened Types
  import opened Runs
  import opened RouterModel
  import opened AccountsModel
  import opened MatcherTask
  import opened Settlement

  const QUEUE_CAPACITY: nat := 4096
  const USERS: nat := 100

  // ----- parts -----

  /** A single-producer, single-consumer FIFO and all that was ever pushed to it. */
  datatype Channel<T> = Channel(pushed: seq<T>, queue: seq<T>)

  predicate Room<T>(ch: Channel<T>) {
    |ch.queue| < QUEUE_CAPACITY
  }

  function Push<T>(ch: Channel<T>, x: T): Channel<T> {
    Channel(ch.pushed + [x], ch.queue + [x])
  }

  function Pop<T>(ch: Channel<T>): Channel<T>
    requires ch.queue != []
  {
    ch.(queue := ch.queue[1..])
  }

  /** A draining thread. `mark` is how much had been pushed when its last pop failed, and
      `flagThen` whether the upstream finished flag was already set at that moment. */
  datatype Consumer<T> =
    | Popping
    | Checking(mark: nat, flagThen: bool)
    | Working(item: T)
    | Exited(mark: nat, flagThen: bool)

  /** Back to popping when there is nothing further to do. */
  function Resume<T>(next: Option<T>): Consumer<T> {
    match next
    case None => Popping
    case Some(item) => Working(item)
  }

  /** After a look at the flag: leave, or go back to popping. */
  function Decide<T>(c: Consumer<T>, flag: bool): Consumer<T>
    requires c.Checking?
  {
    if flag then Exited(c.mark, c.flagThen) else Popping
  }

  datatype Gateway = Reading | Dispatching(cmd: Command) | Closed

  /** Where `main` is: each join waits for a thread, each flag is a store. */
  datatype Main =
    | Serving | JoinGateway | FlagGateway | JoinMatcher | FlagEngine
    | JoinInventory | JoinPublisher | Snapshot

  /** `consumed`, `settled`, `mids` and `published` record what has been taken, settled (and with
      which mid) and sent so far. */
  datatype State = State(
    main: Main, gatewayFinished: bool, engineFinished: bool,
    gateway: Gateway, inbound: Channel<Command>,
    matcher: Consumer<Task>, router: Engines, consumed: seq<Command>,
    trades: Channel<Trade>, inventory: Consumer<Stage>, settled: seq<Trade>,
    mids: seq<Option<Price>>, accounts: AccountsModel.Accounts,
    market: Channel<Event>, publisher: Consumer<Event>, published: seq<Event>)

  const START := State(Serving, false, false, Reading, Channel([], []), Popping, ALL_EMPTY, [],
                       Channel([], []), Popping, [], [], Opened(USERS), Channel([], []), Popping, [])

  /** A worker pops, fails to pop, looks at the flag, or executes the next statement. */
  datatype Step = Take | Miss | Check | Work

  datatype Action =
    | Signal | MainStep
    | Receive(cmd: Command) | Dispatch | CloseGateway
    | Matcher(step: Step) | Inventory(step: Step) | Publisher(step: Step)

  predicate KnownUser(cmd: Command) {
    cmd.Add? ==> UserIn(cmd.order.userId, USERS)
  }

  // ----- main and the gateway -----

  predicate MainReady(s: State) {
    match s.main
    case Serving | Snapshot => false
    case FlagGateway | FlagEngine => true
    case JoinGateway => s.gateway.Closed?
    case JoinMatcher => s.matcher.Exited?
    case JoinInventory => s.inventory.Exited?
    case JoinPublisher => s.publisher.Exited?
  }

  function NextPhase(m: Main): Main {
    match m
    case Serving => JoinGateway
    case JoinGateway => FlagGateway
    case FlagGateway => JoinMatcher
    case JoinMatcher => FlagEngine
    case FlagEngine => JoinInventory
    case JoinInventory => JoinPublisher
    case JoinPublisher => Snapshot
    case Snapshot => Snapshot
  }

  function MainNext(s: State): State {
    s.(main := NextPhase(s.main),
       gatewayFinished := s.gatewayFinished || s.main.FlagGateway?,
       engineFinished := s.engineFinished || s.main.FlagEngine?)
  }

  // ----- the matching thread -----

  predicate RoomFor(s: State, out: Output) {
    if out.ToMarket? then Room(s.market) else Room(s.trades)
  }

  function PushTo(s: State, out: Output): State {
    match out
    case ToMarket(e) => s.(market := Push(s.market, e))
    case ToTrades(t) => s.(trades := Push(s.trades, t))
  }

  /** A full queue blocks its producer: the push is simply not enabled. */
  predicate MatcherCan(s: State, step: Step) {
    match step
    case Take => s.matcher.Popping? && s.inbound.queue != []
    case Miss => s.matcher.Popping? && s.inbound.queue == []
    case Check => s.matcher.Checking?
    case Work => s.matcher.Working? && (IsPush(s.matcher.item) ==> RoomFor(s, Pushed(s.matcher.item)))
  }

  function MatcherWork(s: State): State
    requires MatcherCan(s, Work)
  {
    var task := s.matcher.item;
    if IsPush(task) then
      PushTo(s, Pushed(task)).(matcher := Resume(AfterPush(task)))
    else
      var (engines, next) := AfterWork(s.router, task);
      s.(router := engines, matcher := Resume(next))
  }

  function MatcherDo(s: State, step: Step): State
    requires MatcherCan(s, step)
  {
    match step
    case Take =>
      var cmd := s.inbound.queue[0];
      s.(inbound := Pop(s.inbound), consumed := s.consumed + [cmd], matcher := Working(Begin(cmd)))
    case Miss => s.(matcher := Checking(|s.inbound.pushed|, s.gatewayFinished))
    case Check => s.(matcher := Decide(s.matcher, s.gatewayFinished))
    case Work => MatcherWork(s)
  }

  // ----- the inventory thread -----

  /** What a read of a ticker's mid returns: the value current at that moment (a seqlock load
      returns one that was current between its call and its return). */
  function MidOf(engines: Engines, ticker: Ticker): Option<Price> {
    if ListedTicker(ticker) then engines[TickerIndex(ticker)].mid else None
  }

  predicate InventoryCan(s: State, step: Step) {
    match step
    case Take => s.inventory.Popping? && s.trades.queue != []
    case Miss => s.inventory.Popping? && s.trades.queue == []
    case Check => s.inventory.Checking?
    case Work => s.inventory.Working? && Settles(s.inventory.item.trade, |s.accounts|)
  }

  function InventoryWork(s: State): State
    requires InventoryCan(s, Work)
  {
    var stage := s.inventory.item;
    var next := StageNext(stage, MidOf(s.router, stage.trade.ticker));
    var after := s.(accounts := StageDo(s.accounts, stage), inventory := Resume(next));
    if next.Some? then after
    else after.(settled := s.settled + [stage.trade], mids := s.mids + [MidUsed(stage)])
  }

  function InventoryDo(s: State, step: Step): State
    requires InventoryCan(s, step)
  {
    match step
    case Take => s.(inventory := Working(FillMaker(s.trades.queue[0])), trades := Pop(s.trades))
    case Miss => s.(inventory := Checking(|s.trades.pushed|, s.engineFinished))
    case Check => s.(inventory := Decide(s.inventory, s.engineFinished))
    case Work => InventoryWork(s)
  }

  // ----- the publisher -----

  predicate PublisherCan(s: State, step: Step) {
    match step
    case Take => s.publisher.Popping? && s.market.queue != []
    case Miss => s.publisher.Popping? && s.market.queue == []
    case Check => s.publisher.Checking?
    case Work => s.publisher.Working?
  }

  function PublisherDo(s: State, step: Step): State
    requires PublisherCan(s, step)
  {
    match step
    case Take => s.(publisher := Working(s.market.queue[0]), market := Pop(s.market))
    case Miss => s.(publisher := Checking(|s.market.pushed|, s.engineFinished))
    case Check => s.(publisher := Decide(s.publisher, s.engineFinished))
    case Work => s.(publisher := Popping, published := s.published + [s.publisher.item])
  }

  // ----- all together -----

  predicate Enabled(s: State, a: Action) {
    match a
    case Signal => s.main.Serving?
    case MainStep => MainReady(s)
    case Receive(cmd) => s.gateway.Reading? && KnownUser(cmd)
    case Dispatch => s.gateway.Dispatching? && Room(s.inbound)
    case CloseGateway => s.gateway.Reading? && !s.main.Serving?
    case Matcher(step) => MatcherCan(s, step)
    case Inventory(step) => InventoryCan(s, step)
    case Publisher(step) => PublisherCan(s, step)
  }

  function Do(s: State, a: Action): State
    requires Enabled(s, a)
  {
    match a
    case Signal => MainNext(s)
    case MainStep => MainNext(s)
    case Receive(cmd) => s.(gateway := Dispatching(cmd))
    case Dispatch => s.(gateway := Reading, inbound := Push(s.inbound, s.gateway.cmd))
    case CloseGateway => s.(gateway := Closed)
    case Matcher(step) => MatcherDo(s, step)
    case Inventory(step) => InventoryDo(s, step)
    case Publisher(step) => PublisherDo(s, step)
  }

  /** `actions` can happen in this order from `s`. */
  predicate CanRun(s: State, actions: seq<Action>)
    decreases |actions|
  {
    actions == [] || (Enabled(s, actions[0]) && CanRun(Do(s, actions[0]), actions[1..]))
  }

  function After(s: State, actions: seq<Action>): State
    requires CanRun(s, actions)
    decreases |actions|
  {
    if actions == [] then s else After(Do(s, actions[0]), actions[1..])
  }
}
