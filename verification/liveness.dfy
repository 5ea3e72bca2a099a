/** Backpressure never deadlocks: in every reachable state a producer with something to push can be
    served by the threads downstream of it, a shutdown can always finish, and without new input it
    does, unless some thread is passed over for ever. */
module Liveness {
  import opened Types
  import opened RouterModel
  import opened MatcherTask
  import opened Settlement
  import opened Pipeline
  import opened PipelineFlow
  import opened Interleavings
  import opened InterleavedAccounts

  // ----- how far there is to go -----

  /** Compared component by component, the first one first. */
  datatype Measure = Measure(phases: nat, upstream: nat, work: nat, load: nat, polls: nat)

  predicate Less(a: Measure, b: Measure) {
    || a.phases < b.phases
    || (a.phases == b.phases && a.upstream < b.upstream)
    || (a.phases == b.phases && a.upstream == b.upstream && a.work < b.work)
    || (a.phases == b.phases && a.upstream == b.upstream && a.work == b.work && a.load < b.load)
    || (&& a.phases == b.phases && a.upstream == b.upstream && a.work == b.work && a.load == b.load
        && a.polls < b.polls)
  }

  /** Commands still upstream of the matching thread. */
  function Upstream(gateway: Gateway, inbound: Channel<Command>): nat {
    (match gateway case Reading => 1 case Dispatching(_) => 3 case Closed => 0) + |inbound.queue|
  }

  function WorkLeft(router: Engines, matcher: Consumer<Task>): nat {
    if matcher.Working? then StepsLeft(router, matcher.item) else 0
  }

  function InventoryLoad(c: Consumer<Stage>, ch: Channel<Trade>): nat {
    6 * |ch.queue| + (if c.Working? then StagesLeft(c.item) else 0)
  }

  function PublisherLoad(c: Consumer<Event>, ch: Channel<Event>): nat {
    2 * |ch.queue| + (if c.Working? then 1 else 0)
  }

  /** Nothing to take and nobody upstream has finished: the thread can only poll. */
  predicate Waiting<T>(ch: Channel<T>, flag: bool) {
    ch.queue == [] && !flag
  }

  /** Polling distance to the next real step: to the pop of what is queued while the flag is down,
      to the exit once it is up. */
  function Polls<T, U>(c: Consumer<T>, ch: Channel<U>, flag: bool): nat {
    match c
    case Popping => if flag then 2 else 0
    case Checking(_, _) => if Waiting(ch, flag) then 0 else 1
    case Working(_) => if flag then 2 else 0
    case Exited(_, _) => 0
  }

  function MeasureOf(s: State): Measure {
    Measure(7 - Phase(s.main), Upstream(s.gateway, s.inbound), WorkLeft(s.router, s.matcher),
            InventoryLoad(s.inventory, s.trades) + PublisherLoad(s.publisher, s.market),
            Polls(s.matcher, s.inbound, s.gatewayFinished) + Polls(s.inventory, s.trades, s.engineFinished)
            + Polls(s.publisher, s.market, s.engineFinished))
  }

  predicate PollStep<T>(ch: Channel<T>, flag: bool, step: Step) {
    (step.Miss? || step.Check?) && Waiting(ch, flag)
  }

  /** An idle thread's failed pop, or its look at a flag that is still down. */
  predicate Poll(s: State, a: Action) {
    match a
    case Matcher(step) => PollStep(s.inbound, s.gatewayFinished, step)
    case Inventory(step) => PollStep(s.trades, s.engineFinished, step)
    case Publisher(step) => PollStep(s.market, s.engineFinished, step)
    case _ => false
  }

  // ----- the drainers -----

  predicate DrainStep(a: Action) {
    a.Inventory? || a.Publisher?
  }

  /** What a thread that has not left does next. */
  function NextStep<T, U>(c: Consumer<T>, ch: Channel<U>): Step {
    match c
    case Popping => if ch.queue != [] then Take else Miss
    case Checking(_, _) => Check
    case _ => Work
  }

  lemma InventoryWorkLess(s: State)
    requires InventoryCan(s, Work)
    ensures Less(MeasureOf(InventoryDo(s, Work)), MeasureOf(s))
  {
    var s' := InventoryDo(s, Work);
    assert InventoryLoad(s'.inventory, s'.trades) < InventoryLoad(s.inventory, s.trades);
  }

  lemma InventoryLess(s: State, step: Step)
    requires InventoryCan(s, step) && !Poll(s, Inventory(step))
    ensures Less(MeasureOf(InventoryDo(s, step)), MeasureOf(s))
  {
    if step.Work? {
      InventoryWorkLess(s);
    }
  }

  lemma PublisherLess(s: State, step: Step)
    requires PublisherCan(s, step) && !Poll(s, Publisher(step))
    ensures Less(MeasureOf(PublisherDo(s, step)), MeasureOf(s))
  {
  }

  /** The step a drainer that has not left can take. */
  lemma InventoryMoves(s: State) returns (a: Action)
    requires Inv(s) && !s.inventory.Exited? && (s.engineFinished || s.trades.queue != [])
    ensures DrainStep(a) && Enabled(s, a) && Less(MeasureOf(Do(s, a)), MeasureOf(s))
  {
    var step := NextStep(s.inventory, s.trades);
    if step.Work? {
      HeldTradeSettles(s);
    }
    InventoryLess(s, step);
    a := Inventory(step);
  }

  lemma PublisherMoves(s: State) returns (a: Action)
    requires !s.publisher.Exited? && (s.engineFinished || s.market.queue != [])
    ensures DrainStep(a) && Enabled(s, a) && Less(MeasureOf(Do(s, a)), MeasureOf(s))
  {
    var step := NextStep(s.publisher, s.market);
    PublisherLess(s, step);
    a := Publisher(step);
  }

  // ----- the matching thread -----

  predicate WorkerStep(a: Action) {
    a.Matcher? || DrainStep(a)
  }

  lemma MatcherWorkLess(s: State)
    requires MatcherCan(s, Work) && TaskOk(s.router, s.matcher.item)
    ensures Less(MeasureOf(MatcherDo(s, Work)), MeasureOf(s))
  {
    var task := s.matcher.item;
    if IsPush(task) {
      PushLessToDo(s.router, task);
    } else {
      WorkLessToDo(s.router, task);
    }
    var s' := MatcherDo(s, Work);
    assert s'.main == s.main && s'.gateway == s.gateway && s'.inbound == s.inbound;
    assert WorkLeft(s'.router, s'.matcher) < WorkLeft(s.router, s.matcher);
  }

  lemma MatcherIdleLess(s: State, step: Step)
    requires MatcherCan(s, step) && !step.Work? && !Poll(s, Matcher(step))
    ensures Less(MeasureOf(MatcherDo(s, step)), MeasureOf(s))
  {
  }

  lemma MatcherIdleMoves(s: State) returns (a: Action)
    requires (s.matcher.Popping? || s.matcher.Checking?) && (s.gatewayFinished || s.inbound.queue != [])
    ensures WorkerStep(a) && Enabled(s, a) && Less(MeasureOf(Do(s, a)), MeasureOf(s))
  {
    var step := NextStep(s.matcher, s.inbound);
    MatcherIdleLess(s, step);
    a := Matcher(step);
  }

  /** Whoever holds up a push of the matching thread can move. */
  lemma BlockerMoves(s: State) returns (a: Action)
    requires Inv(s) && s.matcher.Working? && !MatcherCan(s, Work)
    ensures DrainStep(a) && Enabled(s, a) && Less(MeasureOf(Do(s, a)), MeasureOf(s))
  {
    match Pushed(s.matcher.item)
    case ToMarket(_) => a := PublisherMoves(s);
    case ToTrades(_) => a := InventoryMoves(s);
  }

  /** The matching thread, or whoever is holding it up, can move. */
  lemma MatcherMoves(s: State) returns (a: Action)
    requires Inv(s) && !s.matcher.Exited?
    requires s.gatewayFinished || s.inbound.queue != [] || s.matcher.Working?
    ensures WorkerStep(a) && Enabled(s, a) && Less(MeasureOf(Do(s, a)), MeasureOf(s))
  {
    if !s.matcher.Working? {
      a := MatcherIdleMoves(s);
    } else if MatcherCan(s, Work) {
      MatcherWorkLess(s);
      a := Matcher(Work);
    } else {
      a := BlockerMoves(s);
    }
  }

  // ----- runs -----

  predicate WorkersOnly(actions: seq<Action>) {
    actions == [] || (WorkerStep(actions[0]) && WorkersOnly(actions[1..]))
  }

  predicate DrainersOnly(actions: seq<Action>) {
    actions == [] || (DrainStep(actions[0]) && DrainersOnly(actions[1..]))
  }

  lemma WorkersLeaveGateway(s: State, a: Action)
    requires Enabled(s, a) && WorkerStep(a)
    ensures Do(s, a).gateway == s.gateway
  {
  }

  lemma DrainersLeaveMatcher(s: State, a: Action)
    requires Enabled(s, a) && DrainStep(a)
    ensures Do(s, a).matcher == s.matcher
  {
  }

  lemma RoomStep(s: State) returns (a: Action)
    requires Inv(s) && s.gateway.Dispatching? && !Room(s.inbound)
    ensures WorkerStep(a) && Enabled(s, a) && Inv(Do(s, a)) && Do(s, a).gateway.Dispatching?
    ensures Less(MeasureOf(Do(s, a)), MeasureOf(s))
  {
    a := MatcherMoves(s);
    StepInv(s, a);
    WorkersLeaveGateway(s, a);
  }

  lemma {:induction false} RoomFrom(s: State, m: Measure) returns (more: seq<Action>, s': State)
    requires Inv(s) && s.gateway.Dispatching? && m == MeasureOf(s)
    ensures CanRun(s, more) && WorkersOnly(more) && s' == After(s, more)
    ensures s'.gateway.Dispatching? && Room(s'.inbound)
    decreases m.phases, m.upstream, m.work, m.load, m.polls
  {
    if Room(s.inbound) {
      more, s' := [], s;
    } else {
      var a := RoomStep(s);
      more, s' := RoomFrom(Do(s, a), MeasureOf(Do(s, a)));
      RunAfter(s, a, more);
      assert ([a] + more)[1..] == more;
      more := [a] + more;
    }
  }

  lemma UnblockStep(s: State) returns (a: Action)
    requires Inv(s) && s.matcher.Working? && !MatcherCan(s, Work)
    ensures DrainStep(a) && Enabled(s, a) && Inv(Do(s, a)) && Do(s, a).matcher.Working?
    ensures Less(MeasureOf(Do(s, a)), MeasureOf(s))
  {
    a := BlockerMoves(s);
    StepInv(s, a);
    DrainersLeaveMatcher(s, a);
  }

  lemma {:induction false} PushableFrom(s: State, m: Measure) returns (more: seq<Action>, s': State)
    requires Inv(s) && s.matcher.Working? && m == MeasureOf(s)
    ensures CanRun(s, more) && DrainersOnly(more) && s' == After(s, more)
    ensures MatcherCan(s', Work)
    decreases m.phases, m.upstream, m.work, m.load, m.polls
  {
    if MatcherCan(s, Work) {
      more, s' := [], s;
    } else {
      var a := UnblockStep(s);
      more, s' := PushableFrom(Do(s, a), MeasureOf(Do(s, a)));
      RunAfter(s, a, more);
      assert ([a] + more)[1..] == more;
      more := [a] + more;
    }
  }

  /** A gateway with a command to dispatch is never stuck: in any reachable state, serving or
      stopping, the workers can by themselves make room for it. */
  lemma GatewayNeverStuck(actions: seq<Action>) returns (more: seq<Action>)
    requires CanRun(START, actions) && After(START, actions).gateway.Dispatching?
    ensures CanRun(After(START, actions), more) && WorkersOnly(more)
    ensures Enabled(After(After(START, actions), more), Dispatch)
  {
    Reachable(actions);
    var s';
    more, s' := RoomFrom(After(START, actions), MeasureOf(After(START, actions)));
  }

  /** Nor is the matching thread in the middle of a command: the two drainers make room for what it
      has to push. */
  lemma MatcherNeverStuck(actions: seq<Action>) returns (more: seq<Action>)
    requires CanRun(START, actions) && After(START, actions).matcher.Working?
    ensures CanRun(After(START, actions), more) && DrainersOnly(more)
    ensures Enabled(After(After(START, actions), more), Matcher(Work))
  {
    Reachable(actions);
    var s';
    more, s' := PushableFrom(After(START, actions), MeasureOf(After(START, actions)));
  }

  // ----- shutdown -----

  lemma MainLess(s: State, a: Action)
    requires Enabled(s, a) && (a.MainStep? || a.CloseGateway? || a.Dispatch?)
    ensures Less(MeasureOf(Do(s, a)), MeasureOf(s))
  {
  }

  lemma JoinGatewayMoves(s: State) returns (a: Action)
    requires Inv(s) && s.main.JoinGateway? && !s.gateway.Closed?
    ensures Enabled(s, a) && Less(MeasureOf(Do(s, a)), MeasureOf(s))
  {
    if s.gateway.Reading? {
      a := CloseGateway;
      MainLess(s, a);
    } else if Room(s.inbound) {
      a := Dispatch;
      MainLess(s, a);
    } else {
      a := MatcherMoves(s);
    }
  }

  /** In every reachable state of a shutdown some thread has a step that brings the end closer,
      full queues or not. */
  lemma AlwaysAStepCloser(s: State) returns (a: Action)
    requires Inv(s) && !s.main.Serving? && !s.main.Snapshot?
    ensures Enabled(s, a) && Less(MeasureOf(Do(s, a)), MeasureOf(s))
  {
    if MainReady(s) {
      a := MainStep;
      MainLess(s, a);
    } else if s.main.JoinGateway? {
      a := JoinGatewayMoves(s);
    } else if s.main.JoinMatcher? {
      a := MatcherMoves(s);
    } else if s.main.JoinInventory? {
      a := InventoryMoves(s);
    } else {
      a := PublisherMoves(s);
    }
  }

  lemma NeverServingAgain(s: State, a: Action)
    requires Enabled(s, a) && !s.main.Serving?
    ensures !Do(s, a).main.Serving?
  {
  }

  lemma {:induction false} FinishFrom(s: State, m: Measure) returns (actions: seq<Action>)
    requires Inv(s) && !s.main.Serving? && m == MeasureOf(s)
    ensures CanRun(s, actions) && After(s, actions).main.Snapshot?
    decreases m.phases, m.upstream, m.work, m.load, m.polls
  {
    if s.main.Snapshot? {
      actions := [];
    } else {
      var a := AlwaysAStepCloser(s);
      StepInv(s, a);
      NeverServingAgain(s, a);
      var rest := FinishFrom(Do(s, a), MeasureOf(Do(s, a)));
      RunAfter(s, a, rest);
      actions := [a] + rest;
    }
  }

  /** However a run has gone so far, full queues or not, once shutdown has begun some schedule
      still reaches the snapshot: backpressure and the ordered joins never deadlock. */
  lemma ShutdownCanFinish(actions: seq<Action>) returns (more: seq<Action>)
    requires CanRun(START, actions) && !After(START, actions).main.Serving?
    ensures CanRun(After(START, actions), more)
    ensures After(After(START, actions), more).main.Snapshot?
  {
    Reachable(actions);
    more := FinishFrom(After(START, actions), MeasureOf(After(START, actions)));
  }

  // ----- endless runs -----

  lemma MatcherLess(s: State, step: Step)
    requires Inv(s) && MatcherCan(s, step) && !Poll(s, Matcher(step))
    ensures Less(MeasureOf(MatcherDo(s, step)), MeasureOf(s))
  {
    if step.Work? {
      HandUnderWay(s, s.matcher.item);
      MatcherWorkLess(s);
    } else {
      MatcherIdleLess(s, step);
    }
  }

  /** Every step but a new command and an idle poll brings the end closer. */
  lemma EveryOtherStepCloser(s: State, a: Action)
    requires Inv(s) && Enabled(s, a) && !a.Receive? && !Poll(s, a)
    ensures Less(MeasureOf(Do(s, a)), MeasureOf(s))
  {
    match a
    case Matcher(step) => MatcherLess(s, step);
    case Inventory(step) => InventoryLess(s, step);
    case Publisher(step) => PublisherLess(s, step);
    case Signal =>
    case _ => MainLess(s, a);
  }

  lemma PollStays(s: State, a: Action)
    requires Enabled(s, a) && Poll(s, a)
    ensures MeasureOf(Do(s, a)) == MeasureOf(s)
  {
    PollChangesLittle(s, a);
  }

  /** A poll moves its own thread between popping and checking. */
  lemma PollChangesLittle(s: State, a: Action)
    requires Enabled(s, a) && Poll(s, a)
    ensures match a
            case Matcher(_) =>
              Do(s, a) == s.(matcher := Do(s, a).matcher) && Idles(s.matcher, Do(s, a).matcher)
            case Inventory(_) =>
              Do(s, a) == s.(inventory := Do(s, a).inventory) && Idles(s.inventory, Do(s, a).inventory)
            case _ =>
              Do(s, a) == s.(publisher := Do(s, a).publisher) && Idles(s.publisher, Do(s, a).publisher)
  {
  }

  predicate Idles<T>(c: Consumer<T>, c': Consumer<T>) {
    (c.Popping? && c'.Checking?) || (c.Checking? && c'.Popping?)
  }

  lemma CloserIsReal(s: State, a: Action)
    requires Enabled(s, a) && Less(MeasureOf(Do(s, a)), MeasureOf(s))
    ensures !a.Receive? && !Poll(s, a)
  {
    if Poll(s, a) {
      PollStays(s, a);
    }
  }

  predicate StepsAt(states: nat -> State, acts: nat -> Action, k: nat) {
    Enabled(states(k), acts(k)) && states(k + 1) == Do(states(k), acts(k))
  }

  /** A run that goes on for ever. */
  ghost predicate Endless(states: nat -> State, acts: nat -> Action) {
    states(0) == START && forall k: nat :: StepsAt(states, acts, k)
  }

  ghost predicate NoInputFrom(acts: nat -> Action, n: nat) {
    forall k: nat :: n <= k ==> !acts(k).Receive?
  }

  /** The first `n` actions, as a run. */
  function Until(acts: nat -> Action, n: nat): seq<Action> {
    if n == 0 then [] else Until(acts, n - 1) + [acts(n - 1)]
  }

  lemma {:induction false} EndlessRuns(states: nat -> State, acts: nat -> Action, n: nat)
    requires Endless(states, acts)
    ensures CanRun(START, Until(acts, n)) && After(START, Until(acts, n)) == states(n)
  {
    if n == 0 {
    } else {
      EndlessRuns(states, acts, n - 1);
      assert StepsAt(states, acts, n - 1);
      RunStep(START, Until(acts, n - 1), acts(n - 1));
    }
  }

  lemma EndlessInv(states: nat -> State, acts: nat -> Action, k: nat)
    requires Endless(states, acts)
    ensures Inv(states(k))
  {
    EndlessRuns(states, acts, k);
    Reachable(Until(acts, k));
  }

  lemma {:induction false} NeverFurther(states: nat -> State, acts: nat -> Action, i: nat, j: nat)
    requires Endless(states, acts) && NoInputFrom(acts, i) && i <= j
    ensures MeasureOf(states(j)) == MeasureOf(states(i)) || Less(MeasureOf(states(j)), MeasureOf(states(i)))
    decreases j - i
  {
    if i == j {
    } else {
      NeverFurther(states, acts, i, j - 1);
      OneStep(states, acts, j - 1);
    }
  }

  lemma OneStep(states: nat -> State, acts: nat -> Action, k: nat)
    requires Endless(states, acts) && !acts(k).Receive?
    ensures if Poll(states(k), acts(k)) then MeasureOf(states(k + 1)) == MeasureOf(states(k))
            else Less(MeasureOf(states(k + 1)), MeasureOf(states(k)))
  {
    assert StepsAt(states, acts, k);
    if Poll(states(k), acts(k)) {
      PollStays(states(k), acts(k));
    } else {
      EndlessInv(states, acts, k);
      EveryOtherStepCloser(states(k), acts(k));
    }
  }

  /** With no more input every run goes quiet: from some moment on there are only idle polls. */
  lemma {:induction false} OnlyPollsLeft(states: nat -> State, acts: nat -> Action, n: nat, m: Measure)
    returns (quiet: nat)
    requires Endless(states, acts) && NoInputFrom(acts, n) && m == MeasureOf(states(n))
    ensures n <= quiet && forall k: nat :: quiet <= k ==> Poll(states(k), acts(k))
    decreases m.phases, m.upstream, m.work, m.load, m.polls
  {
    if k: nat :| n <= k && !Poll(states(k), acts(k)) {
      NeverFurther(states, acts, n, k);
      OneStep(states, acts, k);
      quiet := OnlyPollsLeft(states, acts, k + 1, MeasureOf(states(k + 1)));
    } else {
      quiet := n;
    }
  }

  lemma PollsKeepEnabled(s: State, a: Action, poll: Action)
    requires Enabled(s, a) && !a.Receive? && !Poll(s, a) && Enabled(s, poll) && Poll(s, poll)
    ensures Enabled(Do(s, poll), a) && !Poll(Do(s, poll), a)
  {
    PollChangesLittle(s, poll);
  }

  lemma {:induction false} StillEnabled(states: nat -> State, acts: nat -> Action, quiet: nat, a: Action, k: nat)
    requires Endless(states, acts) && quiet <= k
    requires forall i: nat :: quiet <= i ==> Poll(states(i), acts(i))
    requires Enabled(states(quiet), a) && !a.Receive? && !Poll(states(quiet), a)
    ensures Enabled(states(k), a) && acts(k) != a && !Poll(states(k), a)
    decreases k - quiet
  {
    if k == quiet {
    } else {
      StillEnabled(states, acts, quiet, a, k - 1);
      assert StepsAt(states, acts, k - 1);
      PollsKeepEnabled(states(k - 1), a, acts(k - 1));
    }
  }

  lemma {:induction false} StaysStopping(states: nat -> State, acts: nat -> Action, i: nat, j: nat)
    requires Endless(states, acts) && i <= j && !states(i).main.Serving?
    ensures !states(j).main.Serving?
    decreases j - i
  {
    if i == j {
    } else {
      StaysStopping(states, acts, i, j - 1);
      assert StepsAt(states, acts, j - 1);
      NeverServingAgain(states(j - 1), acts(j - 1));
    }
  }

  lemma NoPollAtSnapshot(s: State, a: Action)
    requires OrderInv(s) && Poll(s, a)
    ensures !s.main.Snapshot?
  {
  }

  lemma RealStep(s: State, poll: Action) returns (a: Action)
    requires Inv(s) && !s.main.Serving? && Poll(s, poll)
    ensures Enabled(s, a) && !a.Receive? && !Poll(s, a)
  {
    NoPollAtSnapshot(s, poll);
    a := AlwaysAStepCloser(s);
    CloserIsReal(s, a);
  }

  /** A shutdown without new input finishes under every fair schedule. If it went on for ever, there
      would be a step, no new command and no poll, that from some moment on is always possible
      and never taken. */
  lemma EndlessShutdownIsUnfair(states: nat -> State, acts: nat -> Action, n: nat)
    returns (quiet: nat, passedOver: Action)
    requires Endless(states, acts) && NoInputFrom(acts, n) && !states(n).main.Serving?
    ensures forall k: nat :: quiet <= k ==> Enabled(states(k), passedOver) && acts(k) != passedOver
    ensures !passedOver.Receive? && !Poll(states(quiet), passedOver)
  {
    quiet := OnlyPollsLeft(states, acts, n, MeasureOf(states(n)));
    StaysStopping(states, acts, n, quiet);
    EndlessInv(states, acts, quiet);
    passedOver := RealStep(states(quiet), acts(quiet));
    forall k: nat | quiet <= k ensures Enabled(states(k), passedOver) && acts(k) != passedOver {
      StillEnabled(states, acts, quiet, passedOver, k);
    }
  }
}
