/** The ordered shutdown: who leaves when, exactly when it finishes all work, and a run in which it
    does not. */
module Shutdown {
  import opened Types
  import opened RouterModel
  import opened ReplicaModel
  import opened Pipeline
  import opened PipelineFlow
  import opened Interleavings

  /** Nobody has left while the thread that feeds them still runs, nor the gateway before the signal. */
  lemma NobodyLeavesEarly(actions: seq<Action>)
    requires CanRun(START, actions)
    ensures var s := After(START, actions);
            && (s.gateway.Closed? ==> !s.main.Serving?)
            && (s.matcher.Exited? ==> s.gateway.Closed?)
            && (s.inventory.Exited? ==> s.matcher.Exited?)
            && (s.publisher.Exited? ==> s.matcher.Exited?)
  {
    Reachable(actions);
  }

  /** What an exited worker left in its queue is exactly what came after its last failed pop. */
  predicate LeftLate<T, U(==)>(c: Consumer<T>, ch: Channel<U>) {
    c.Exited? ==> c.mark <= |ch.pushed| && ch.queue == ch.pushed[c.mark..]
  }

  /** Whatever a worker leaves in its queue was pushed after its last failed pop. */
  lemma LeftoverIsLate(actions: seq<Action>)
    requires CanRun(START, actions)
    ensures var s := After(START, actions);
            && LeftLate(s.matcher, s.inbound)
            && LeftLate(s.inventory, s.trades)
            && LeftLate(s.publisher, s.market)
  {
    Reachable(actions);
  }

  /** Every dispatched command matched, every trade settled, every event published. */
  predicate AllWorkDone(s: State) {
    && s.consumed == s.inbound.pushed
    && s.settled == RunRouter(s.inbound.pushed).trades
    && s.published == Feed(s.inbound.pushed)
  }

  /** Nothing was pushed to a worker between its last failed pop and its exit. */
  predicate NoLatePush(s: State) {
    && (s.matcher.Exited? ==> s.matcher.mark == |s.inbound.pushed|)
    && (s.inventory.Exited? ==> s.inventory.mark == |s.trades.pushed|)
    && (s.publisher.Exited? ==> s.publisher.mark == |s.market.pushed|)
  }

  lemma AllDrained<T>(taken: seq<T>, ch: Channel<T>, all: seq<T>)
    requires Drained(taken, [], ch) && Emitted(ch.pushed, [], all)
    ensures taken + ch.queue == ch.pushed == all
  {
    assert taken + [] == taken && ch.pushed + [] == ch.pushed;
  }

  lemma AllGone(s: State)
    requires OrderInv(s) && s.main.Snapshot?
    ensures s.matcher.Exited? && s.inventory.Exited? && s.publisher.Exited?
    ensures Unsent(s) == [] && HeldTrade(s.inventory) == [] && HeldEvent(s.publisher) == []
  {
  }

  /** With every worker gone, only the queues stand between the inputs and the results. */
  lemma WorkersGone(s: State)
    requires Inv(s) && s.main.Snapshot?
    ensures s.matcher.Exited? && s.inventory.Exited? && s.publisher.Exited?
    ensures s.consumed + s.inbound.queue == s.inbound.pushed
    ensures s.settled + s.trades.queue == s.trades.pushed == RunRouter(s.consumed).trades
    ensures s.published + s.market.queue == s.market.pushed == Feed(s.consumed)
  {
    AllGone(s);
    assert s.consumed + [] == s.consumed;
    AllDrained(s.settled, s.trades, RunRouter(s.consumed).trades);
    AllDrained(s.published, s.market, Feed(s.consumed));
  }

  predicate QueuesEmpty(s: State) {
    s.inbound.queue == [] && s.trades.queue == [] && s.market.queue == []
  }

  lemma DoneMeansEmpty(s: State)
    requires Inv(s) && s.main.Snapshot?
    ensures AllWorkDone(s) <==> QueuesEmpty(s)
  {
    WorkersGone(s);
    if AllWorkDone(s) {
      assert |s.inbound.queue| == 0;
      assert |s.trades.queue| == 0 && |s.market.queue| == 0;
    }
  }

  lemma EmptyMeansNoLatePush(s: State)
    requires Inv(s) && s.main.Snapshot?
    ensures QueuesEmpty(s) <==> NoLatePush(s)
  {
    WorkersGone(s);
    assert |s.inbound.queue| == |s.inbound.pushed| - s.matcher.mark;
    assert |s.trades.queue| == |s.trades.pushed| - s.inventory.mark;
    assert |s.market.queue| == |s.market.pushed| - s.publisher.mark;
  }

  /** When the snapshot is written all work is done if and only if no worker had something
      pushed to it between its last failed pop and its look at the finished flag. */
  lemma DoneExactlyWhen(actions: seq<Action>)
    requires CanRun(START, actions) && After(START, actions).main.Snapshot?
    ensures AllWorkDone(After(START, actions)) <==> NoLatePush(After(START, actions))
  {
    Reachable(actions);
    DoneMeansEmpty(After(START, actions));
    EmptyMeansNoLatePush(After(START, actions));
  }

  /** In particular when every worker's last failed pop came after its upstream flag was set. */
  lemma FlagFirstMeansDone(actions: seq<Action>)
    requires CanRun(START, actions)
    requires var s := After(START, actions);
             s.main.Snapshot? && s.matcher.Exited? && s.matcher.flagThen && s.inventory.Exited? && s.inventory.flagThen
             && s.publisher.Exited? && s.publisher.flagThen
    ensures AllWorkDone(After(START, actions)) && QueuesEmpty(After(START, actions))
  {
    Reachable(actions);
    DoneExactlyWhen(actions);
    DoneMeansEmpty(After(START, actions));
  }

  /** The matching thread finds its queue empty; a command arrives and the gateway is closed,
      joined and flagged before the thread looks at the flag. It leaves, and the command is
      never matched: shutting down can drop work. */
  lemma ShutdownCanDropWork(cmd: Command) returns (actions: seq<Action>)
    requires KnownUser(cmd)
    ensures CanRun(START, actions)
    ensures var s := After(START, actions);
            s.main.Snapshot? && s.inbound.pushed == [cmd] && s.inbound.queue == [cmd] && s.consumed == []
  {
    actions := Arrive(cmd);
    actions := CloseUnseen(actions, cmd);
    actions := LeaveAll(actions, cmd);
  }

  /** Start, but with this command queued behind the matching thread's failed pop. */
  function Unseen(cmd: Command): State {
    START.(inbound := Channel([cmd], [cmd]), matcher := Checking(0, false))
  }

  /** The same after the gateway is flagged and the matching thread has left. */
  function Deserted(cmd: Command): State {
    Unseen(cmd).(main := FlagEngine, gatewayFinished := true, gateway := Closed, matcher := Exited(0, false))
  }

  lemma Arrive(cmd: Command) returns (actions: seq<Action>)
    requires KnownUser(cmd)
    ensures CanRun(START, actions) && After(START, actions) == Unseen(cmd)
  {
    actions := [];
    RunStep(START, actions, Matcher(Miss));   actions := actions + [Matcher(Miss)];
    RunStep(START, actions, Receive(cmd));  actions := actions + [Receive(cmd)];
    RunStep(START, actions, Dispatch);      actions := actions + [Dispatch];
  }

  lemma CloseUnseen(start: seq<Action>, cmd: Command) returns (actions: seq<Action>)
    requires CanRun(START, start) && After(START, start) == Unseen(cmd)
    ensures CanRun(START, actions) && After(START, actions) == Deserted(cmd)
  {
    actions := start;
    RunStep(START, actions, Signal);        actions := actions + [Signal];
    RunStep(START, actions, CloseGateway);  actions := actions + [CloseGateway];
    RunStep(START, actions, MainStep);      actions := actions + [MainStep];
    RunStep(START, actions, MainStep);      actions := actions + [MainStep];
    RunStep(START, actions, Matcher(Check));  actions := actions + [Matcher(Check)];
    RunStep(START, actions, MainStep);      actions := actions + [MainStep];
  }

  lemma LeaveAll(start: seq<Action>, cmd: Command) returns (actions: seq<Action>)
    requires CanRun(START, start) && After(START, start) == Deserted(cmd)
    ensures CanRun(START, actions)
    ensures After(START, actions)
         == Deserted(cmd).(main := Snapshot, engineFinished := true,
                           inventory := Exited(0, true), publisher := Exited(0, true))
  {
    actions := start;
    RunStep(START, actions, MainStep);        actions := actions + [MainStep];
    RunStep(START, actions, Inventory(Miss));   actions := actions + [Inventory(Miss)];
    RunStep(START, actions, Inventory(Check));  actions := actions + [Inventory(Check)];
    RunStep(START, actions, Publisher(Miss));   actions := actions + [Publisher(Miss)];
    RunStep(START, actions, Publisher(Check));  actions := actions + [Publisher(Check)];
    RunStep(START, actions, MainStep);        actions := actions + [MainStep];
    RunStep(START, actions, MainStep);        actions := actions + [MainStep];
  }
}
