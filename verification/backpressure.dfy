/** The queues between the threads are bounded, and the bound is reached: a producer at a full queue
    waits. */
module Backpressure {
  import opened Types
  import opened Pipeline
  import opened PipelineFlow

  predicate Bounded(s: State) {
    |s.inbound.queue| <= 4096 && |s.trades.queue| <= 4096 && |s.market.queue| <= 4096
  }

  lemma StepBounded(s: State, a: Action)
    requires Bounded(s) && Enabled(s, a)
    ensures Bounded(Do(s, a))
  {
  }

  lemma {:induction false} BoundedFrom(s: State, actions: seq<Action>)
    requires Bounded(s) && CanRun(s, actions)
    ensures Bounded(After(s, actions))
    decreases |actions|
  {
    if actions == [] {
    } else {
      StepBounded(s, actions[0]);
      BoundedFrom(Do(s, actions[0]), actions[1..]);
    }
  }

  /** No queue ever holds more than 4096 messages. */
  lemma QueuesBounded(actions: seq<Action>)
    requires CanRun(START, actions)
    ensures Bounded(After(START, actions))
  {
    BoundedFrom(START, actions);
  }

  /** A cancel, or an add of one of the hundred participants. */
  predicate FromParticipant(cmd: Command) {
    cmd.Add? ==> 0 <= cmd.order.userId < 100
  }

  /** Serving, with `cmds` dispatched and none of them taken. */
  function Backlog(cmds: seq<Command>): State {
    START.(inbound := Channel(cmds, cmds))
  }

  lemma {:induction false} BacklogReached(cmds: seq<Command>) returns (actions: seq<Action>)
    requires |cmds| <= 4096 && forall i :: 0 <= i < |cmds| ==> FromParticipant(cmds[i])
    ensures CanRun(START, actions) && After(START, actions) == Backlog(cmds)
  {
    if cmds == [] {
      actions := [];
    } else {
      var init, cmd := cmds[..|cmds| - 1], cmds[|cmds| - 1];
      assert init + [cmd] == cmds;
      actions := BacklogReached(init);
      RunStep(START, actions, Receive(cmd));
      actions := actions + [Receive(cmd)];
      RunStep(START, actions, Dispatch);
      actions := actions + [Dispatch];
    }
  }

  /** Any 4096 such commands can be waiting at once; the gateway then holds the next one back, and can
      dispatch it as soon as the matching thread has taken one. */
  lemma GatewayWaits(cmds: seq<Command>, next: Command) returns (actions: seq<Action>)
    requires |cmds| == 4096 && forall i :: 0 <= i < |cmds| ==> FromParticipant(cmds[i])
    requires FromParticipant(next)
    ensures CanRun(START, actions)
    ensures var s := After(START, actions);
            && s.inbound.queue == cmds && s.gateway == Dispatching(next) && !Enabled(s, Dispatch)
            && Enabled(s, Matcher(Take)) && Enabled(Do(s, Matcher(Take)), Dispatch)
  {
    actions := BacklogReached(cmds);
    RunStep(START, actions, Receive(next));
    actions := actions + [Receive(next)];
  }
}
