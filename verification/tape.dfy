/** The tape, that is the trades among the published events, against the trades handed on for
    settlement: a trade is announced before it is handed on, and by the next announcement it is. */
module Tape {
  import opened Types
  import opened RouterModel
  import opened ReplicaModel
  import opened MatcherTask
  import opened Pipeline
  import opened PipelineFlow
  import opened Interleavings

  function OnTape(events: seq<Event>): seq<Trade> {
    if events == [] then []
    else
      var n := |events| - 1;
      OnTape(events[..n]) + (if events[n].TradeEvent? then [events[n].trade] else [])
  }

  lemma {:induction false} OnTapeConcat(a: seq<Event>, b: seq<Event>)
    ensures OnTape(a + b) == OnTape(a) + OnTape(b)
  {
    if b == [] {
      assert a + b == a;
    } else {
      var n := |b| - 1;
      OnTapeConcat(a, b[..n]);
      assert (a + b)[..|a + b| - 1] == a + b[..n];
    }
  }

  lemma {:induction false} OnTapeTrades(ts: seq<Trade>)
    ensures OnTape(AsEvents(ts)) == ts
  {
    if ts == [] {
    } else {
      var n := |ts| - 1;
      OnTapeTrades(ts[..n]);
      assert AsEvents(ts)[..n] == AsEvents(ts[..n]);
    }
  }

  lemma OnTapePublished(cmd: Command, ts: seq<Trade>)
    requires cmd.Cancel? ==> ts == []
    ensures OnTape(Published(cmd, ts)) == ts
  {
    match cmd
    case Add(o) =>
      OnTapeConcat([AddEvent(o)], AsEvents(ts));
      OnTapeTrades(ts);
    case Cancel(_) =>
  }

  /** The tape of any commands is the trades their engines print, in that order. */
  lemma {:induction false} TapeIsTheTrades(cmds: seq<Command>)
    ensures OnTape(Feed(cmds)) == RunRouter(cmds).trades
  {
    if cmds == [] {
    } else {
      var n := |cmds| - 1;
      var ts := Route(RunRouter(cmds[..n]).engines, cmds[n]).trades;
      TapeIsTheTrades(cmds[..n]);
      OnTapePublished(cmds[n], ts);
      OnTapeConcat(Feed(cmds[..n]), Published(cmds[n], ts));
    }
  }

  /** The commands that events announce, in order. */
  function AnnouncedIn(events: seq<Event>): seq<Command> {
    if events == [] then []
    else
      var n := |events| - 1;
      AnnouncedIn(events[..n])
      + match events[n]
        case AddEvent(o) => [Add(o)]
        case CancelEvent(c) => [Cancel(c)]
        case TradeEvent(_) => []
  }

  lemma {:induction false} AnnouncedWithTrades(events: seq<Event>, ts: seq<Trade>)
    ensures AnnouncedIn(events + AsEvents(ts)) == AnnouncedIn(events)
  {
    if ts == [] {
      assert events + AsEvents(ts) == events;
    } else {
      var n := |ts| - 1;
      var longer := events + AsEvents(ts);
      AnnouncedWithTrades(events, ts[..n]);
      assert longer[..|longer| - 1] == events + AsEvents(ts[..n]);
    }
  }

  lemma AnnouncedOneMore(events: seq<Event>, e: Event)
    requires !e.TradeEvent?
    ensures AnnouncedIn(events + [e])
         == AnnouncedIn(events) + [match e case AddEvent(o) => Add(o) case CancelEvent(c) => Cancel(c)]
  {
    assert (events + [e])[..|events|] == events;
  }

  lemma AnnouncedPublished(events: seq<Event>, cmd: Command, ts: seq<Trade>)
    ensures AnnouncedIn(events + Published(cmd, ts)) == AnnouncedIn(events) + [cmd]
  {
    match cmd
    case Add(o) =>
      AnnouncedOneMore(events, AddEvent(o));
      AnnouncedWithTrades(events + [AddEvent(o)], ts);
      assert events + Published(cmd, ts) == events + [AddEvent(o)] + AsEvents(ts);
    case Cancel(c) =>
      AnnouncedOneMore(events, CancelEvent(c));
  }

  lemma AnnouncedLast(cmds: seq<Command>)
    requires cmds != []
    ensures AnnouncedIn(Feed(cmds)) == AnnouncedIn(Feed(cmds[..|cmds| - 1])) + [cmds[|cmds| - 1]]
  {
    var n := |cmds| - 1;
    LastOutputs(cmds);
    AnnouncedPublished(Feed(cmds[..n]), cmds[n], Route(RunRouter(cmds[..n]).engines, cmds[n]).trades);
  }

  /** Every command is announced as it came, accepted by an engine or not, and in that order. */
  lemma {:induction false} EveryCommandAnnounced(cmds: seq<Command>)
    ensures AnnouncedIn(Feed(cmds)) == cmds
  {
    if cmds == [] {
    } else {
      EveryCommandAnnounced(cmds[..|cmds| - 1]);
      AnnouncedLast(cmds);
    }
  }

  /** What a command has announced is what it has handed on, and the trade in hand. */
  lemma SentTape(task: Task)
    ensures OnTape(EventsIn(Sent(task))) == TradesIn(Sent(task)) + (if task.Handing? then [task.trade] else [])
  {
    if FillsUnderWay(task) {
      SentCarries(task);
      OnTapePublished(Add(task.progress.order), Announced(task));
    } else if task.Marking? {
      OutputsCarry(Add(task.progress.order), task.progress.done);
      OnTapePublished(Add(task.progress.order), task.progress.done);
    }
  }

  /** The trade that is announced and not yet handed on. */
  function InBetween(s: State): seq<Trade> {
    if s.matcher.Working? && s.matcher.item.Handing? then [s.matcher.item.trade] else []
  }

  lemma TapeSoFar(init: seq<Command>, task: Task)
    ensures OnTape(Feed(init) + EventsIn(Sent(task)))
         == (RunRouter(init).trades + TradesIn(Sent(task))) + (if task.Handing? then [task.trade] else [])
  {
    TapeIsTheTrades(init);
    SentTape(task);
    OnTapeConcat(Feed(init), EventsIn(Sent(task)));
  }

  lemma TapeIn(s: State)
    requires FlowInv(s)
    ensures OnTape(s.market.pushed) == s.trades.pushed + InBetween(s)
  {
    if s.matcher.Working? {
      PushedSoFar(s, s.matcher.item);
      TapeSoFar(s.consumed[..|s.consumed| - 1], s.matcher.item);
    } else {
      AllPushed(s);
      TapeIsTheTrades(s.consumed);
    }
  }

  lemma AllPushed(s: State)
    requires FlowInv(s) && !s.matcher.Working?
    ensures s.market.pushed == Feed(s.consumed) && s.trades.pushed == RunRouter(s.consumed).trades
  {
    assert s.market.pushed + [] == s.market.pushed && s.trades.pushed + [] == s.trades.pushed;
  }

  /** At every moment the trades handed on for settlement are exactly those already put on the tape,
      except for one that is on the tape and about to be handed on; so nothing is ever settled that
      has not been announced. */
  lemma TapeFirst(actions: seq<Action>)
    requires CanRun(START, actions)
    ensures var s := After(START, actions);
            && OnTape(s.market.pushed) == s.trades.pushed + InBetween(s)
            && s.settled <= OnTape(s.market.pushed)
  {
    Reachable(actions);
    var s := After(START, actions);
    TapeIn(s);
    assert s.settled <= s.trades.pushed;
  }
}
