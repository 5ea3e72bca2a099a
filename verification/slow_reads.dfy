/** The inventory thread's read of a mid price takes time: other threads run between the call of the
    seqlock load and its return, and it returns some value that was current in between. Every state
    reached that way is also reached with reads that take no time. */
module SlowReads {
  import opened Types
  import opened Settlement
  import opened Pipeline
  import opened PipelineFlow

  /** `seen` is every mid that has been current since the call; empty outside a load. */
  datatype Slow = Slow(base: State, seen: set<Option<Price>>)

  datatype SlowAction = Call | Return(mid: Option<Price>) | Other(a: Action)

  /** The inventory thread is at its read of the mid. */
  predicate AtRead(s: State) {
    InventoryCan(s, Work) && s.inventory.item.ReadMid?
  }

  function Now(s: State): Option<Price>
    requires AtRead(s)
  {
    MidOf(s.router, s.inventory.item.trade.ticker)
  }

  /** `s` once the read has returned `mid`. */
  function WithMid(s: State, mid: Option<Price>): State
    requires AtRead(s)
  {
    var stage := s.inventory.item;
    var next := StageNext(stage, mid);
    if next.Some? then s.(inventory := Resume(next))
    else s.(inventory := Popping, settled := s.settled + [stage.trade], mids := s.mids + [None])
  }

  predicate SlowEnabled(l: Slow, a: SlowAction) {
    match a
    case Call => AtRead(l.base) && l.seen == {}
    case Return(mid) => AtRead(l.base) && mid in l.seen
    case Other(a) => Enabled(l.base, a) && !(AtRead(l.base) && a.Inventory?)
  }

  function SlowDo(l: Slow, a: SlowAction): Slow
    requires SlowEnabled(l, a)
  {
    match a
    case Call => l.(seen := {Now(l.base)})
    case Return(mid) => Slow(WithMid(l.base, mid), {})
    case Other(a) =>
      var next := Do(l.base, a);
      Slow(next, if l.seen != {} && AtRead(next) then l.seen + {Now(next)} else l.seen)
  }

  predicate SlowCanRun(l: Slow, actions: seq<SlowAction>)
    decreases |actions|
  {
    actions == [] || (SlowEnabled(l, actions[0]) && SlowCanRun(SlowDo(l, actions[0]), actions[1..]))
  }

  function SlowAfter(l: Slow, actions: seq<SlowAction>): Slow
    requires SlowCanRun(l, actions)
    decreases |actions|
  {
    if actions == [] then l else SlowAfter(SlowDo(l, actions[0]), actions[1..])
  }

  // ----- a read commutes with the other threads -----

  lemma ReadNow(s: State)
    requires AtRead(s)
    ensures Do(s, Inventory(Work)) == WithMid(s, Now(s))
  {
  }

  /** `s` with what only the inventory thread writes replaced. */
  function Patch(s: State, c: Consumer<Stage>, settled: seq<Trade>, mids: seq<Option<Price>>): State {
    s.(inventory := c, settled := settled, mids := mids)
  }

  lemma MatcherCommutes(s: State, step: Step, c: Consumer<Stage>, settled: seq<Trade>, mids: seq<Option<Price>>)
    requires MatcherCan(s, step)
    ensures MatcherCan(Patch(s, c, settled, mids), step)
    ensures MatcherDo(Patch(s, c, settled, mids), step) == Patch(MatcherDo(s, step), c, settled, mids)
  {
  }

  lemma PatchCommutes(s: State, a: Action, c: Consumer<Stage>, settled: seq<Trade>, mids: seq<Option<Price>>)
    requires Enabled(s, a) && !a.Inventory? && !s.inventory.Exited?
    ensures Enabled(Patch(s, c, settled, mids), a)
    ensures Do(Patch(s, c, settled, mids), a) == Patch(Do(s, a), c, settled, mids)
  {
    if a.Matcher? {
      MatcherCommutes(s, a.step, c, settled, mids);
    }
  }

  lemma OthersLeave(s: State, a: Action)
    requires AtRead(s) && Enabled(s, a) && !a.Inventory?
    ensures AtRead(Do(s, a)) && Do(s, a).inventory == s.inventory
    ensures Do(s, a).settled == s.settled && Do(s, a).mids == s.mids
  {
    PatchCommutes(s, a, s.inventory, s.settled, s.mids);
  }

  lemma WithMidPatches(s: State, mid: Option<Price>)
    requires AtRead(s)
    ensures var after := WithMid(s, mid); after == Patch(s, after.inventory, after.settled, after.mids)
  {
  }

  lemma ReadCommutes(s: State, a: Action, mid: Option<Price>)
    requires AtRead(s) && Enabled(s, a) && !a.Inventory?
    ensures Enabled(WithMid(s, mid), a) && AtRead(Do(s, a))
    ensures Do(WithMid(s, mid), a) == WithMid(Do(s, a), mid)
  {
    var after := WithMid(s, mid);
    WithMidPatches(s, mid);
    OthersLeave(s, a);
    PatchCommutes(s, a, after.inventory, after.settled, after.mids);
    WithMidPatches(Do(s, a), mid);
  }

  // ----- every interleaving -----

  ghost predicate Reached(s: State) {
    exists actions :: CanRun(START, actions) && After(START, actions) == s
  }

  lemma ReachedStep(s: State, a: Action)
    requires Reached(s) && Enabled(s, a)
    ensures Reached(Do(s, a))
  {
    var actions :| CanRun(START, actions) && After(START, actions) == s;
    RunStep(START, actions, a);
  }

  /** Whatever the load in progress may return, it could have returned at once when that was current. */
  ghost predicate SlowInv(l: Slow) {
    && Reached(l.base)
    && (l.seen != {} ==> AtRead(l.base) && forall mid :: mid in l.seen ==> Reached(WithMid(l.base, mid)))
  }

  lemma ReadReached(s: State)
    requires Reached(s) && AtRead(s)
    ensures Reached(WithMid(s, Now(s)))
  {
    ReadNow(s);
    ReachedStep(s, Inventory(Work));
  }

  lemma OtherKeepsSeen(s: State, a: Action, mid: Option<Price>)
    requires AtRead(s) && Enabled(s, a) && !a.Inventory? && Reached(WithMid(s, mid))
    ensures AtRead(Do(s, a)) && Reached(WithMid(Do(s, a), mid))
  {
    ReadCommutes(s, a, mid);
    ReachedStep(WithMid(s, mid), a);
  }

  lemma OtherInv(l: Slow, a: Action)
    requires SlowInv(l) && SlowEnabled(l, Other(a))
    ensures SlowInv(SlowDo(l, Other(a)))
  {
    ReachedStep(l.base, a);
    if l.seen != {} {
      var next := Do(l.base, a);
      OthersLeave(l.base, a);
      ReadReached(next);
      forall mid | mid in l.seen ensures Reached(WithMid(next, mid)) {
        OtherKeepsSeen(l.base, a, mid);
      }
    }
  }

  lemma SlowStepInv(l: Slow, a: SlowAction)
    requires SlowInv(l) && SlowEnabled(l, a)
    ensures SlowInv(SlowDo(l, a))
  {
    match a
    case Call => ReadReached(l.base);
    case Return(_) =>
    case Other(a) => OtherInv(l, a);
  }

  lemma {:induction false} SlowRunInv(l: Slow, actions: seq<SlowAction>)
    requires SlowInv(l) && SlowCanRun(l, actions)
    ensures SlowInv(SlowAfter(l, actions))
    decreases |actions|
  {
    if actions == [] {
    } else {
      SlowStepInv(l, actions[0]);
      SlowRunInv(SlowDo(l, actions[0]), actions[1..]);
    }
  }

  /** Whatever is reached with reads that take time is reached, by some other order of the same
      statements, with reads that take none; so what holds of all runs of the pipeline holds of it. */
  lemma SlowReadsAreAtomic(actions: seq<SlowAction>) returns (quick: seq<Action>)
    requires SlowCanRun(Slow(START, {}), actions)
    ensures CanRun(START, quick) && After(START, quick) == SlowAfter(Slow(START, {}), actions).base
  {
    assert CanRun(START, []) && After(START, []) == START;
    SlowRunInv(Slow(START, {}), actions);
    quick :| CanRun(START, quick) && After(START, quick) == SlowAfter(Slow(START, {}), actions).base;
  }
}
