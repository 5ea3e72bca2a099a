/** The single-writer, many-reader seqlock as an interleaving of atomic steps: the value is
    copied word by word, in any order, so torn copies do occur; none is ever returned. */
module Seqlock {

  type Word = int
  type Value = seq<Word>
  type ReaderId = nat

  /** Where the writer is inside `Store`. `loaded` is its local copy of the counter. */
  datatype Writer = Idle | Loaded(value: Value, loaded: nat) | Writing(value: Value, loaded: nat, done: set<nat>)

  /** Where a reader is inside `Load`; `Entered` is the top of the retry loop. */
  datatype Reader = Out | Entered | Copying(before: nat, copy: map<nat, Word>)

  /** `versions` records every value whose store has completed, the initial one first. */
  datatype State = State(sequence: nat, memory: Value, writer: Writer, readers: seq<Reader>,
                         versions: seq<Value>)

  datatype Action =
    | BeginStore(value: Value) | MarkOdd | WriteWord(i: nat) | MarkEven
    | Enter(r: ReaderId) | ReadBefore(r: ReaderId) | CopyWord(r: ReaderId, i: nat)
    | Retry(r: ReaderId) | Return(r: ReaderId, result: Value)

  predicate Init(s: State) {
    && s.sequence == 0 && s.writer == Idle && s.versions == [s.memory]
    && forall r :: 0 <= r < |s.readers| ==> s.readers[r] == Out
  }

  function Current(s: State): Value
    requires s.versions != []
  {
    s.versions[|s.versions| - 1]
  }

  predicate Settled(s: State) {
    s.sequence % 2 == 0
  }

  predicate At(s: State, r: ReaderId, where: Reader) {
    r < |s.readers| && s.readers[r] == where
  }

  /** All the words of `memory` are among `done`. */
  predicate All(memory: Value, done: set<nat>) {
    forall i :: 0 <= i < |memory| ==> i in done
  }

  function Copied(memory: Value, copy: map<nat, Word>): Value
    requires All(memory, copy.Keys)
  {
    seq(|memory|, i requires 0 <= i < |memory| => copy[i])
  }

  function Put(s: State, r: ReaderId, where: Reader): State
    requires r < |s.readers|
  {
    s.(readers := s.readers[r := where])
  }

  /** One atomic step. */
  predicate Step(s: State, a: Action, s': State) {
    match a
    case BeginStore(v) => s.writer.Idle? && |v| == |s.memory| && s' == s.(writer := Loaded(v, s.sequence))
    case MarkOdd =>
      && s.writer.Loaded?
      && s' == s.(sequence := s.writer.loaded + 1, writer := Writing(s.writer.value, s.writer.loaded, {}))
    case WriteWord(i) =>
      && s.writer.Writing? && i < |s.memory| && i < |s.writer.value|
      && s' == s.(memory := s.memory[i := s.writer.value[i]], writer := s.writer.(done := s.writer.done + {i}))
    case MarkEven =>
      && s.writer.Writing? && All(s.memory, s.writer.done)
      && s' == s.(sequence := s.writer.loaded + 2, writer := Idle, versions := s.versions + [s.writer.value])
    case Enter(r) => At(s, r, Out) && s' == Put(s, r, Entered)
    case ReadBefore(r) => At(s, r, Entered) && s' == Put(s, r, Copying(s.sequence, map[]))
    case CopyWord(r, i) =>
      && r < |s.readers| && s.readers[r].Copying? && i < |s.memory|
      && s' == Put(s, r, s.readers[r].(copy := s.readers[r].copy[i := s.memory[i]]))
    case Retry(r) =>
      && r < |s.readers| && s.readers[r].Copying? && All(s.memory, s.readers[r].copy.Keys)
      && (s.readers[r].before != s.sequence || s.readers[r].before % 2 != 0)
      && s' == Put(s, r, Entered)
    case Return(r, result) =>
      && r < |s.readers| && s.readers[r].Copying? && All(s.memory, s.readers[r].copy.Keys)
      && s.readers[r].before == s.sequence && s.readers[r].before % 2 == 0
      && result == Copied(s.memory, s.readers[r].copy)
      && s' == Put(s, r, Out)
  }

  // ----- what every step keeps -----

  /** Even counter: memory holds the current version. Odd: it is being overwritten, and holds the
      new value where that is done. Either way half the counter counts completed stores. */
  predicate WriterInv(s: State) {
    && s.versions != [] && |Current(s)| == |s.memory|
    && match s.writer
       case Idle => s.sequence == 2 * (|s.versions| - 1) && s.memory == Current(s)
       case Loaded(v, loaded) =>
         s.sequence == loaded == 2 * (|s.versions| - 1) && s.memory == Current(s) && |v| == |s.memory|
       case Writing(v, loaded, done) =>
         && s.sequence == loaded + 1 && loaded == 2 * (|s.versions| - 1)
         && |v| == |s.memory| && forall i :: 0 <= i < |v| && i in done ==> s.memory[i] == v[i]
  }

  predicate PartOf(copy: map<nat, Word>, x: Value) {
    forall i :: i in copy ==> i < |x| && copy[i] == x[i]
  }

  /** A copy whose starting counter still stands is, as far as it goes, the current version. */
  predicate ReaderInv(s: State, reader: Reader)
    requires s.versions != []
  {
    reader.Copying? ==>
      && reader.before <= s.sequence
      && (reader.before == s.sequence && Settled(s) ==> PartOf(reader.copy, Current(s)))
  }

  predicate Inv(s: State) {
    WriterInv(s) && forall r :: 0 <= r < |s.readers| ==> ReaderInv(s, s.readers[r])
  }

  lemma StepKeepsWriter(s: State, a: Action, s': State)
    requires Inv(s) && Step(s, a, s')
    ensures WriterInv(s')
  {
    if a == MarkEven {
      assert s.memory == s.writer.value;
    }
  }

  lemma StepKeepsReaders(s: State, a: Action, s': State, r: ReaderId)
    requires Inv(s) && Step(s, a, s') && WriterInv(s') && r < |s'.readers|
    ensures ReaderInv(s', s'.readers[r])
  {
    assert ReaderInv(s, s.readers[r]);
  }

  lemma StepKeepsInv(s: State, a: Action, s': State)
    requires Inv(s) && Step(s, a, s')
    ensures Inv(s')
  {
    StepKeepsWriter(s, a, s');
    forall r | 0 <= r < |s'.readers| ensures ReaderInv(s', s'.readers[r]) {
      StepKeepsReaders(s, a, s', r);
    }
  }

  // ----- whole runs -----

  datatype Run = Run(states: seq<State>, actions: seq<Action>)

  predicate Valid(run: Run) {
    && |run.states| == |run.actions| + 1
    && Init(run.states[0])
    && forall k :: 0 <= k < |run.actions| ==> Step(run.states[k], run.actions[k], run.states[k + 1])
  }

  lemma {:induction false} RunKeepsInv(run: Run, k: nat)
    requires Valid(run) && k < |run.states|
    ensures Inv(run.states[k])
  {
    if k == 0 {
    } else {
      RunKeepsInv(run, k - 1);
      StepKeepsInv(run.states[k - 1], run.actions[k - 1], run.states[k]);
    }
  }

  lemma {:induction false} VersionsGrow(run: Run, i: nat, j: nat)
    requires Valid(run) && i <= j < |run.states|
    ensures run.states[i].versions <= run.states[j].versions
    ensures |run.states[i].readers| == |run.states[j].readers|
    decreases j - i
  {
    if i < j {
      VersionsGrow(run, i, j - 1);
      assert Step(run.states[j - 1], run.actions[j - 1], run.states[j]);
    }
  }

  /** From its entry at step `i` reader `r` has not left its `Load` before state `j`. */
  predicate InLoad(run: Run, r: ReaderId, i: nat, j: nat)
    requires Valid(run) && j < |run.states|
  {
    && i < j && run.actions[i] == Enter(r)
    && forall k :: i < k <= j ==> r < |run.states[k].readers| && run.states[k].readers[r] != Out
  }

  /** A reader inside `Load` entered it, and read its `before` at some moment since. */
  lemma {:induction false} LoadHistory(run: Run, r: ReaderId, j: nat) returns (i: nat, m: nat)
    requires Valid(run) && j < |run.states|
    requires r < |run.states[j].readers| && run.states[j].readers[r] != Out
    ensures InLoad(run, r, i, j)
    ensures i < m <= j
    ensures run.states[j].readers[r].Copying? ==> run.states[m].sequence == run.states[j].readers[r].before
  {
    if j == 0 {
      assert false;
    } else {
      var a := run.actions[j - 1];
      assert Step(run.states[j - 1], a, run.states[j]);
      if a == Enter(r) {
        i, m := j - 1, j;
      } else {
        i, m := LoadHistory(run, r, j - 1);
        if a == ReadBefore(r) {
          m := j;
        }
      }
    }
  }

  /** The version a returning load hands out. */
  function VersionOf(run: Run, j: nat): nat
    requires Valid(run) && j < |run.actions| && run.actions[j].Return?
  {
    assert Step(run.states[j], run.actions[j], run.states[j + 1]);
    run.states[j].readers[run.actions[j].r].before / 2
  }

  predicate CurrentVersion(s: State, v: nat, x: Value) {
    Settled(s) && v + 1 == |s.versions| && x == s.versions[v]
  }

  /** A load returns, whole, the value that was current at some moment between its call and its
      return: no torn value, no value already replaced before the call, in any interleaving. */
  lemma LoadReturnsCurrent(run: Run, j: nat, r: ReaderId, x: Value) returns (i: nat, m: nat)
    requires Valid(run) && j < |run.actions| && run.actions[j] == Return(r, x)
    ensures InLoad(run, r, i, j) && i < m <= j
    ensures CurrentVersion(run.states[m], VersionOf(run, j), x)
  {
    assert Step(run.states[j], run.actions[j], run.states[j + 1]);
    i, m := LoadHistory(run, r, j);
    RunKeepsInv(run, j);
    RunKeepsInv(run, m);
    VersionsGrow(run, m, j);
    assert ReaderInv(run.states[j], run.states[j].readers[r]);
    assert x == Current(run.states[j]);
  }

  lemma LoadEntry(run: Run, j: nat, r: ReaderId, i: nat, i': nat)
    requires Valid(run) && j < |run.states| && InLoad(run, r, i, j) && InLoad(run, r, i', j)
    ensures i == i'
  {
    assert Step(run.states[i], run.actions[i], run.states[i + 1]);
    assert Step(run.states[i'], run.actions[i'], run.states[i' + 1]);
  }

  /** Loads never go back: if one returns before another begins, by the same reader or not,
      the later one hands out the same version or a newer one. */
  lemma LoadsNeverGoBack(run: Run, j1: nat, j2: nat, i2: nat)
    requires Valid(run) && j1 < i2 < j2 < |run.actions|
    requires run.actions[j1].Return? && run.actions[j2].Return?
    requires InLoad(run, run.actions[j2].r, i2, j2)
    ensures VersionOf(run, j1) <= VersionOf(run, j2)
  {
    var a1, m1 := LoadReturnsCurrent(run, j1, run.actions[j1].r, run.actions[j1].result);
    var a2, m2 := LoadReturnsCurrent(run, j2, run.actions[j2].r, run.actions[j2].result);
    LoadEntry(run, j2, run.actions[j2].r, i2, a2);
    VersionsGrow(run, m1, m2);
  }

  /** In particular one reader's successive results never go back. */
  lemma ReaderNeverGoesBack(run: Run, j1: nat, j2: nat)
    requires Valid(run) && j1 < j2 < |run.actions|
    requires run.actions[j1].Return? && run.actions[j2].Return? && run.actions[j1].r == run.actions[j2].r
    ensures VersionOf(run, j1) <= VersionOf(run, j2)
  {
    var r := run.actions[j2].r;
    assert Step(run.states[j1], run.actions[j1], run.states[j1 + 1]);
    var i2, m2 := LoadReturnsCurrent(run, j2, r, run.actions[j2].result);
    assert run.states[j1 + 1].readers[r] == Out;
    assert Step(run.states[i2], run.actions[i2], run.states[i2 + 1]);
    LoadsNeverGoBack(run, j1, j2, i2);
  }

  /** Reads are not stale: a load that begins after the k-th store completed returns version k
      or later. */
  lemma LoadSeesCompletedStores(run: Run, j: nat, i: nat)
    requires Valid(run) && j < |run.actions| && run.actions[j].Return?
    requires InLoad(run, run.actions[j].r, i, j)
    ensures |run.states[i].versions| - 1 <= VersionOf(run, j) <= |run.states[j].versions| - 1
  {
    var i', m := LoadReturnsCurrent(run, j, run.actions[j].r, run.actions[j].result);
    LoadEntry(run, j, run.actions[j].r, i, i');
    VersionsGrow(run, i, m);
    VersionsGrow(run, m, j);
  }

  predicate EndsIn(run: Run, s: State) {
    Valid(run) && run.states[|run.actions|] == s
  }

  lemma Extend(run: Run, s: State, a: Action, s': State) returns (longer: Run)
    requires EndsIn(run, s) && Step(s, a, s')
    ensures EndsIn(longer, s')
  {
    longer := Run(run.states + [s'], run.actions + [a]);
    forall k | 0 <= k < |longer.actions| ensures Step(longer.states[k], longer.actions[k], longer.states[k + 1]) {
      if k < |run.actions| {
        assert Step(run.states[k], run.actions[k], run.states[k + 1]);
      }
    }
  }

  /** Torn copies do arise inside a load; the retry is what keeps them in. */
  lemma TornCopyReachable() returns (run: Run, s: State)
    ensures EndsIn(run, s) && s.versions == [[0, 0], [1, 1]] == [[0, 0], s.memory]
    ensures At(s, 0, Copying(0, map[0 := 0, 1 := 1]))
    ensures All(s.memory, s.readers[0].copy.Keys) && Copied(s.memory, s.readers[0].copy) == [0, 1]
  {
    s := State(0, [0, 0], Idle, [Copying(0, map[0 := 0])], [[0, 0]]);
    run := HalfCopied(s);
    run, s := StoreOnes(run, s);
    var torn := s.(readers := [Copying(0, map[0 := 0, 1 := 1])]);
    run := Extend(run, s, CopyWord(0, 1), torn);
    s := torn;
  }

  lemma HalfCopied(s: State) returns (run: Run)
    requires s == State(0, [0, 0], Idle, [Copying(0, map[0 := 0])], [[0, 0]])
    ensures EndsIn(run, s)
  {
    var s0 := s.(readers := [Out]);
    var s1 := s.(readers := [Entered]);
    var s2 := s.(readers := [Copying(0, map[])]);
    run := Run([s0], []);
    run := Extend(run, s0, Enter(0), s1);
    run := Extend(run, s1, ReadBefore(0), s2);
    run := Extend(run, s2, CopyWord(0, 0), s);
  }

  lemma StoreOnes(run: Run, s: State) returns (longer: Run, s': State)
    requires EndsIn(run, s) && s == State(0, [0, 0], Idle, [Copying(0, map[0 := 0])], [[0, 0]])
    ensures EndsIn(longer, s') && s' == State(2, [1, 1], Idle, s.readers, [[0, 0], [1, 1]])
  {
    var s1 := s.(writer := Loaded([1, 1], 0));
    var s2 := s1.(sequence := 1, writer := Writing([1, 1], 0, {}));
    var s3 := s2.(memory := [0, 1], writer := Writing([1, 1], 0, {} + {1}));
    var s4 := s3.(memory := [1, 1], writer := Writing([1, 1], 0, {} + {1} + {0}));
    s' := s4.(sequence := 2, writer := Idle, versions := [[0, 0], [1, 1]]);
    longer := Extend(run, s, BeginStore([1, 1]), s1);
    longer := Extend(longer, s1, MarkOdd, s2);
    assert s2.memory[1 := 1] == [0, 1] && s3.memory[0 := 1] == [1, 1];
    longer := Extend(longer, s2, WriteWord(1), s3);
    longer := Extend(longer, s3, WriteWord(0), s4);
    longer := Extend(longer, s4, MarkEven, s');
  }
}
