/** Induction over the steps of a run, once and for all. */
module Throughout {
  /** If a state is good to begin with, and stays good over step `k` exactly when `fine(k)`, then
      it was good throughout if and only if every step was fine. */
  lemma {:induction false} GoodThroughout(good: nat -> bool, fine: nat -> bool, n: nat)
    requires good(0)
    requires forall k: nat :: k < n && good(k) ==> (good(k + 1) <==> fine(k))
    ensures (forall k: nat :: k <= n ==> good(k)) <==> (forall k: nat :: k < n ==> fine(k))
  {
    if n == 0 {
    } else {
      GoodThroughout(good, fine, n - 1);
      if forall k: nat :: k <= n - 1 ==> good(k) {
        assert good(n - 1 + 1) <==> fine(n - 1);
      }
    }
  }

  /** `f` holds of the run so far at every moment of it. */
  ghost predicate Always<T(!new)>(f: seq<T> -> bool, run: seq<T>) {
    f(run) && (run == [] || Always(f, run[..|run| - 1]))
  }

  lemma {:induction false} AlwaysMeans<T(!new)>(f: seq<T> -> bool, run: seq<T>)
    ensures Always(f, run) <==> forall k :: 0 <= k <= |run| ==> f(run[..k])
  {
    var n := |run|;
    assert run[..n] == run;
    if n == 0 {
    } else {
      var init := run[..n - 1];
      AlwaysMeans(f, init);
      forall k | 0 <= k < n ensures f(init[..k]) == f(run[..k]) {
        assert init[..k] == run[..k];
      }
      if forall k :: 0 <= k <= n ==> f(run[..k]) {
        assert forall k :: 0 <= k <= n - 1 ==> f(run[..k]);
        assert f(run[..n]);
      }
    }
  }

  function Fold<S, T>(f: (S, T) -> S, s: S, steps: seq<T>): S {
    if steps == [] then s else f(Fold(f, s, steps[..|steps| - 1]), steps[|steps| - 1])
  }

  lemma FoldOneMore<S, T>(f: (S, T) -> S, s: S, steps: seq<T>, x: T)
    ensures Fold(f, s, steps + [x]) == f(Fold(f, s, steps), x)
  {
    assert (steps + [x])[..|steps|] == steps;
  }

  lemma {:induction false} FoldFirst<S, T>(f: (S, T) -> S, s: S, x: T, rest: seq<T>)
    ensures Fold(f, s, [x] + rest) == Fold(f, f(s, x), rest)
    decreases |rest|
  {
    if rest == [] {
      FoldOneMore(f, s, [], x);
      assert [] + [x] == [x] + rest;
    } else {
      var init, last := rest[..|rest| - 1], rest[|rest| - 1];
      FoldFirst(f, s, x, init);
      FoldOneMore(f, s, [x] + init, last);
      assert ([x] + init) + [last] == [x] + rest;
    }
  }
}
