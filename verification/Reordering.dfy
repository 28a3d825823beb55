/**
 Sequences of partial steps that commute up to an equivalence: if one order of the steps
 succeeds, every order does, with an equivalent result.
 */
module Reordering {
  import opened Containers

  type Action<!S, !M> = (S, M) -> Option<S>

  ghost function RunAll<S, M>(f: Action<S, M>, s: S, ms: seq<M>): Option<S>
    decreases |ms|
  {
    if ms == [] then Some(s)
    else
      var next := f(s, ms[0]);
      if next.Some? then RunAll(f, next.value, ms[1..]) else None
  }

  ghost predicate TransitiveAt<S>(same: (S, S) -> bool, s: S, t: S, u: S) {
    same(s, t) && same(t, u) ==> same(s, u)
  }

  ghost predicate Equivalence<S(!new)>(same: (S, S) -> bool) {
    && (forall s :: same(s, s))
    && (forall s, t, u :: TransitiveAt(same, s, t, u))
  }

  ghost predicate RespectsAt<S, M>(f: Action<S, M>, same: (S, S) -> bool, s: S, t: S, m: M) {
    same(s, t) && f(s, m).Some? ==> f(t, m).Some? && same(f(s, m).value, f(t, m).value)
  }

  /** Equivalent states allow the same steps and stay equivalent. */
  ghost predicate Respects<S(!new), M(!new)>(f: Action<S, M>, same: (S, S) -> bool) {
    forall s, t, m :: RespectsAt(f, same, s, t, m)
  }

  ghost predicate DiamondAt<S, M>(f: Action<S, M>, same: (S, S) -> bool, s: S, a: M, b: M) {
    f(s, a).Some? && f(f(s, a).value, b).Some? ==>
      && f(s, b).Some? && f(f(s, b).value, a).Some?
      && same(f(f(s, a).value, b).value, f(f(s, b).value, a).value)
  }

  /** Two steps that succeed in one order succeed in the other. */
  ghost predicate Diamond<S(!new), M(!new)>(f: Action<S, M>, same: (S, S) -> bool) {
    forall s, a, b :: DiamondAt(f, same, s, a, b)
  }

  lemma RunFirst<S, M>(f: Action<S, M>, s: S, m: M, rest: seq<M>)
    ensures RunAll(f, s, [m] + rest) == if f(s, m).Some? then RunAll(f, f(s, m).value, rest) else None
  {
    assert ([m] + rest)[1..] == rest;
  }

  lemma {:induction false} RunRespects<S(!new), M(!new)>(f: Action<S, M>, same: (S, S) -> bool, s: S, t: S, ms: seq<M>)
    requires Respects(f, same) && same(s, t) && RunAll(f, s, ms).Some?
    ensures RunAll(f, t, ms).Some? && same(RunAll(f, s, ms).value, RunAll(f, t, ms).value)
    decreases |ms|
  {
    if ms != [] {
      assert RespectsAt(f, same, s, t, ms[0]);
      RunRespects(f, same, f(s, ms[0]).value, f(t, ms[0]).value, ms[1..]);
    }
  }

  /** A step taken before others can as well be taken after them. */
  lemma {:induction false} TakeLater<S(!new), M(!new)>(f: Action<S, M>, same: (S, S) -> bool, s: S, m: M,
                                                       before: seq<M>, after: seq<M>)
    requires Equivalence(same) && Respects(f, same) && Diamond(f, same)
    requires RunAll(f, s, [m] + (before + after)).Some?
    ensures RunAll(f, s, before + [m] + after).Some?
    ensures same(RunAll(f, s, [m] + (before + after)).value, RunAll(f, s, before + [m] + after).value)
    decreases |before|
  {
    RunFirst(f, s, m, before + after);
    if before == [] {
      assert [m] + (before + after) == before + [m] + after;
    } else {
      var a, tail := before[0], before[1..];
      var sm := f(s, m).value;
      assert before + after == [a] + (tail + after);
      RunFirst(f, sm, a, tail + after);
      assert DiamondAt(f, same, s, m, a);
      var sa := f(s, a).value;
      RunRespects(f, same, f(sm, a).value, f(sa, m).value, tail + after);
      RunFirst(f, sa, m, tail + after);
      TakeLater(f, same, sa, m, tail, after);
      assert before + [m] + after == [a] + (tail + [m] + after);
      RunFirst(f, s, a, tail + [m] + after);
      assert TransitiveAt(same, RunAll(f, f(sm, a).value, tail + after).value,
                          RunAll(f, f(sa, m).value, tail + after).value,
                          RunAll(f, sa, tail + [m] + after).value);
    }
  }

  lemma SplitAt<M>(m: M, rest: seq<M>, reordered: seq<M>) returns (before: seq<M>, after: seq<M>)
    requires multiset([m] + rest) == multiset(reordered)
    ensures reordered == before + [m] + after
    ensures multiset(rest) == multiset(before + after)
  {
    assert m in multiset(reordered) by { assert ([m] + rest)[0] == m; }
    var i :| 0 <= i < |reordered| && reordered[i] == m;
    before, after := reordered[..i], reordered[i + 1..];
    assert reordered == before + [m] + after;
    assert multiset(reordered) == multiset(before) + multiset([m]) + multiset(after);
    assert multiset(before + after) == multiset(before) + multiset(after);
    assert multiset(rest) == multiset([m] + rest) - multiset([m]);
  }

  lemma {:induction false} AnyOrder<S(!new), M(!new)>(f: Action<S, M>, same: (S, S) -> bool, s: S,
                                                      ms: seq<M>, reordered: seq<M>)
    requires Equivalence(same) && Respects(f, same) && Diamond(f, same)
    requires multiset(ms) == multiset(reordered) && RunAll(f, s, ms).Some?
    ensures RunAll(f, s, reordered).Some?
    ensures same(RunAll(f, s, ms).value, RunAll(f, s, reordered).value)
    decreases |ms|
  {
    if ms == [] {
      assert |multiset(reordered)| == 0;
    } else {
      var m, rest := ms[0], ms[1..];
      assert ms == [m] + rest;
      var before, after := SplitAt(m, rest, reordered);
      RunFirst(f, s, m, rest);
      RunFirst(f, s, m, before + after);
      AnyOrder(f, same, f(s, m).value, rest, before + after);
      TakeLater(f, same, s, m, before, after);
      assert TransitiveAt(same, RunAll(f, f(s, m).value, rest).value,
                          RunAll(f, f(s, m).value, before + after).value,
                          RunAll(f, s, reordered).value);
    }
  }
}
