/**
 * Leveled messages as the diagnostics emit them. The callers of the log package
 * log at Error, Warn, Info, Notice and Debug; an Emission is one such call,
 * with its level and its rendered text.
 */
module Report {
  datatype Severity = Error | Warn | Info | Notice | Debug

  datatype Emission = Emission(level: Severity, text: string)

  /** How many of the emissions were made at `level`. */
  function CountAt(out: seq<Emission>, level: Severity): (n: nat)
    ensures n <= |out|
    ensures n == 0 <==> forall k :: 0 <= k < |out| ==> out[k].level != level
  {
    if |out| == 0 then 0
    else CountAt(out[..|out| - 1], level) + (if out[|out| - 1].level == level then 1 else 0)
  }

  lemma {:induction false} CountAtAppend(a: seq<Emission>, b: seq<Emission>, level: Severity)
    ensures CountAt(a + b, level) == CountAt(a, level) + CountAt(b, level)
    decreases |b|
  {
    if |b| == 0 {
      assert a + b == a;
    } else {
      assert (a + b)[..|a + b| - 1] == a + b[..|b| - 1];
      CountAtAppend(a, b[..|b| - 1], level);
    }
  }

  lemma CountAtOne(e: Emission, level: Severity)
    ensures CountAt([e], level) == if e.level == level then 1 else 0
  {
    assert [e][..0] == [];
  }

  /** The emissions of a sequence of steps, one step after the other. */
  function Concat<T>(f: T -> seq<Emission>, xs: seq<T>): seq<Emission> {
    if |xs| == 0 then [] else Concat(f, xs[..|xs| - 1]) + f(xs[|xs| - 1])
  }

  lemma {:induction false} ConcatAppend<T>(f: T -> seq<Emission>, a: seq<T>, b: seq<T>)
    ensures Concat(f, a + b) == Concat(f, a) + Concat(f, b)
    decreases |b|
  {
    if |b| == 0 {
      assert a + b == a;
    } else {
      assert (a + b)[..|a + b| - 1] == a + b[..|b| - 1];
      ConcatAppend(f, a, b[..|b| - 1]);
    }
  }

  lemma ConcatStep<T>(f: T -> seq<Emission>, xs: seq<T>, i: nat)
    requires i < |xs|
    ensures Concat(f, xs[..i + 1]) == Concat(f, xs[..i]) + f(xs[i])
  {
    assert xs[..i + 1][..i] == xs[..i];
  }

  /** The elements of xs that satisfy p, in their order. */
  function Filter<T>(p: T -> bool, xs: seq<T>): (r: seq<T>)
    ensures |r| <= |xs|
    ensures forall k :: 0 <= k < |r| ==> p(r[k])
  {
    if |xs| == 0 then []
    else Filter(p, xs[..|xs| - 1]) + (if p(xs[|xs| - 1]) then [xs[|xs| - 1]] else [])
  }

  /** `idx` lists, in increasing order, the positions of `b` that `a` is made of: `a` is a subsequence of `b`. */
  ghost predicate Picks<T>(a: seq<T>, b: seq<T>, idx: seq<nat>) {
    && |idx| == |a|
    && (forall i :: 0 <= i < |idx| ==> idx[i] < |b| && b[idx[i]] == a[i])
    && (forall i, j :: 0 <= i < j < |idx| ==> idx[i] < idx[j])
  }

  /** Filter keeps exactly the positions whose element satisfies p, in their order. */
  lemma {:induction false} FilterPicks<T>(p: T -> bool, xs: seq<T>) returns (idx: seq<nat>)
    ensures Picks(Filter(p, xs), xs, idx)
    ensures forall k :: 0 <= k < |xs| ==> (k in idx <==> p(xs[k]))
    decreases |xs|
  {
    if |xs| == 0 {
      return [];
    }
    var n := |xs| - 1;
    var init, x := xs[..n], xs[n];
    var idx0 := FilterPicks(p, init);
    assert xs == init + [x];
    if p(x) {
      idx := idx0 + [n];
      PicksBoth(Filter(p, init), init, idx0, x);
    } else {
      idx := idx0;
      PicksMore(Filter(p, init), init, idx0, x);
    }
    forall k | 0 <= k < |xs|
      ensures k in idx <==> p(xs[k])
    {
      if k < n {
        assert xs[k] == init[k];
      } else {
        assert n !in idx0;
      }
    }
  }

  lemma PicksBoth<T>(a: seq<T>, b: seq<T>, idx: seq<nat>, x: T)
    requires Picks(a, b, idx)
    ensures Picks(a + [x], b + [x], idx + [|b|])
  {
  }

  lemma PicksMore<T>(a: seq<T>, b: seq<T>, idx: seq<nat>, x: T)
    requires Picks(a, b, idx)
    ensures Picks(a, b + [x], idx)
  {
  }

  lemma ConcatPair<T>(f: T -> seq<Emission>, x: T, y: T)
    ensures Concat(f, [x, y]) == f(x) + f(y)
  {
    assert [x, y][..1] == [x];
    assert [x][..0] == [];
    assert Concat(f, [x]) == [] + f(x) == f(x);
  }

  lemma PrefixOfAppend(a: seq<Emission>, b: seq<Emission>, n: nat)
    requires n <= |b|
    ensures (a + b)[..|a| + n] == a + b[..n]
  {
  }
}
