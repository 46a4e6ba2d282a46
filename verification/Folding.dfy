/** Running a state machine over a sequence of inputs and collecting its outputs. */
module Folding {

  function Fold<S, A, E>(step: (S, A) -> (S, seq<E>), xs: seq<A>, s: S): (S, seq<E>) {
    if xs == [] then (s, []) else
    var (s1, first) := step(s, xs[0]);
    var (s2, rest) := Fold(step, xs[1..], s1);
    (s2, first + rest)
  }

  lemma {:induction false} FoldConcat<S, A, E>(step: (S, A) -> (S, seq<E>), a: seq<A>, b: seq<A>, s: S)
    ensures var whole, first := Fold(step, a + b, s), Fold(step, a, s);
            var rest := Fold(step, b, first.0);
            whole.0 == rest.0 && whole.1 == first.1 + rest.1
  {
    if a == [] {
      assert a + b == b;
    } else {
      assert (a + b)[1..] == a[1..] + b;
      var (s1, e) := step(s, a[0]);
      FoldConcat(step, a[1..], b, s1);
      var tail := Fold(step, a[1..], s1);
      assert (e + tail.1) + Fold(step, b, tail.0).1 == e + (tail.1 + Fold(step, b, tail.0).1);
    }
  }

  lemma FoldOne<S, A, E>(step: (S, A) -> (S, seq<E>), x: A, s: S)
    ensures Fold(step, [x], s).0 == step(s, x).0
    ensures Fold(step, [x], s).1 == step(s, x).1
  {
    assert [x][1..] == [];
    assert step(s, x).1 + [] == step(s, x).1;
  }

  /** The same without outputs. */
  function Accumulate<S, A>(step: (S, A) -> S, xs: seq<A>, s: S): S {
    if xs == [] then s else Accumulate(step, xs[1..], step(s, xs[0]))
  }

  lemma {:induction false} AccumulateConcat<S, A>(step: (S, A) -> S, a: seq<A>, b: seq<A>, s: S)
    ensures Accumulate(step, a + b, s) == Accumulate(step, b, Accumulate(step, a, s))
  {
    if a == [] {
      assert a + b == b;
    } else {
      assert (a + b)[1..] == a[1..] + b;
      AccumulateConcat(step, a[1..], b, step(s, a[0]));
    }
  }

  lemma AccumulateOne<S, A>(step: (S, A) -> S, x: A, s: S)
    ensures Accumulate(step, [x], s) == step(s, x)
  {
    assert [x][1..] == [];
  }

  ghost predicate Commutes<S(!new), A(!new)>(step: (S, A) -> S) {
    forall s, x, y {:trigger step(step(s, x), y)} :: step(step(s, x), y) == step(step(s, y), x)
  }

  lemma SwapSteps<S(!new), A(!new)>(step: (S, A) -> S, s: S, x: A, y: A)
    requires Commutes(step)
    ensures step(step(s, x), y) == step(step(s, y), x)
  {
  }

  lemma {:induction false} AccumulateMove<S(!new), A(!new)>(step: (S, A) -> S, xs: seq<A>, x: A, s: S)
    requires Commutes(step)
    ensures Accumulate(step, xs, step(s, x)) == step(Accumulate(step, xs, s), x)
  {
    if xs != [] {
      AccumulateMove(step, xs[1..], x, step(s, xs[0]));
      assert step(step(s, x), xs[0]) == step(step(s, xs[0]), x);
    }
  }

  /** When single steps commute, only the multiset of inputs matters. */
  lemma {:induction false} AccumulatePermuted<S(!new), A(!new)>(step: (S, A) -> S, a: seq<A>, b: seq<A>, s: S)
    requires Commutes(step) && multiset(a) == multiset(b)
    ensures Accumulate(step, a, s) == Accumulate(step, b, s)
    decreases |a|
  {
    if a == [] {
      assert |multiset(b)| == 0;
    } else {
      var x, rest := a[0], a[1..];
      assert x in multiset(b);
      var j :| 0 <= j < |b| && b[j] == x;
      var b1, b2 := b[..j], b[j + 1..];
      BagsWithout(x, rest, a, b1, b2, b);
      AccumulatePermuted(step, rest, b1 + b2, step(s, x));
      AccumulateConcat(step, b1, b2, step(s, x));
      AccumulateMove(step, b1, x, s);
      AccumulateConcat(step, b1 + [x], b2, s);
      AccumulateConcat(step, b1, [x], s);
      AccumulateOne(step, x, Accumulate(step, b1, s));
    }
  }

  lemma BagsWithout<T>(x: T, rest: seq<T>, a: seq<T>, b1: seq<T>, b2: seq<T>, b: seq<T>)
    requires |a| > 0 && a[0] == x && rest == a[1..]
    requires |b| == |b1| + 1 + |b2| && b1 == b[..|b1|] && b[|b1|] == x && b2 == b[|b1| + 1..]
    requires multiset(a) == multiset(b)
    ensures multiset(rest) == multiset(b1 + b2)
    ensures b == b1 + [x] + b2
  {
    assert a == [x] + rest;
    assert b == b1 + [x] + b2;
    assert multiset(a) == multiset{x} + multiset(rest);
    assert multiset(b) == multiset{x} + multiset(b1 + b2);
    assert multiset(rest) == multiset(a) - multiset{x};
    assert multiset(b1 + b2) == multiset(b) - multiset{x};
  }

  /** Accumulating the values of a map, in whatever order they are visited. */
  ghost function FoldMap<K, V, S>(step: (S, V) -> S, m: map<K, V>, s: S): S
    decreases |m|
  {
    if m == map[] then s else
    var k :| k in m;
    step(FoldMap(step, m - {k}, s), m[k])
  }

  /** When single steps commute, any key may be visited last. */
  lemma {:induction false} FoldMapWithout<K, V(!new), S(!new)>(step: (S, V) -> S, m: map<K, V>, k: K, s: S)
    requires Commutes(step) && k in m
    ensures FoldMap(step, m, s) == step(FoldMap(step, m - {k}, s), m[k])
    decreases |m|
  {
    var j :| j in m && FoldMap(step, m, s) == step(FoldMap(step, m - {j}, s), m[j]);
    if j != k {
      FoldMapWithout(step, m - {j}, k, s);
      FoldMapWithout(step, m - {k}, j, s);
      assert m - {j} - {k} == m - {k} - {j};
      SwapSteps(step, FoldMap(step, m - {j} - {k}, s), m[k], m[j]);
    }
  }

  lemma FoldMapPut<K, V(!new), S(!new)>(step: (S, V) -> S, m: map<K, V>, k: K, v: V, s: S)
    requires Commutes(step)
    ensures FoldMap(step, m[k := v], s) == step(FoldMap(step, m - {k}, s), v)
  {
    FoldMapWithout(step, m[k := v], k, s);
    assert m[k := v] - {k} == m - {k};
  }

  lemma FoldMapInsert<K, V(!new), S(!new)>(step: (S, V) -> S, m: map<K, V>, k: K, v: V, s: S)
    requires Commutes(step) && k !in m
    ensures FoldMap(step, m[k := v], s) == step(FoldMap(step, m, s), v)
  {
    FoldMapPut(step, m, k, v, s);
    assert m - {k} == m;
  }

  /** The keys of a map, each once. */
  method MapKeys<K(==), V>(m: map<K, V>) returns (ks: seq<K>)
    ensures |ks| == |m| && forall i :: 0 <= i < |ks| ==> ks[i] in m
    ensures forall i, j :: 0 <= i < j < |ks| ==> ks[i] != ks[j]
    ensures forall k :: k in m ==> k in ks
  {
    ks := [];
    var rest := m;
    while rest != map[]
      invariant |ks| + |rest| == |m|
      invariant forall i :: 0 <= i < |ks| ==> ks[i] in m && ks[i] !in rest
      invariant forall i, j :: 0 <= i < j < |ks| ==> ks[i] != ks[j]
      invariant forall k :: k in m ==> k in rest || k in ks
      invariant forall k :: k in rest ==> k in m
      decreases |rest|
    {
      var k :| k in rest;
      ks := ks + [k];
      rest := rest - {k};
    }
  }
}
