/** Folding a sequence, and when the order does not matter. */
module Folds {

  function Fold<A, S>(step: (S, A) -> S, start: S, items: seq<A>): S {
    if items == [] then start
    else step(Fold(step, start, items[..|items| - 1]), items[|items| - 1])
  }

  ghost predicate Commutes<A(!new), S(!new)>(step: (S, A) -> S) {
    forall s, a, b :: step(step(s, a), b) == step(step(s, b), a)
  }

  /** An item may be taken from anywhere and folded last. */
  lemma {:induction false} FoldLast<A(!new), S(!new)>(step: (S, A) -> S, start: S, items: seq<A>, i: nat)
    requires Commutes(step) && i < |items|
    ensures Fold(step, start, items) == step(Fold(step, start, items[..i] + items[i + 1..]), items[i])
    decreases |items|
  {
    var (init, last) := (items[..|items| - 1], items[|items| - 1]);
    var rest := items[..i] + items[i + 1..];
    if i == |items| - 1 {
      assert rest == init;
    } else {
      FoldLast(step, start, init, i);
      var less := init[..i] + init[i + 1..];
      assert init[..i] == items[..i];
      assert rest == less + [last];
      assert rest[..|rest| - 1] == less;
      assert step(step(Fold(step, start, less), items[i]), last) == step(step(Fold(step, start, less), last), items[i]);
    }
  }

  lemma WithoutOne<A>(b: seq<A>, i: nat)
    requires i < |b|
    ensures multiset(b[..i] + b[i + 1..]) == multiset(b) - multiset{b[i]}
  {
    assert b == b[..i] + [b[i]] + b[i + 1..];
  }

  /** A fold whose steps commute gives the same result in any order. */
  lemma {:induction false} FoldInAnyOrder<A(!new), S(!new)>(step: (S, A) -> S, start: S, a: seq<A>, b: seq<A>)
    requires Commutes(step) && multiset(a) == multiset(b)
    ensures Fold(step, start, a) == Fold(step, start, b)
    decreases |a|
  {
    assert |multiset(a)| == |a| && |multiset(b)| == |b|;
    if a != [] {
      var (init, last) := (a[..|a| - 1], a[|a| - 1]);
      assert a == init + [last];
      assert last in multiset(a);
      assert last in b;
      var i :| 0 <= i < |b| && b[i] == last;
      var rest := b[..i] + b[i + 1..];
      WithoutOne(b, i);
      assert multiset(init) == multiset(a) - multiset{last};
      FoldInAnyOrder(step, start, init, rest);
      FoldLast(step, start, b, i);
    }
  }

  /** The inverse steps, last element first. */
  function Unfold<S, X>(unstep: (S, X) -> S, s: S, xs: seq<X>): S {
    if xs == [] then s else Unfold(unstep, unstep(s, xs[|xs| - 1]), xs[..|xs| - 1])
  }

  lemma {:induction false} FoldIsABijection<S(!new), X(!new)>(step: (S, X) -> S, unstep: (S, X) -> S, s: S, xs: seq<X>)
    requires forall t, x :: unstep(step(t, x), x) == t && step(unstep(t, x), x) == t
    ensures Unfold(unstep, Fold(step, s, xs), xs) == s
    ensures Fold(step, Unfold(unstep, s, xs), xs) == s
    decreases |xs|
  {
    if xs != [] {
      var (front, last) := (xs[..|xs| - 1], xs[|xs| - 1]);
      FoldIsABijection(step, unstep, s, front);
      FoldIsABijection(step, unstep, unstep(s, last), front);
    }
  }

  lemma {:induction false} FoldComposes<S, X>(step: (S, X) -> S, s: S, p: seq<X>, q: seq<X>)
    ensures Fold(step, s, p + q) == Fold(step, Fold(step, s, p), q)
    decreases |q|
  {
    if q == [] {
      assert p + q == p;
    } else {
      FoldComposes(step, s, p, q[..|q| - 1]);
      assert (p + q)[..|p + q| - 1] == p + q[..|q| - 1];
    }
  }
}
