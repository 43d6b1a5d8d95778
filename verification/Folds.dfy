/** Loops that stop: a result that ends a loop is the result of the whole loop. */
module Folds {

  /** Over a counter: once the value is final, it does not change any more. */
  lemma {:induction false} Stays<R>(f: nat -> R, final: R -> bool, n: nat, m: nat)
    requires n <= m && final(f(n))
    requires forall k: nat :: n <= k < m && final(f(k)) ==> f(k + 1) == f(k)
    ensures f(m) == f(n)
  {
    if n < m {
      Stays(f, final, n, m - 1);
      assert f(m - 1 + 1) == f(m - 1);
    }
  }

  /** Over a list: a final value of a prefix is the value of the list. */
  lemma {:induction false} PrefixDecides<T, R>(f: seq<T> -> R, final: R -> bool, xs: seq<T>, n: nat)
    requires n <= |xs| && final(f(xs[..n]))
    requires forall ys :: ys != [] && final(f(ys[..|ys| - 1])) ==> f(ys) == f(ys[..|ys| - 1])
    ensures f(xs) == f(xs[..n])
    decreases |xs|
  {
    if n == |xs| {
      assert xs[..n] == xs;
    } else {
      var init := xs[..|xs| - 1];
      assert init[..n] == xs[..n];
      PrefixDecides(f, final, init, n);
    }
  }
}
