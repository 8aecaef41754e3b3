/** The shape shared by every validator loop: `for j, x in enumerate(xs):
    errors.extend(f(j, x))`. `Gather(xs, f, n)` is what the loop has appended
    after its first `n` rounds. */
module Gathering {

  function Gather<T, U>(xs: seq<T>, f: (nat, T) -> seq<U>, n: nat): seq<U>
    requires n <= |xs|
    decreases n
  {
    if n == 0 then [] else Gather(xs, f, n - 1) + f(n - 1, xs[n - 1])
  }

  /** Something was appended exactly when some round appended it. */
  lemma {:induction false} GatherMember<T, U>(xs: seq<T>, f: (nat, T) -> seq<U>, n: nat, u: U)
    requires n <= |xs|
    ensures u in Gather(xs, f, n) <==> exists j :: 0 <= j < n && u in f(j, xs[j])
    decreases n
  {
    if n > 0 {
      GatherMember(xs, f, n - 1, u);
      assert u in Gather(xs, f, n) <==> u in Gather(xs, f, n - 1) || u in f(n - 1, xs[n - 1]);
    }
  }

  /** Nothing was appended exactly when no round appended anything. */
  lemma {:induction false} GatherEmpty<T, U>(xs: seq<T>, f: (nat, T) -> seq<U>, n: nat)
    requires n <= |xs|
    ensures Gather(xs, f, n) == [] <==> forall j :: 0 <= j < n ==> f(j, xs[j]) == []
    decreases n
  {
    if n > 0 {
      GatherEmpty(xs, f, n - 1);
    }
  }

  /** When each round appends nothing exactly on the elements satisfying
      `good`, the loop appends nothing exactly when every element does. */
  lemma GatherEmptyIff<T, U>(xs: seq<T>, f: (nat, T) -> seq<U>, good: T -> bool)
    requires forall j :: 0 <= j < |xs| ==> (f(j, xs[j]) == [] <==> good(xs[j]))
    ensures Gather(xs, f, |xs|) == [] <==> forall j :: 0 <= j < |xs| ==> good(xs[j])
  {
    GatherEmpty(xs, f, |xs|);
  }

  /** Later rounds only append: the first `m` rounds' output is a prefix. */
  lemma {:induction false} GatherPrefix<T, U>(xs: seq<T>, f: (nat, T) -> seq<U>, m: nat, n: nat)
    requires m <= n <= |xs|
    ensures Gather(xs, f, m) <= Gather(xs, f, n)
    decreases n
  {
    if m < n {
      GatherPrefix(xs, f, m, n - 1);
    }
  }

  /** Round `j`'s output sits, contiguously, inside the whole output. */
  lemma {:induction false} GatherSlice<T, U>(xs: seq<T>, f: (nat, T) -> seq<U>, j: nat, n: nat)
    requires j < n <= |xs|
    ensures Gather(xs, f, j) + f(j, xs[j]) <= Gather(xs, f, n)
  {
    GatherPrefix(xs, f, j + 1, n);
  }
}
