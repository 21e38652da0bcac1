/** Generic helpers for describing a run frame by frame: the list of the
    first `n` values of a per-frame function, and how many of the first
    `n` frames satisfy a per-frame condition. */
module Traces {

  function Tabulate<T>(f: nat -> T, n: nat): (s: seq<T>)
    ensures |s| == n
    decreases n
  {
    if n == 0 then [] else Tabulate(f, n - 1) + [f(n - 1)]
  }

  lemma {:induction false} TabulateAt<T>(f: nat -> T, n: nat, i: nat)
    requires i < n
    ensures Tabulate(f, n)[i] == f(i)
    decreases n
  {
    if i < n - 1 {
      TabulateAt(f, n - 1, i);
    }
  }

  function Count(p: nat -> bool, n: nat): (c: nat)
    ensures c <= n
    decreases n
  {
    if n == 0 then 0 else Count(p, n - 1) + (if p(n - 1) then 1 else 0)
  }

  /** When `p` at each step is `q` at the step before, counting `p` over
      `n + 1` steps is `p`'s first value plus counting `q` over `n` steps. */
  lemma {:induction false} CountShift(p: nat -> bool, q: nat -> bool, n: nat)
    requires forall i: nat :: p(i + 1) == q(i)
    ensures Count(p, n + 1) == (if p(0) then 1 else 0) + Count(q, n)
    decreases n
  {
    if n > 0 {
      CountShift(p, q, n - 1);
    }
  }
}
