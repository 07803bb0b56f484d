/** Small value wrappers shared by the other modules. */
module Basics {

  /** A value that may be absent (JavaScript's `undefined`). */
  datatype Option<T> = None | Some(value: T)

  /** The outcome of an operation that can refuse its input. */
  datatype Result<T, E> = Success(value: T) | Failure(error: E)

  /** No element occurs twice. */
  predicate Distinct<T(==)>(s: seq<T>)
  {
    forall i, j :: 0 <= i < j < |s| ==> s[i] != s[j]
  }

  /**
   * `Tabulate(n, f)` is `[f(0), ..., f(n - 1)]`, built the way a loop over
   * `0 .. n - 1` pushes onto an initially empty list.
   */
  function Tabulate<T>(n: nat, f: nat -> T): seq<T>
  {
    if n == 0 then [] else Tabulate(n - 1, f) + [f(n - 1)]
  }

  lemma {:induction false} TabulateAt<T>(n: nat, f: nat -> T, i: nat)
    requires i < n
    ensures |Tabulate(n, f)| == n
    ensures Tabulate(n, f)[i] == f(i)
  {
    if i < n - 1 {
      TabulateAt(n - 1, f, i);
    } else if n > 1 {
      TabulateAt(n - 1, f, 0);
    }
  }

  lemma {:induction false} TabulateLength<T>(n: nat, f: nat -> T)
    ensures |Tabulate(n, f)| == n
  {
    if n > 0 {
      TabulateLength(n - 1, f);
    }
  }

  /** Growing `n` only appends: the first `k` entries never change. */
  lemma {:induction false} TabulatePrefix<T>(k: nat, n: nat, f: nat -> T)
    requires k <= n
    ensures |Tabulate(n, f)| == n
    ensures Tabulate(k, f) == Tabulate(n, f)[..k]
  {
    TabulateLength(n, f);
    if k < n {
      TabulatePrefix(k, n - 1, f);
      TabulateLength(n - 1, f);
      assert Tabulate(n, f)[..n - 1] == Tabulate(n - 1, f);
    }
  }

  /** `Map(s, f)` is JavaScript's `s.map(f)`: same length, same order. */
  function Map<A, B>(s: seq<A>, f: A -> B): seq<B>
  {
    if s == [] then [] else Map(s[..|s| - 1], f) + [f(s[|s| - 1])]
  }

  lemma {:induction false} MapAt<A, B>(s: seq<A>, f: A -> B, i: nat)
    requires i < |s|
    ensures |Map(s, f)| == |s|
    ensures Map(s, f)[i] == f(s[i])
  {
    var init := s[..|s| - 1];
    if i < |s| - 1 {
      MapAt(init, f, i);
    } else if |s| > 1 {
      MapAt(init, f, 0);
    }
  }
}
