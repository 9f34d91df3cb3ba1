/** Optional values and success/failure results, used wherever the Python code
    returns `None` or raises an exception that a caller sees. */
module Wrappers {

  datatype Option<+T> = None | Some(value: T)

  datatype Result<+R, +E> = Success(value: R) | Failure(error: E)

  /** The first present value among `f(k)`, ..., `f(n - 1)`: the "first
      success wins" scan behind the fallback loops of the system. */
  function FirstHit<T>(f: nat -> Option<T>, k: nat, n: nat): Option<T>
    decreases n - k
  {
    if k >= n then None
    else if f(k).Some? then f(k)
    else FirstHit(f, k + 1, n)
  }

  /** The scan yields the value at the first index that has one, and nothing
      when no index has one. */
  lemma {:induction false} FirstHitIsFirst<T>(f: nat -> Option<T>, k: nat, n: nat)
    ensures FirstHit(f, k, n).Some? ==>
      exists i :: k <= i < n && f(i) == FirstHit(f, k, n) && forall j :: k <= j < i ==> f(j).None?
    ensures FirstHit(f, k, n).None? <==> forall j :: k <= j < n ==> f(j).None?
    decreases n - k
  {
    if k < n && f(k).None? {
      FirstHitIsFirst(f, k + 1, n);
      if FirstHit(f, k, n).Some? {
        var i :| k + 1 <= i < n && f(i) == FirstHit(f, k + 1, n) && forall j :: k + 1 <= j < i ==> f(j).None?;
        assert forall j :: k <= j < i ==> f(j).None?;
      }
    }
  }

  /** A value at index `i` is the result when no earlier index has one. */
  lemma {:induction false} FirstHitPicks<T>(f: nat -> Option<T>, k: nat, n: nat, i: nat)
    requires k <= i < n
    requires f(i).Some?
    requires forall j :: k <= j < i ==> f(j).None?
    ensures FirstHit(f, k, n) == f(i)
    decreases i - k
  {
    if k < i {
      FirstHitPicks(f, k + 1, n, i);
    }
  }

  /** Scans of two functions that agree on the scanned indices agree. */
  lemma {:induction false} FirstHitAgree<T>(f: nat -> Option<T>, g: nat -> Option<T>, k: nat, n: nat)
    requires forall i :: k <= i < n ==> f(i) == g(i)
    ensures FirstHit(f, k, n) == FirstHit(g, k, n)
    decreases n - k
  {
    if k < n {
      FirstHitAgree(f, g, k + 1, n);
    }
  }
}
