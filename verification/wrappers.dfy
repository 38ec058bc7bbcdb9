/** Failure-compatible wrappers used to model Python's exceptions as values. */
module Wrappers {

  datatype Option<+T> = None | Some(value: T)

  /** The value a Python call returns, or the exception it raises. */
  datatype Result<+T, +E> = Success(value: T) | Failure(error: E) {

    predicate IsFailure() {
      Failure?
    }

    function PropagateFailure<U>(): Result<U, E>
      requires Failure?
    {
      Failure(error)
    }

    function Extract(): T
      requires Success?
    {
      value
    }
  }

  /** A check that either passes or raises, with no value. */
  datatype Outcome<+E> = Pass | Fail(error: E)

  /** Applies `f` to every element in order and stops at the first failure,
      as a Python list comprehension does when one of its calls raises. */
  function MapAll<A, B, E>(xs: seq<A>, f: A -> Result<B, E>): (r: Result<seq<B>, E>)
    ensures r.Success? ==> |r.value| == |xs| && forall i :: 0 <= i < |xs| ==> f(xs[i]) == Success(r.value[i])
    ensures r.Failure? ==> exists i :: 0 <= i < |xs| && f(xs[i]) == Failure(r.error)
                                       && forall j :: 0 <= j < i ==> f(xs[j]).Success?
  {
    if xs == [] then Success([])
    else
      match f(xs[0])
      case Failure(e) => Failure(e)
      case Success(y) =>
        match MapAll(xs[1..], f)
        case Failure(e) =>
          assert exists i :: 0 <= i < |xs| && f(xs[i]) == Failure(e)
                             && forall j :: 0 <= j < i ==> f(xs[j]).Success? by {
            var i :| 0 <= i < |xs| - 1 && f(xs[1..][i]) == Failure(e)
                     && forall j :: 0 <= j < i ==> f(xs[1..][j]).Success?;
            assert f(xs[i + 1]) == Failure(e);
            forall j | 0 <= j < i + 1 ensures f(xs[j]).Success? {
              if j > 0 { assert xs[j] == xs[1..][j - 1]; }
            }
          }
          Failure(e)
        case Success(ys) => Success([y] + ys)
  }

  /** When every call succeeds, MapAll returns all their results in order. */
  lemma {:induction false} MapAllSucceeds<A, B, E>(xs: seq<A>, f: A -> Result<B, E>, ys: seq<B>)
    requires |ys| == |xs| && forall i :: 0 <= i < |xs| ==> f(xs[i]) == Success(ys[i])
    ensures MapAll(xs, f) == Success(ys)
  {
    if xs != [] {
      MapAllSucceeds(xs[1..], f, ys[1..]);
      assert ys == [ys[0]] + ys[1..];
    }
  }
}
