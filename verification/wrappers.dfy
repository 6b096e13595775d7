/** Failure-compatible wrappers used throughout the model: an optional value
    (Python's `None` versus a value) and a success/failure result that stands
    for a Python call that either returns or raises. */
module Wrappers {

  datatype Option<+T> = None | Some(value: T) {

    /** The value, or `default` when there is none (Python's `x or default`
        restricted to `None`). */
    function GetOr(default: T): T {
      match this
      case Some(v) => v
      case None => default
    }
  }

  datatype Result<+T, +E> = Success(value: T) | Failure(error: E) {

    predicate IsFailure() {
      Failure?
    }

    function PropagateFailure<U>(): Result<U, E>
      requires Failure?
    {
      Failure(error)
    }

    function Extract(): T
      requires Success?
    {
      value
    }
  }

  /** Applies `f` to every element in order and stops at the first failure,
      as a Python list comprehension does when one step raises. */
  function MapAll<A, B, E>(a: seq<A>, f: A -> Result<B, E>): (r: Result<seq<B>, E>)
    ensures r.Success? <==> forall i :: 0 <= i < |a| ==> f(a[i]).Success?
    ensures r.Success? ==> |r.value| == |a|
    ensures r.Success? ==> forall i :: 0 <= i < |a| ==> f(a[i]) == Success(r.value[i])
    ensures r.Failure? ==>
      exists k :: 0 <= k < |a| && f(a[k]) == Failure(r.error) && forall i :: 0 <= i < k ==> f(a[i]).Success?
    decreases |a|
  {
    if |a| == 0 then Success([])
    else
      match f(a[0])
      case Failure(e) => Failure(e)
      case Success(b) =>
        match MapAll(a[1..], f)
        case Failure(e) =>
          assert forall i :: 1 <= i < |a| ==> a[1..][i - 1] == a[i];
          Failure(e)
        case Success(bs) =>
          assert forall i :: 1 <= i < |a| ==> a[1..][i - 1] == a[i];
          Success([b] + bs)
  }
}
