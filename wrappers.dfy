/**
 * Failure-carrying wrappers shared by the whole model.
 *
 * `Option` stands for a Kotlin nullable value and also for an operation that
 * may throw a single kind of exception; `Result` carries the reason of a
 * failure.
 */
module Wrappers {

  datatype Option<+T> = None | Some(value: T)
  {
    predicate IsFailure() { None? }

    function PropagateFailure<U>(): Option<U>
      requires None?
    {
      None
    }

    function Extract(): T
      requires Some?
    {
      value
    }
  }

  datatype Result<+T, +E> = Success(value: T) | Failure(error: E)
  {
    predicate IsFailure() { Failure? }

    function PropagateFailure<U>(): Result<U, E>
      requires Failure?
    {
      Failure(error)
    }

    function Extract(): T
      requires Success?
    {
      value
    }
  }

  /** All values when every element succeeds; otherwise the FIRST failure. */
  function AllSuccess<T, E>(xs: seq<Result<T, E>>): (r: Result<seq<T>, E>)
    ensures r.Success? <==> forall i :: 0 <= i < |xs| ==> xs[i].Success?
    ensures r.Success? ==> |r.value| == |xs| && forall i :: 0 <= i < |xs| ==> r.value[i] == xs[i].value
  {
    if |xs| == 0 then Success([])
    else
      var init :- AllSuccess(xs[..|xs| - 1]);
      var last :- xs[|xs| - 1];
      Success(init + [last])
  }

  /** A failed `AllSuccess` reports the failure of the first element that fails. */
  lemma {:induction false} AllSuccessFirstFailure<T, E>(xs: seq<Result<T, E>>)
    requires AllSuccess(xs).Failure?
    ensures exists i :: 0 <= i < |xs| && xs[i] == Failure(AllSuccess(xs).error)
                     && forall j :: 0 <= j < i ==> xs[j].Success?
  {
    var init := xs[..|xs| - 1];
    if AllSuccess(init).Failure? {
      AllSuccessFirstFailure(init);
      var i :| 0 <= i < |init| && init[i] == Failure(AllSuccess(init).error)
               && forall j :: 0 <= j < i ==> init[j].Success?;
      assert xs[i] == init[i];
    } else {
      assert xs[|xs| - 1] == Failure(AllSuccess(xs).error);
      assert forall j :: 0 <= j < |xs| - 1 ==> xs[j] == init[j];
    }
  }
}
