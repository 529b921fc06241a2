/** Option and Result, the failure-compatible wrappers used by every other module. */
module Wrappers {

  datatype Option<+T> = None | Some(value: T)

  /** A value or the error that stopped the computation (a raised exception in the source). */
  datatype Result<+T, +E> = Success(value: T) | Failure(error: E) {
    predicate IsFailure() {
      Failure?
    }

    function PropagateFailure<U>(): Result<U, E>
      requires Failure?
    {
      Failure(error)
    }

    function Extract(): T
      requires Success?
    {
      value
    }
  }

  /** Applies `f` to every element in order; stops at the first element `f` rejects. */
  function MapAll<A, B, E>(f: A -> Result<B, E>, xs: seq<A>): (r: Result<seq<B>, E>)
    decreases |xs|
    ensures r.Success? <==> forall i :: 0 <= i < |xs| ==> f(xs[i]).Success?
    ensures r.Success? ==> |r.value| == |xs| && forall i :: 0 <= i < |xs| ==> r.value[i] == f(xs[i]).value
    ensures r.Failure? ==>
              exists i :: 0 <= i < |xs| && f(xs[i]) == Failure(r.error) &&
                          forall j :: 0 <= j < i ==> f(xs[j]).Success?
  {
    if xs == [] then Success([])
    else
      var init := MapAll(f, xs[..|xs| - 1]);
      if init.Failure? then Failure(init.error)
      else
        var last := f(xs[|xs| - 1]);
        if last.Failure? then Failure(last.error)
        else Success(init.value + [last.value])
  }

  /** Processing one more element after a successful prefix appends its result or stops at it. */
  lemma MapAllStep<A, B, E>(f: A -> Result<B, E>, xs: seq<A>, i: nat)
    requires i < |xs| && MapAll(f, xs[..i]).Success?
    ensures MapAll(f, xs[..i + 1]) ==
      if f(xs[i]).Failure? then Failure(f(xs[i]).error)
      else Success(MapAll(f, xs[..i]).value + [f(xs[i]).value])
  {
    assert xs[..i + 1][..i] == xs[..i];
  }

  /** Once a prefix has failed, the whole sequence fails with the same error. */
  lemma {:induction false} MapAllStops<A, B, E>(f: A -> Result<B, E>, xs: seq<A>, k: nat)
    requires k <= |xs| && MapAll(f, xs[..k]).Failure?
    decreases |xs|
    ensures MapAll(f, xs) == MapAll(f, xs[..k])
  {
    if k < |xs| {
      var init := xs[..|xs| - 1];
      assert init[..k] == xs[..k];
      MapAllStops(f, init, k);
    } else {
      assert xs[..k] == xs;
    }
  }

  /** Appending one element: its result follows the others', or it is the first failure. */
  lemma MapAllSnoc<A, B, E>(f: A -> Result<B, E>, xs: seq<A>, x: A)
    ensures MapAll(f, xs + [x]) ==
      if MapAll(f, xs).Failure? then MapAll(f, xs)
      else if f(x).Failure? then Failure(f(x).error)
      else Success(MapAll(f, xs).value + [f(x).value])
  {
    assert (xs + [x])[..|xs|] == xs;
  }

  /** When every element succeeds, the whole map is the sequence of their values. */
  lemma MapAllSucceeds<A, B, E>(f: A -> Result<B, E>, xs: seq<A>, ys: seq<B>)
    requires |xs| == |ys| && forall i :: 0 <= i < |xs| ==> f(xs[i]) == Success(ys[i])
    ensures MapAll(f, xs) == Success(ys)
  {
    var r := MapAll(f, xs);
    assert r.Success?;
    assert r.value == ys;
  }
}
