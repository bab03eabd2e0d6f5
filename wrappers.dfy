/** Failure-compatible results and the Python exceptions the modelled code can raise. */
module Wrappers {

  datatype Option<+T> = None | Some(value: T)

  /** The exception a Python call would raise, by class. */
  datatype Error =
    | KeyError(key: string)        // missing dictionary key (string keys)
    | IntKeyError(index: int)      // missing dictionary key (integer keys)
    | IndexError                   // out-of-range or too many indices
    | TypeError                    // operation applied to a value of the wrong kind
    | ValueError                   // numpy / sklearn rejecting a shape or a value
    | AssertionError               // an explicit `raise AssertionError`
    | AttributeError               // a method called on an object that does not have it
    | NotImplementedError          // an explicit `raise NotImplementedError`
    | UnboundLocalError            // a local read before any branch assigned it

  /** Either the value a call returns or the exception it raises. */
  datatype Result<+T> = Success(value: T) | Failure(error: Error) {
    predicate IsFailure() { Failure? }

    function PropagateFailure<U>(): Result<U>
      requires Failure?
    {
      Failure(error)
    }

    function Extract(): T
      requires Success?
    {
      value
    }
  }

  /** The outcome of a call that returns nothing. */
  datatype Outcome = Pass | Fail(error: Error)

  /** `m[k]` on a string-keyed dictionary. */
  function Get<V>(m: map<string, V>, k: string): (r: Result<V>)
    ensures r.Success? <==> k in m
    ensures r.Success? ==> r.value == m[k]
    ensures r.Failure? ==> r.error == KeyError(k)
  {
    if k in m then Success(m[k]) else Failure(KeyError(k))
  }

  /** A list of results as one result: the first failure, or every value in order. */
  function Collect<T>(rs: seq<Result<T>>): (r: Result<seq<T>>)
    ensures r.Success? <==> forall i :: 0 <= i < |rs| ==> rs[i].Success?
    ensures r.Success? ==> |r.value| == |rs| && forall i :: 0 <= i < |rs| ==> rs[i] == Success(r.value[i])
    ensures r.Failure? ==> exists i :: 0 <= i < |rs| && rs[i] == Failure(r.error)
  {
    if rs == [] then Success([])
    else
      var front :- Collect(rs[..|rs| - 1]);
      var last :- rs[|rs| - 1];
      Success(front + [last])
  }

  /** Once a prefix fails, the whole list fails with the same error. */
  lemma {:induction false} CollectStops<T>(rs: seq<Result<T>>, k: nat)
    requires k <= |rs| && Collect(rs[..k]).Failure?
    ensures Collect(rs) == Collect(rs[..k])
  {
    if k < |rs| {
      var init := rs[..|rs| - 1];
      assert init[..k] == rs[..k];
      CollectStops(init, k);
    } else {
      assert rs[..k] == rs;
    }
  }
}
