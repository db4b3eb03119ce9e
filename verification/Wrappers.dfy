/** Optional values (Go's possibly-nil pointers) and results of operations that can fail or panic. */
module Wrappers {

  datatype Option<T> = None | Some(value: T) {
    predicate IsFailure() {
      None?
    }

    function PropagateFailure<U>(): Option<U>
      requires None?
    {
      None
    }

    function Extract(): T
      requires Some?
    {
      value
    }

    /** The value behind the pointer, or the given default for nil. */
    function GetOr(default: T): T {
      if Some? then value else default
    }
  }

  /** Why an operation of the operator stopped. The first two are Go panics. */
  datatype Error =
    | NilDereference       // a nil pointer was followed
    | SliceOutOfRange      // a string was sliced outside its bounds
    | NoAtomInfo           // the OwnerInfo has no Atom block
    | RenderFailed         // a mustache template did not render
    | MarshalFailed        // the generator config did not marshal
    | ParseFailed          // a URL did not parse
    | ApiFailed            // the API server refused or lost a request
    | Modified             // optimistic lock: "the object has been modified"
    | KeyChanged           // a mutate function changed the name of its object

  datatype Result<+T> = Ok(value: T) | Err(error: Error) {
    predicate IsFailure() {
      Err?
    }

    function PropagateFailure<U>(): Result<U>
      requires Err?
    {
      Err(error)
    }

    function Extract(): T
      requires Ok?
    {
      value
    }
  }

  /** The values of a list of results, or the first error in it. */
  function Collect<T>(results: seq<Result<T>>): Result<seq<T>> {
    if results == [] then
      Ok([])
    else
      var init :- Collect(results[..|results| - 1]);
      var last :- results[|results| - 1];
      Ok(init + [last])
  }

  lemma {:induction false} CollectOk<T>(results: seq<Result<T>>)
    ensures Collect(results).Ok? <==> forall i :: 0 <= i < |results| ==> results[i].Ok?
    ensures Collect(results).Ok? ==>
              && |Collect(results).value| == |results|
              && forall i :: 0 <= i < |results| ==> results[i] == Ok(Collect(results).value[i])
  {
    if results != [] {
      var n := |results| - 1;
      CollectOk(results[..n]);
      assert forall i :: 0 <= i < n ==> results[..n][i] == results[i];
    }
  }

  /** An error comes from one of the results. */
  lemma {:induction false} CollectError<T>(results: seq<Result<T>>) returns (i: nat)
    requires Collect(results).Err?
    ensures i < |results| && results[i].Err? && results[i].error == Collect(results).error
  {
    var n := |results| - 1;
    if Collect(results[..n]).Err? {
      i := CollectError(results[..n]);
    } else {
      i := n;
    }
  }

  /** Results after an error do not matter. */
  lemma {:induction false} CollectPrefix<T>(results: seq<Result<T>>, k: nat)
    requires k <= |results| && Collect(results[..k]).Err?
    ensures Collect(results) == Collect(results[..k])
  {
    if k == |results| {
      assert results[..k] == results;
    } else {
      var n := |results| - 1;
      assert results[..n][..k] == results[..k];
      CollectPrefix(results[..n], k);
    }
  }

  lemma CollectStep<T>(results: seq<Result<T>>, k: nat, values: seq<T>)
    requires k < |results| && Collect(results[..k]) == Ok(values)
    ensures results[k].Ok? ==> Collect(results[..k + 1]) == Ok(values + [results[k].value])
    ensures results[k].Err? ==> Collect(results) == Err(results[k].error)
  {
    assert results[..k + 1][..k] == results[..k];
    if results[k].Err? {
      CollectPrefix(results, k + 1);
    }
  }

  /** The values before the first error. */
  function OkPrefix<T>(results: seq<Result<T>>): seq<T> {
    if results == [] || results[0].Err? then [] else [results[0].value] + OkPrefix(results[1..])
  }

  lemma {:induction false} OkPrefixEnds<T>(results: seq<Result<T>>, k: nat, values: seq<T>)
    requires k < |results| && results[k].Err? && Collect(results[..k]) == Ok(values)
    ensures OkPrefix(results) == values
  {
    CollectOk(results[..k]);
    if k > 0 {
      assert results[..k][0] == results[0];
      var rest := results[1..][..k - 1];
      assert forall i :: 0 <= i < |rest| ==> rest[i] == results[..k][i + 1];
      CollectOk(rest);
      assert Collect(rest).value == values[1..];
      OkPrefixEnds(results[1..], k - 1, values[1..]);
      assert values == [values[0]] + values[1..];
    }
  }

  /** Without an error these are all values. */
  lemma OkPrefixAll<T>(results: seq<Result<T>>)
    requires Collect(results).Ok?
    ensures OkPrefix(results) == Collect(results).value
  {
    CollectOk(results);
    OkPrefixOfValues(results, Collect(results).value);
  }

  lemma {:induction false} OkPrefixOfValues<T>(results: seq<Result<T>>, values: seq<T>)
    requires |results| == |values| && forall i :: 0 <= i < |results| ==> results[i] == Ok(values[i])
    ensures OkPrefix(results) == values
  {
    if results != [] {
      OkPrefixOfValues(results[1..], values[1..]);
      assert values == [values[0]] + values[1..];
    }
  }
}
