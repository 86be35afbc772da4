/**
 * Applying a step to each item of a sequence in order, as the handlers' loops
 * over the entries of a message do: a total step (`Mapped`) and a step that may
 * throw and stops at the first failure (`MapAll`).
 */
module Sequences {
  import opened Wrappers

  /**
   * A fallible step applied to each item in order, collecting the results; the
   * first failure stops it and is the result.
   */
  function MapAll<T, U>(step: T -> Result<U>, items: seq<T>): Result<seq<U>>
    decreases |items|
  {
    if items == [] then Ok([])
    else
      var before :- MapAll(step, items[..|items| - 1]);
      var last :- step(items[|items| - 1]);
      Ok(before + [last])
  }

  /**
   * `MapAll` succeeds exactly when every step does, and then holds one result per
   * item in order; a failure is the failure of the first failing step.
   */
  lemma {:induction false} MapAllSpec<T, U>(step: T -> Result<U>, items: seq<T>)
    ensures MapAll(step, items).Ok? <==> forall i :: 0 <= i < |items| ==> step(items[i]).Ok?
    ensures MapAll(step, items).Ok? ==>
      && |MapAll(step, items).value| == |items|
      && forall i :: 0 <= i < |items| ==> MapAll(step, items).value[i] == step(items[i]).value
    ensures MapAll(step, items).Err? ==>
      exists k :: 0 <= k < |items| && step(items[k]).Err? && MapAll(step, items).error == step(items[k]).error
    decreases |items|
  {
    if items != [] {
      var front := items[..|items| - 1];
      var last := items[|items| - 1];
      MapAllSpec(step, front);
      assert forall i :: 0 <= i < |front| ==> front[i] == items[i];
      if MapAll(step, front).Ok? && step(last).Ok? {
        var before := MapAll(step, front).value;
        var results := MapAll(step, items).value;
        assert results == before + [step(last).value];
        forall i | 0 <= i < |items|
          ensures results[i] == step(items[i]).value
        {
          if i < |front| {
            assert results[i] == before[i];
          }
        }
      }
    }
  }

  /** One more item: the step's result is appended, or its failure is the result. */
  lemma MapAllStep<T, U>(step: T -> Result<U>, items: seq<T>, i: nat)
    requires i < |items| && MapAll(step, items[..i]).Ok?
    ensures step(items[i]).Ok? ==>
      MapAll(step, items[..i + 1]) == Ok(MapAll(step, items[..i]).value + [step(items[i]).value])
    ensures step(items[i]).Err? ==> MapAll(step, items[..i + 1]) == Err(step(items[i]).error)
  {
    assert items[..i + 1][..i] == items[..i];
  }

  /** Once a prefix of the items fails, `MapAll` fails with the same error. */
  lemma {:induction false} MapAllPrefixFails<T, U>(step: T -> Result<U>, items: seq<T>, k: nat)
    requires k <= |items| && MapAll(step, items[..k]).Err?
    ensures MapAll(step, items) == MapAll(step, items[..k])
    decreases |items|
  {
    if k < |items| {
      var front := items[..|items| - 1];
      assert front[..k] == items[..k];
      MapAllPrefixFails(step, front, k);
    } else {
      assert items[..k] == items;
    }
  }


  /** `f` applied to each item, in order. */
  function Mapped<T, U>(f: T -> U, items: seq<T>): (r: seq<U>)
    ensures |r| == |items| && forall k :: 0 <= k < |items| ==> r[k] == f(items[k])
  {
    seq(|items|, k requires 0 <= k < |items| => f(items[k]))
  }

  /** Mapping one more item extends the mapping of the items before it. */
  lemma MappedStep<T, U>(f: T -> U, items: seq<T>, i: nat)
    requires i < |items|
    ensures Mapped(f, items[..i + 1]) == Mapped(f, items[..i]) + [f(items[i])]
  {
  }
}
