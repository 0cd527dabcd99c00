/** Failure-carrying result types shared by every module of the model. */
module Wrappers {

  /** The conventional Some/None datatype, for Python's `None` returns. */
  datatype Option<+T> = None | Some(value: T) {
    predicate IsFailure() { None? }
    function PropagateFailure<U>(): Option<U> requires None? { None }
    function Extract(): T requires Some? { value }
    /** `x if x is not None else d`. */
    function GetOr(d: T): T { if Some? then value else d }
  }

  /**
   * The outcome of a Python expression that may raise: `Ok(v)` when it
   * evaluates to `v`, `Raised` when it throws (KeyError, TypeError,
   * AttributeError, ValueError, ...). The kind of exception is not kept,
   * because every handler in the modelled code catches `Exception` as a whole.
   */
  datatype Outcome<+T> = Ok(value: T) | Raised {
    predicate IsFailure() { Raised? }
    function PropagateFailure<U>(): Outcome<U> requires Raised? { Raised }
    function Extract(): T requires Ok? { value }
  }

  /**
   * The values of the results that are present, in order: what a loop that
   * appends each non-`None` result collects.
   */
  function Present<T>(rs: seq<Option<T>>): seq<T> {
    if rs == [] then []
    else Present(rs[..|rs| - 1]) + (if rs[|rs| - 1].Some? then [rs[|rs| - 1].value] else [])
  }

  /** An item is present iff some result holds it, there are at most as many items as results, and none when no result holds one. */
  lemma {:induction false} PresentSpec<T>(rs: seq<Option<T>>)
    ensures |Present(rs)| <= |rs|
    ensures forall x :: x in Present(rs) <==> Some(x) in rs
    ensures (forall i :: 0 <= i < |rs| ==> rs[i].None?) ==> Present(rs) == []
  {
    if rs != [] {
      var init := rs[..|rs| - 1];
      assert rs == init + [rs[|rs| - 1]];
      PresentSpec(init);
    }
  }

  /** The index of a result that holds a present item. */
  lemma PresentIndex<T>(rs: seq<Option<T>>, x: T) returns (i: nat)
    requires x in Present(rs)
    ensures i < |rs| && rs[i] == Some(x)
  {
    PresentSpec(rs);
    i :| 0 <= i < |rs| && rs[i] == Some(x);
  }

  /** An item is present iff some result holds it. */
  lemma PresentWitness<T>(rs: seq<Option<T>>, x: T)
    ensures x in Present(rs) <==> exists i :: 0 <= i < |rs| && rs[i] == Some(x)
  {
    PresentSpec(rs);
  }

  lemma {:induction false} PresentAppend<T>(a: seq<Option<T>>, b: seq<Option<T>>)
    ensures Present(a + b) == Present(a) + Present(b)
    decreases |b|
  {
    if b == [] {
      assert a + b == a;
    } else {
      var init := b[..|b| - 1];
      assert (a + b)[..|a + b| - 1] == a + init;
      PresentAppend(a, init);
    }
  }
}
