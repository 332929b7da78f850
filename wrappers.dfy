/** Optional values and results, used for Python's `None` and for raised HTTP errors. */
module Wrappers {

  /** `None` stands for Python's `None`, `Some(v)` for a present value. */
  datatype Option<+T> = None | Some(value: T) {
    function GetOr(default: T): T {
      match this
      case Some(v) => v
      case None => default
    }
  }

  /** `Success` is a normal return, `Failure` an exception the caller sees (an HTTP error here). */
  datatype Result<+R, +E> = Success(value: R) | Failure(error: E)

  /** The present values of a sequence of options, in order (`[x for x in xs if x is not None]`). */
  function Somes<T>(xs: seq<Option<T>>): (r: seq<T>)
    ensures |r| <= |xs|
    decreases |xs|
  {
    if xs == [] then []
    else
      var n := |xs| - 1;
      Somes(xs[..n]) + (match xs[n] case Some(x) => [x] case None => [])
  }

  /** Extending the input by one position appends that position's value, if present. */
  lemma SomesStep<T>(xs: seq<Option<T>>, k: int)
    requires 0 <= k < |xs|
    ensures Somes(xs[..k + 1]) == Somes(xs[..k]) + (if xs[k].Some? then [xs[k].value] else [])
  {
    assert xs[..k + 1][..k] == xs[..k];
  }

  /** A value is kept exactly when it is present somewhere in the input. */
  lemma {:induction false} SomesMembers<T>(xs: seq<Option<T>>, x: T)
    ensures x in Somes(xs) <==> exists i :: 0 <= i < |xs| && xs[i] == Some(x)
    decreases |xs|
  {
    if xs != [] {
      var n := |xs| - 1;
      SomesMembers(xs[..n], x);
      if x in Somes(xs[..n]) {
        var i :| 0 <= i < n && xs[..n][i] == Some(x);
        assert xs[i] == Some(x);
      } else if xs[n] != Some(x) {
        forall i | 0 <= i < |xs|
          ensures xs[i] != Some(x)
        {
          if i < n {
            assert xs[..n][i] == xs[i];
          }
        }
      }
    }
  }

  /** When every present value records its own position, the kept values come out in strictly increasing position. */
  lemma {:induction false} SomesOrdered<T>(xs: seq<Option<T>>, pos: T -> int)
    requires forall i :: 0 <= i < |xs| && xs[i].Some? ==> pos(xs[i].value) == i
    ensures forall y :: y in Somes(xs) ==> 0 <= pos(y) < |xs|
    ensures forall a, b :: 0 <= a < b < |Somes(xs)| ==> pos(Somes(xs)[a]) < pos(Somes(xs)[b])
    decreases |xs|
  {
    if xs != [] {
      var n := |xs| - 1;
      forall i | 0 <= i < n && xs[..n][i].Some?
        ensures pos(xs[..n][i].value) == i
      {
        assert xs[..n][i] == xs[i];
      }
      SomesOrdered(xs[..n], pos);
    }
  }
}
