/** Optional values, standing in for Python's `None`. */
module Wrappers {

  datatype Option<+T> = None | Some(value: T)
}

/**
 * How a Python call ends: it returns a value or raises an exception.
 * Every exception the modelled code can raise and that it does not catch
 * itself is listed in `Exception`.
 */
module Python {
  import opened Seqs

  datatype Exception =
    | FloatValueError(literal: string)  // `float(s)` on a string that is not a number
    | UnpackValueError(got: nat)        // `x, y = it` where `it` yields `got` != 2 items
    | WebDriverError                    // the browser session failed to answer

  datatype Py<+T> = Return(value: T) | Raise(exc: Exception)

  /** Python's `True`, `False` and `None` where a function may return any of them. */
  datatype PyBool = PyTrue | PyFalse | PyNone {
    /** Truthiness, as used by `if` and `and`. */
    predicate Truthy() { this == PyTrue }
  }

  /**
   * Reading `map(f, xs)` to the end, as a comprehension or `list` does:
   * `f` is applied to each element in order and the first exception stops
   * the reading.
   */
  function MapAll<A, B>(xs: seq<A>, f: A -> Py<B>): (r: Py<seq<B>>)
    ensures r.Return? ==> |r.value| == |xs|
  {
    if xs == [] then Return([])
    else match f(xs[0])
      case Raise(e) => Raise(e)
      case Return(first) =>
        match MapAll(xs[1..], f)
        case Raise(e) => Raise(e)
        case Return(rest) => Return([first] + rest)
  }

  /**
   * The reading returns exactly when no call raises, and then yields each
   * element's own result in order; otherwise it raises what the first
   * raising call raises.
   */
  lemma {:induction false} MapAllInOrder<A, B>(xs: seq<A>, f: A -> Py<B>)
    ensures var r := MapAll(xs, f);
      (r.Return? <==> forall i :: 0 <= i < |xs| ==> f(xs[i]).Return?)
      && (r.Return? ==> forall i :: 0 <= i < |xs| ==> f(xs[i]) == Return(r.value[i]))
    ensures var r := MapAll(xs, f);
      r.Raise? ==>
        var k := LeadingCount(xs, (x: A) => f(x).Return?);
        k < |xs| && r.exc == f(xs[k]).exc
  {
    if xs != [] {
      MapAllInOrder(xs[1..], f);
      assert forall i :: 1 <= i < |xs| ==> xs[i] == xs[1..][i - 1];
    }
  }
}
