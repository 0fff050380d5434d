/**
 The outcomes of the series drivers. A driver either produces its filtered
 series or fails the way the driver fails when its input leaves no defined
 answer: indexing the first sample of an empty series, or dividing by a zero
 gain denominator.
 */
module Results {

  datatype Error =
    | EmptySeries    // the seed `series[0]` of an empty series
    | ZeroDivision   // `p / (p + r)` with `p + r == 0`

  datatype Result<+T> = Success(value: T) | Failure(error: Error)

  datatype Option<+T> = None | Some(value: T)

  /** Put `xs` in front of a successful series; a failure passes through unchanged. */
  function Prepend(xs: seq<real>, res: Result<seq<real>>): Result<seq<real>>
  {
    match res
    case Success(v) => Success(xs + v)
    case Failure(e) => Failure(e)
  }

  /** Prepending in two steps is prepending the concatenation. */
  lemma PrependTwice(xs: seq<real>, ys: seq<real>, res: Result<seq<real>>)
    ensures Prepend(xs, Prepend(ys, res)) == Prepend(xs + ys, res)
  {
    if res.Success? {
      assert xs + (ys + res.value) == (xs + ys) + res.value;
    }
  }
}
