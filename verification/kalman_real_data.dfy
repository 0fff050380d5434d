/**
 The driver `run_kalman` of the real-data script: the same seed-then-fold as
 `run_kf`, kept in its loop form, which appends one post-update estimate
 per price.
 */
module KalmanRealData {
  import opened KalmanFilter
  import opened Results
  import opened KalmanSensitivity

  /** `run_kalman`: seed with `priceArray[0]`, then predict, update and append per price. */
  method RunKalman(priceArray: seq<real>, q: real, r: real) returns (out: Result<seq<real>>)
    ensures out == RunKf(priceArray, q, r)
    ensures |priceArray| == 0 <==> out == Failure(EmptySeries)
    ensures out.Success? ==> |out.value| == |priceArray|
  {
    if |priceArray| == 0 {
      return Failure(EmptySeries);
    }
    var kf := Init(q, r, priceArray[0]);
    var filtered: seq<real> := [];
    assert priceArray[0..] == priceArray;
    assert Prepend(filtered, Filtered(kf, priceArray)) == Filtered(kf, priceArray) by {
      if Filtered(kf, priceArray).Success? {
        assert [] + Filtered(kf, priceArray).value == Filtered(kf, priceArray).value;
      }
    }
    for i := 0 to |priceArray|
      invariant |filtered| == i
      invariant Prepend(filtered, Filtered(kf, priceArray[i..])) == RunKf(priceArray, q, r)
    {
      if !CanStep(kf) {
        return Failure(ZeroDivision);
      }
      var next := Step(kf, priceArray[i]);
      assert priceArray[i..][1..] == priceArray[i + 1..];
      PrependTwice(filtered, [next.x], Filtered(next, priceArray[i + 1..]));
      kf := next;
      filtered := filtered + [kf.x];
    }
    assert priceArray[|priceArray|..] == [];
    assert Filtered(kf, []) == Success([]);
    assert filtered + [] == filtered;
    return Success(filtered);
  }
}
