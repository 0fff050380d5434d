/**
 The seed-then-fold driver `run_kf`: seed a filter with the first sample, then
 run one predict/update round per sample, in order, and collect each
 post-update estimate. The driver is defined twice in the same script,
 identical apart from a docstring; both copies are this one function.
 */
module KalmanSensitivity {
  import opened KalmanFilter
  import opened Results

  /** The driver loop from filter `f`: one round per sample of `ys`, collecting
      the estimates. It fails only where a round's update would divide by zero. */
  function Filtered(f: Filter, ys: seq<real>): (out: Result<seq<real>>)
    ensures out.Success? ==> |out.value| == |ys|
    ensures out.Failure? ==> out.error == ZeroDivision && |ys| > 0
    decreases |ys|
  {
    if |ys| == 0 then Success([])
    else if !CanStep(f) then Failure(ZeroDivision)
    else
      var g := Step(f, ys[0]);
      Prepend([g.x], Filtered(g, ys[1..]))
  }

  /** Reference definition: the filter after one round per sample of `ys`, or
      `None` when some round divides by zero. */
  function FinalState(f: Filter, ys: seq<real>): Option<Filter>
    decreases |ys|
  {
    if |ys| == 0 then Some(f)
    else if !CanStep(f) then None
    else FinalState(Step(f, ys[0]), ys[1..])
  }

  /** The driver's output at position `n - 1` is the estimate after exactly `n`
      rounds, and the driver succeeds exactly when every round is defined. */
  lemma {:induction false} FilteredIsRoundByRound(f: Filter, ys: seq<real>)
    ensures Filtered(f, ys).Success? <==> FinalState(f, ys).Some?
    ensures Filtered(f, ys).Success? ==>
      forall n :: 0 < n <= |ys| ==>
        FinalState(f, ys[..n]).Some? && Filtered(f, ys).value[n - 1] == FinalState(f, ys[..n]).value.x
    decreases |ys|
  {
    if |ys| > 0 && CanStep(f) {
      var g := Step(f, ys[0]);
      FilteredIsRoundByRound(g, ys[1..]);
      if Filtered(f, ys).Success? {
        var out := Filtered(f, ys).value;
        assert out == [g.x] + Filtered(g, ys[1..]).value;
        forall n | 0 < n <= |ys|
          ensures FinalState(f, ys[..n]).Some? && out[n - 1] == FinalState(f, ys[..n]).value.x
        {
          assert ys[..n][0] == ys[0];
          assert FinalState(f, ys[..n]) == FinalState(g, ys[..n][1..]);
          assert ys[..n][1..] == ys[1..][..n - 1];
          if n > 1 {
            assert out[n - 1] == Filtered(g, ys[1..]).value[(n - 1) - 1];
          }
        }
      }
    }
  }

  /** From a filter with non-negative `q`, `r` and `p`, every collected estimate
      stays within any interval holding the current estimate and all samples. */
  lemma {:induction false} FilteredWithin(f: Filter, ys: seq<real>, lo: real, hi: real)
    requires 0.0 <= f.q && 0.0 <= f.r && 0.0 <= f.p
    requires lo <= f.x <= hi
    requires forall j :: 0 <= j < |ys| ==> lo <= ys[j] <= hi
    ensures Filtered(f, ys).Success? ==>
      forall i :: 0 <= i < |ys| ==> lo <= Filtered(f, ys).value[i] <= hi
    decreases |ys|
  {
    if |ys| > 0 && CanStep(f) {
      var g := Step(f, ys[0]);
      assert Between(f.x, ys[0], g.x);
      FilteredWithin(g, ys[1..], lo, hi);
    }
  }

  /** A valid filter never reaches a zero denominator. */
  lemma {:induction false} FilteredValid(f: Filter, ys: seq<real>)
    requires Valid(f)
    ensures Filtered(f, ys).Success?
    decreases |ys|
  {
    if |ys| > 0 {
      ValidStep(f, ys[0]);
      FilteredValid(Step(f, ys[0]), ys[1..]);
    }
  }

  /** From a filter whose estimate already equals `v`, a series of `v`s yields only `v`s. */
  lemma {:induction false} FilteredConstant(f: Filter, ys: seq<real>, v: real)
    requires f.x == v
    requires forall j :: 0 <= j < |ys| ==> ys[j] == v
    ensures Filtered(f, ys).Success? ==> forall i :: 0 <= i < |ys| ==> Filtered(f, ys).value[i] == v
    decreases |ys|
  {
    if |ys| > 0 && CanStep(f) {
      FilteredConstant(Step(f, ys[0]), ys[1..], v);
    }
  }

  /** `run_kf`: seed with the first sample and the default variance, then fold. */
  function RunKf(observedPrice: seq<real>, q: real, r: real): (out: Result<seq<real>>)
    ensures |observedPrice| == 0 <==> out == Failure(EmptySeries)
    ensures out.Failure? ==> out.error == EmptySeries || out.error == ZeroDivision
    ensures out.Success? ==> |out.value| == |observedPrice|
  {
    if |observedPrice| == 0 then Failure(EmptySeries)
    else Filtered(Init(q, r, observedPrice[0]), observedPrice)
  }

  /** Output `n - 1` is the estimate after `n` rounds from the seeded filter, in input order. */
  lemma RunKfRounds(observedPrice: seq<real>, q: real, r: real)
    requires |observedPrice| > 0
    ensures RunKf(observedPrice, q, r).Success? <==>
      FinalState(Init(q, r, observedPrice[0]), observedPrice).Some?
    ensures RunKf(observedPrice, q, r).Success? ==>
      forall n :: 0 < n <= |observedPrice| ==>
        FinalState(Init(q, r, observedPrice[0]), observedPrice[..n]).Some? &&
        RunKf(observedPrice, q, r).value[n - 1] == FinalState(Init(q, r, observedPrice[0]), observedPrice[..n]).value.x
  {
    FilteredIsRoundByRound(Init(q, r, observedPrice[0]), observedPrice);
  }

  /** With `q >= 0` and `r > 0` the driver never divides by zero. */
  lemma RunKfSucceeds(observedPrice: seq<real>, q: real, r: real)
    requires |observedPrice| > 0
    requires 0.0 <= q && 0.0 < r
    ensures RunKf(observedPrice, q, r).Success?
  {
    FilteredValid(Init(q, r, observedPrice[0]), observedPrice);
  }

  /** The first output is the first sample: the seed equals it, so the first blend moves by `k * 0`. */
  lemma RunKfFirst(observedPrice: seq<real>, q: real, r: real)
    requires RunKf(observedPrice, q, r).Success?
    ensures RunKf(observedPrice, q, r).value[0] == observedPrice[0]
  {
    var f := Init(q, r, observedPrice[0]);
    var g := Step(f, observedPrice[0]);
    assert RunKf(observedPrice, q, r) == Prepend([g.x], Filtered(g, observedPrice[1..]));
  }

  /** A constant series is filtered to itself. */
  lemma RunKfConstant(observedPrice: seq<real>, q: real, r: real, v: real)
    requires forall j :: 0 <= j < |observedPrice| ==> observedPrice[j] == v
    ensures RunKf(observedPrice, q, r).Success? ==>
      RunKf(observedPrice, q, r).value == observedPrice
  {
    if |observedPrice| > 0 {
      FilteredConstant(Init(q, r, observedPrice[0]), observedPrice, v);
    }
  }

  /** With non-negative `q` and `r`, every output lies within the range of the samples. */
  lemma RunKfWithinRange(observedPrice: seq<real>, q: real, r: real, lo: real, hi: real)
    requires 0.0 <= q && 0.0 <= r
    requires forall j :: 0 <= j < |observedPrice| ==> lo <= observedPrice[j] <= hi
    ensures RunKf(observedPrice, q, r).Success? ==>
      forall i :: 0 <= i < |observedPrice| ==> lo <= RunKf(observedPrice, q, r).value[i] <= hi
  {
    if |observedPrice| > 0 {
      FilteredWithin(Init(q, r, observedPrice[0]), observedPrice, lo, hi);
    }
  }

  /** A constant series of three equal samples with q = 0, r = 1. */
  lemma RunKfScenarioConstant(v: real)
    ensures RunKf([v, v, v], 0.0, 1.0) == Success([v, v, v])
  {
    RunKfSucceeds([v, v, v], 0.0, 1.0);
    RunKfConstant([v, v, v], 0.0, 1.0, v);
  }

  /** With q = 0 and r = 0 the second round divides zero by zero. */
  lemma RunKfScenarioDegenerate(a: real, b: real, c: real)
    ensures RunKf([a, b, c], 0.0, 0.0) == Failure(ZeroDivision)
  {
    var f := Init(0.0, 0.0, a);
    DegenerateNoise(a, a);
    var g := Step(f, a);
    assert Filtered(g, [b, c]) == Failure(ZeroDivision);
    assert [a, b, c][1..] == [b, c];
  }
}
