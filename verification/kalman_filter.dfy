/**
 The scalar Kalman filter. The latent state takes a random walk whose steps
 have variance `q`, and each observation adds noise of variance `r`.

 The filter holds the estimate `x` and its error variance `p`, and two fixed
 hyperparameters `q` (process noise variance) and `r` (observation noise
 variance). `Predict` and `Update` are the two state transitions; arithmetic
 is exact over `real`.
 */
module KalmanFilter {

  /** One filter instance: the two hyperparameters and the two mutable scalars. */
  datatype Filter = Filter(q: real, r: real, x: real, p: real)

  /** The variance every new filter starts from. */
  const InitialVariance: real := 1.0

  /** `v` lies on the closed segment between `a` and `b`, in either orientation. */
  predicate Between(a: real, b: real, v: real) {
    (a <= v <= b) || (b <= v <= a)
  }

  /** A sufficient condition on states for every sequence of calls to stay well defined. */
  predicate Valid(f: Filter) {
    0.0 <= f.q && 0.0 < f.r && 0.0 <= f.p
  }

  /** Construction: the estimate is seeded by the caller, the variance by a fixed default. */
  function Init(q: real, r: real, initialState: real): (f: Filter)
    ensures f.q == q && f.r == r
    ensures f.x == initialState && f.p == InitialVariance
    ensures 0.0 <= q && 0.0 < r ==> Valid(f)
  {
    Filter(q, r, initialState, InitialVariance)
  }

  /** Time update: the random walk keeps the estimate and adds `q` to the variance. */
  function Predict(f: Filter): (g: Filter)
    ensures g.q == f.q && g.r == f.r && g.x == f.x
    ensures g.p - f.p == f.q
    ensures 0.0 <= f.q ==> f.p <= g.p
    ensures Valid(f) ==> Valid(g)
  {
    f.(p := f.p + f.q)
  }

  /** The Kalman gain `p / (p + r)`; `KalmanFilter1D.update` divides without a guard. */
  function Gain(p: real, r: real): (k: real)
    requires p + r != 0.0
    ensures k * (p + r) == p
    ensures 0.0 <= p && 0.0 <= r ==> 0.0 <= k <= 1.0
    ensures 0.0 < p && 0.0 <= r ==> 0.0 < k
    ensures r == 0.0 ==> k == 1.0
    ensures p == 0.0 ==> k == 0.0
  {
    p / (p + r)
  }

  /** The variance after an update, `(1 - k) p`, equals `p r / (p + r)`. */
  lemma PosteriorVariance(p: real, r: real, k: real)
    requires p + r != 0.0
    requires k == Gain(p, r)
    ensures (1.0 - k) * p * (p + r) == p * r
  {
    calc {
      (1.0 - k) * p * (p + r);
      p * (p + r) - (k * (p + r)) * p;
      p * (p + r) - p * p;
      p * r;
    }
  }

  /** For positive `p` and `r`, a `p'` with `p' (p + r) == p r` is the harmonic combination of the two. */
  lemma ReciprocalSum(p: real, r: real, p': real)
    requires 0.0 < p && 0.0 < r
    requires p' * (p + r) == p * r
    ensures 0.0 < p' < p
    ensures 1.0 / p' == 1.0 / p + 1.0 / r
  {
    assert p' == p * r / (p + r);
    assert p * r / (p + r) < p by {
      assert p * r < p * (p + r);
    }
    assert 0.0 < p * r;
    calc {
      1.0 / p + 1.0 / r;
      (r + p) / (p * r);
      1.0 / (p * r / (p + r));
    }
  }

  /** The product of two non-negative reals is non-negative. */
  lemma NonnegProduct(u: real, v: real)
    requires 0.0 <= u && 0.0 <= v
    ensures 0.0 <= u * v
  {
  }

  /** A convex blend with weight in [0, 1] lands between its two ends. */
  lemma BlendBetween(a: real, b: real, k: real)
    requires 0.0 <= k <= 1.0
    ensures Between(a, b, a + k * (b - a))
  {
    var d := b - a;
    NonnegProduct(k, if a <= b then d else -d);
    NonnegProduct(1.0 - k, if a <= b then d else -d);
  }

  /** Measurement update: blend the estimate toward `y` by the gain and shrink the variance. */
  function Update(f: Filter, y: real): (g: Filter)
    requires f.p + f.r != 0.0
    ensures g.q == f.q && g.r == f.r
    ensures g.x == (1.0 - Gain(f.p, f.r)) * f.x + Gain(f.p, f.r) * y
    ensures y == f.x ==> g.x == f.x
    ensures g.p * (f.p + f.r) == f.p * f.r
    ensures 0.0 <= f.p && 0.0 <= f.r ==> Between(f.x, y, g.x) && 0.0 <= g.p <= f.p
    ensures 0.0 < f.p && 0.0 < f.r ==> 0.0 < g.p < f.p
    ensures Valid(f) ==> Valid(g)
  {
    var k := Gain(f.p, f.r);
    UpdateFacts(f.p, f.r, f.x, y);
    f.(x := f.x + k * (y - f.x), p := (1.0 - k) * f.p)
  }

  /** The arithmetic behind `Update`'s contract, case by case on the signs of `p` and `r`. */
  lemma UpdateFacts(p: real, r: real, x: real, y: real)
    requires p + r != 0.0
    ensures (1.0 - Gain(p, r)) * p * (p + r) == p * r
    ensures 0.0 <= p && 0.0 <= r ==>
      Between(x, y, x + Gain(p, r) * (y - x)) && 0.0 <= (1.0 - Gain(p, r)) * p <= p
    ensures 0.0 < p && 0.0 < r ==>
      0.0 < (1.0 - Gain(p, r)) * p < p
  {
    var k := Gain(p, r);
    PosteriorVariance(p, r, k);
    if 0.0 <= p && 0.0 <= r {
      BlendBetween(x, y, k);
      assert 0.0 <= 1.0 - k <= 1.0;
      assert 0.0 <= (1.0 - k) * p <= p;
    }
    if 0.0 < p && 0.0 < r {
      ReciprocalSum(p, r, (1.0 - k) * p);
    }
  }

  /** In information form an update adds the observation's precision `1/r`
      to the estimate's precision `1/p`. */
  lemma UpdateAddsInformation(f: Filter, y: real)
    requires 0.0 < f.p && 0.0 < f.r
    ensures 0.0 < Update(f, y).p
    ensures 1.0 / Update(f, y).p == 1.0 / f.p + 1.0 / f.r
  {
    ReciprocalSum(f.p, f.r, Update(f, y).p);
  }

  /** A driver round can run exactly when the update after the predict does not divide by zero. */
  predicate CanStep(f: Filter) {
    Predict(f).p + f.r != 0.0
  }

  /** One driver round: predict, then update with the next sample. The round
      keeps `q` and `r`, blends the estimate toward `y` by the gain of the
      predicted variance `p + q`, and leaves the variance `(p + q) r / (p + q + r)`. */
  function Step(f: Filter, y: real): (g: Filter)
    requires CanStep(f)
    ensures g.q == f.q && g.r == f.r
    ensures g.x == (1.0 - Gain(f.p + f.q, f.r)) * f.x + Gain(f.p + f.q, f.r) * y
    ensures g.p * (f.p + f.q + f.r) == (f.p + f.q) * f.r
    ensures 0.0 <= f.q && 0.0 <= f.r && 0.0 <= f.p ==> Between(f.x, y, g.x) && 0.0 <= g.p <= f.p + f.q
    ensures Valid(f) ==> Valid(g)
  {
    Update(Predict(f), y)
  }

  /** Every valid filter can take another round, and the round keeps it valid. */
  lemma ValidStep(f: Filter, y: real)
    requires Valid(f)
    ensures CanStep(f)
    ensures Valid(Step(f, y))
    ensures Between(f.x, y, Step(f, y).x)
  {
  }

  /** A call the caller may make on a filter; the filter itself does not enforce alternation. */
  datatype Call = PredictCall | UpdateCall(observation: real)

  /** Apply a sequence of calls, in order, to a valid filter. Only `x` and `p`
      ever change, and validity (hence a non-zero update denominator) is kept. */
  function Replay(f: Filter, calls: seq<Call>): (g: Filter)
    requires Valid(f)
    ensures Valid(g)
    ensures 0.0 < g.p + g.r
    ensures g.q == f.q && g.r == f.r
    decreases |calls|
  {
    if |calls| == 0 then f
    else
      var next := match calls[0]
        case PredictCall => Predict(f)
        case UpdateCall(y) => Update(f, y);
      Replay(next, calls[1..])
  }

  /** An example step with q = 0.01, r = 1, x = 100: predict, then update with 102. */
  lemma ConcreteStep()
    ensures Predict(Init(0.01, 1.0, 100.0)).p == 1.01
    ensures Gain(1.01, 1.0) == 1.01 / 2.01
    ensures Update(Predict(Init(0.01, 1.0, 100.0)), 102.0).x == 100.0 + 2.0 * (1.01 / 2.01)
    ensures Update(Predict(Init(0.01, 1.0, 100.0)), 102.0).p == (1.0 - 1.01 / 2.01) * 1.01
    ensures Update(Predict(Init(0.01, 1.0, 100.0)), 102.0).x == 203.02 / 2.01
    ensures Update(Predict(Init(0.01, 1.0, 100.0)), 102.0).p == 1.01 / 2.01
  {
  }

  /** With no observation noise and a non-zero variance the update trusts the
      observation fully: the estimate jumps to it and no variance is left. */
  lemma NoiselessUpdate(f: Filter, y: real)
    requires f.r == 0.0 && f.p != 0.0
    ensures Update(f, y) == Filter(f.q, f.r, y, 0.0)
  {
    var g := Update(f, y);
    assert Gain(f.p, f.r) == 1.0;
    assert g.x == y;
    assert g.p * f.p == 0.0;
  }

  /** With q = 0 and r = 0 the first round trusts the observation fully and leaves no
      variance, so the next round's update would divide zero by zero. */
  lemma DegenerateNoise(initialState: real, y: real)
    ensures Step(Init(0.0, 0.0, initialState), y) == Filter(0.0, 0.0, y, 0.0)
    ensures !CanStep(Step(Init(0.0, 0.0, initialState), y))
  {
    NoiselessUpdate(Predict(Init(0.0, 0.0, initialState)), y);
  }
}
