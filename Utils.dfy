/** The static helpers of the source's Utils class: grid snapping and
    normally distributed samples drawn with the polar Box-Muller method. */
module Utils {
  import opened Mathf
  import opened UnityEngine
  import opened Arith


  /** The value is a whole number of steps. */
  ghost predicate IsMultiple(value: real, step: real) {
    exists k: int :: value == Steps(k, step)
  }

  /** k whole steps. */
  function Steps(k: int, step: real): real {
    k as real * step
  }

  /** Utils.SnapToGrid: the nearest whole number of steps, a tie going to the
      even count of steps. A step of zero (a float NaN in the source) is not
      in the model. */
  function SnapToGrid(value: real, snapValue: real): real
    requires snapValue != 0.0
  {
    Round(value / snapValue) as real * snapValue
  }

  /** The snapped value lies on the grid of the step. */
  lemma SnapIsMultiple(value: real, step: real)
    requires step != 0.0
    ensures IsMultiple(SnapToGrid(value, step), step)
  {
    var k := Round(value / step);
    assert SnapToGrid(value, step) == Steps(k, step);
  }

  /** Snapping moves a value by at most half a step. */
  lemma SnapError(value: real, step: real)
    requires step != 0.0
    ensures Abs(SnapToGrid(value, step) - value) <= Abs(step) / 2.0
  {
    var q := value / step;
    DivMul(value, step);
    assert SnapToGrid(value, step) - value == Round(q) as real * step - q * step;
    RoundingError(q, Round(q) as real, step);
  }

  /** A value already on the grid is left where it is. */
  lemma SnapOfMultiple(k: int, step: real)
    requires step != 0.0
    ensures SnapToGrid(k as real * step, step) == k as real * step
  {
    assert (k as real * step) / step == k as real;
    RoundOfInteger(k);
  }

  /** Snapping twice is snapping once. */
  lemma SnapIdempotent(value: real, step: real)
    requires step != 0.0
    ensures SnapToGrid(SnapToGrid(value, step), step) == SnapToGrid(value, step)
  {
    var k := Round(value / step);
    assert SnapToGrid(value, step) == k as real * step;
    SnapOfMultiple(k, step);
  }

  // ---------------------------------------------------------------------------
  // NextGaussian

  /** The coordinate 2 * Random.value - 1 of a point in the square [-1, 1]^2. */
  function Coordinate(u: Uniform): (v: real)
    ensures -1.0 <= v <= 1.0
  {
    2.0 * u - 1.0
  }

  /** s = v1 * v1 + v2 * v2, the squared length of the drawn point. */
  function SquaredLength(u1: Uniform, u2: Uniform): real {
    Coordinate(u1) * Coordinate(u1) + Coordinate(u2) * Coordinate(u2)
  }

  /** The retry condition of NextGaussian's do-while loop. */
  predicate Rejected(u1: Uniform, u2: Uniform) {
    var s := SquaredLength(u1, u2);
    s >= 1.0 || s == 0.0
  }

  /** The pair of draws number j (draws 2j and 2j+1) is rejected. */
  predicate PairRejected(draws: seq<Uniform>, j: int)
    requires 0 <= j && 2 * j + 1 < |draws|
  {
    Rejected(draws[2 * j], draws[2 * j + 1])
  }

  /** The polar transform applied to an accepted pair: v1 * sqrt(-2 ln(s) / s).
      The division by s is defined because an accepted s is not 0. */
  function Polar(e: Engine, u1: Uniform, u2: Uniform): real
    requires !Rejected(u1, u2)
  {
    var s := SquaredLength(u1, u2);
    Coordinate(u1) * e.sqrt((-2.0 * e.ln(s)) / s)
  }

  /** An accepted pair lies strictly inside the unit disc and off its centre,
      so the logarithm is taken of a positive number below one and, on a
      lawful engine, the square root of a positive one. */
  lemma AcceptedPairInsideDisc(e: Engine, u1: Uniform, u2: Uniform)
    requires !Rejected(u1, u2)
    ensures 0.0 < SquaredLength(u1, u2) < 1.0
    ensures Lawful(e) ==> 0.0 < (-2.0 * e.ln(SquaredLength(u1, u2))) / SquaredLength(u1, u2)
  {
    var s := SquaredLength(u1, u2);
    assert 0.0 <= Coordinate(u1) * Coordinate(u1);
    assert 0.0 <= Coordinate(u2) * Coordinate(u2);
    if Lawful(e) {
      assert e.ln(s) < 0.0;
      assert 0.0 < -2.0 * e.ln(s);
    }
  }

  /** The value the parameterless NextGaussian returns from a sequence of
      draws: pairs are taken until one is accepted. */
  function StandardGaussian(e: Engine, draws: seq<Uniform>): (r: Draw<real>)
    ensures r.Drawn? ==> |r.rest| + 2 <= |draws|
    decreases |draws|
  {
    if |draws| < 2 then Exhausted
    else if Rejected(draws[0], draws[1]) then StandardGaussian(e, draws[2..])
    else Drawn(Polar(e, draws[0], draws[1]), draws[2..])
  }

  /** What StandardGaussian means, pair by pair: on success every earlier pair
      was rejected, pair k was accepted, the value is its polar transform and
      the draws after it are left over. */
  lemma {:induction false} StandardGaussianAccepts(e: Engine, draws: seq<Uniform>)
    requires StandardGaussian(e, draws).Drawn?
    ensures var r := StandardGaussian(e, draws);
      var k := (|draws| - |r.rest|) / 2 - 1;
      && 0 <= k && 2 * k + 2 == |draws| - |r.rest| && r.rest == draws[2 * k + 2..]
      && (forall j :: 0 <= j < k ==> PairRejected(draws, j))
      && !PairRejected(draws, k)
      && r.value == Polar(e, draws[2 * k], draws[2 * k + 1])
    decreases |draws|
  {
    var r := StandardGaussian(e, draws);
    if Rejected(draws[0], draws[1]) {
      var tail := draws[2..];
      assert r == StandardGaussian(e, tail);
      StandardGaussianAccepts(e, tail);
      PairsOfTail(draws);
      var k := (|tail| - |r.rest|) / 2 - 1;
      assert |draws| - |r.rest| == 2 * (k + 1) + 2;
      assert (|draws| - |r.rest|) / 2 - 1 == k + 1;
      assert draws[2 * (k + 1)] == tail[2 * k] && draws[2 * (k + 1) + 1] == tail[2 * k + 1];
      assert tail[2 * k + 2..] == draws[2 * (k + 1) + 2..];
    } else {
      assert |draws| - |r.rest| == 2;
    }
  }

  /** Running out: every whole pair of the draws was rejected. */
  lemma {:induction false} StandardGaussianExhausted(e: Engine, draws: seq<Uniform>)
    requires StandardGaussian(e, draws).Exhausted?
    ensures forall j :: 0 <= j < |draws| / 2 ==> PairRejected(draws, j)
    decreases |draws|
  {
    if |draws| >= 2 {
      StandardGaussianExhausted(e, draws[2..]);
      PairsOfTail(draws);
    }
  }

  /** Pair j + 1 of the draws is pair j of what follows the first pair. */
  lemma PairsOfTail(draws: seq<Uniform>)
    requires |draws| >= 2
    ensures forall j :: 1 <= j && 2 * j + 1 < |draws| ==>
      PairRejected(draws, j) == PairRejected(draws[2..], j - 1)
  {
    forall j | 1 <= j && 2 * j + 1 < |draws|
      ensures PairRejected(draws, j) == PairRejected(draws[2..], j - 1)
    {
      assert draws[2 * j] == draws[2..][2 * (j - 1)];
      assert draws[2 * j + 1] == draws[2..][2 * (j - 1) + 1];
    }
  }

  /** One round of StandardGaussian, taken at position i of the draws. */
  lemma StandardGaussianStep(e: Engine, draws: seq<Uniform>, i: nat)
    requires i + 2 <= |draws|
    ensures StandardGaussian(e, draws[i..]) ==
      if Rejected(draws[i], draws[i + 1]) then StandardGaussian(e, draws[i + 2..])
      else Drawn(Polar(e, draws[i], draws[i + 1]), draws[i + 2..])
  {
    assert draws[i..][2..] == draws[i + 2..];
  }

  /** Utils.NextGaussian(): the polar Box-Muller method's do-while loop. */
  method NextGaussian(e: Engine, draws: seq<Uniform>) returns (r: Draw<real>)
    ensures r == StandardGaussian(e, draws)
  {
    var i := 0;
    var v1, v2, s := 0.0, 0.0, 0.0;
    while true
      invariant 0 <= i <= |draws|
      invariant StandardGaussian(e, draws[i..]) == StandardGaussian(e, draws)
      decreases |draws| - i
    {
      if |draws| - i < 2 {
        return Exhausted;
      }
      v1 := 2.0 * (draws[i] as real) - 1.0;
      v2 := 2.0 * (draws[i + 1] as real) - 1.0;
      s := v1 * v1 + v2 * v2;
      assert s == SquaredLength(draws[i], draws[i + 1]);
      StandardGaussianStep(e, draws, i);
      if !(s >= 1.0 || s == 0.0) {
        assert v1 == Coordinate(draws[i]);
        assert !Rejected(draws[i], draws[i + 1]);
        assert v1 * e.sqrt((-2.0 * e.ln(s)) / s) == Polar(e, draws[i], draws[i + 1]);
        r := Drawn(v1 * e.sqrt((-2.0 * e.ln(s)) / s), draws[i + 2..]);
        assert r == StandardGaussian(e, draws);
        i := i + 2;
        break;
      }
      i := i + 2;
    }
  }

  /** The value of NextGaussian(mean, standard_deviation): mean + g * sd for the
      standard sample g. */
  function Gaussian(e: Engine, mean: real, sd: real, draws: seq<Uniform>): (r: Draw<real>)
    ensures r.Drawn? ==> |r.rest| + 2 <= |draws|
  {
    match StandardGaussian(e, draws)
    case Exhausted => Exhausted
    case Drawn(g, rest) => Drawn(mean + g * sd, rest)
  }

  /** A sample of NextGaussian(mean, sd) is the standard sample taken from the
      same draws, scaled by sd and shifted by mean; it leaves the same draws. */
  lemma GaussianStandardises(e: Engine, mean: real, sd: real, draws: seq<Uniform>)
    ensures Gaussian(e, mean, sd, draws).Drawn? <==> StandardGaussian(e, draws).Drawn?
    ensures Gaussian(e, mean, sd, draws).Drawn? ==>
      && Gaussian(e, mean, sd, draws).rest == StandardGaussian(e, draws).rest
      && Gaussian(e, mean, sd, draws).value - mean == StandardGaussian(e, draws).value * sd
  {
  }

  /** A zero standard deviation always yields the mean. */
  lemma GaussianWithoutSpread(e: Engine, mean: real, draws: seq<Uniform>)
    requires Gaussian(e, mean, 0.0, draws).Drawn?
    ensures Gaussian(e, mean, 0.0, draws).value == mean
  {
  }

  /** Utils.NextGaussian(mean, standard_deviation). */
  method NextGaussianWith(e: Engine, mean: real, sd: real, draws: seq<Uniform>) returns (r: Draw<real>)
    ensures r == Gaussian(e, mean, sd, draws)
    ensures r.Drawn? ==> |r.rest| + 2 <= |draws|
  {
    var g := NextGaussian(e, draws);
    if g.Exhausted? {
      return Exhausted;
    }
    r := Drawn(mean + g.value * sd, g.rest);
    GaussianStandardises(e, mean, sd, draws);
    assert Gaussian(e, mean, sd, draws).value == r.value;
  }

  /** The value of NextGaussian(mean, sd, min, max): samples are drawn until one
      falls in [min, max]. */
  function BoundedGaussian(e: Engine, mean: real, sd: real, min: real, max: real, draws: seq<Uniform>): (r: Draw<real>)
    ensures r.Drawn? ==> min <= r.value <= max
    ensures r.Drawn? ==> |r.rest| + 2 <= |draws|
    decreases |draws|
  {
    match Gaussian(e, mean, sd, draws)
    case Exhausted => Exhausted
    case Drawn(x, rest) =>
      if x < min || x > max then BoundedGaussian(e, mean, sd, min, max, rest)
      else Drawn(x, rest)
  }

  /** Utils.NextGaussian(mean, sd, min, max): the retry loop. */
  method NextGaussianBetween(e: Engine, mean: real, sd: real, min: real, max: real, draws: seq<Uniform>)
    returns (r: Draw<real>)
    ensures r == BoundedGaussian(e, mean, sd, min, max, draws)
    ensures r.Drawn? ==> min <= r.value <= max
  {
    var rest := draws;
    var x: real;
    while true
      invariant BoundedGaussian(e, mean, sd, min, max, rest) == BoundedGaussian(e, mean, sd, min, max, draws)
      decreases |rest|
    {
      var d := NextGaussianWith(e, mean, sd, rest);
      if d.Exhausted? {
        return Exhausted;
      }
      x, rest := d.value, d.rest;
      if !(x < min || x > max) {
        break;
      }
    }
    r := Drawn(x, rest);
  }
}
