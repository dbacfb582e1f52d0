/** The spin outcome generator and the batch runner.

    The generator's randomness and its wall-clock reading are inputs: a `Draw`
    carries the uniform hit draw, the positive log-normal sample exp(u + s*z)
    and the timestamp that one spin consumes. */
module SimulationEngine {
  import opened Types

  /** Floor applied to a hit's multiplier. */
  const MinMultiplier: real := 0.1
  /** Cap applied to a hit's multiplier. */
  const MaxMultiplier: real := 5000.0

  datatype Draw = Draw(hit: real, sample: real, at: int)

  /** A uniform draw in [0, 1) and a log-normal sample, which is always positive. */
  predicate ValidDraw(d: Draw) {
    0.0 <= d.hit < 1.0 && d.sample > 0.0
  }

  predicate ValidDraws(ds: seq<Draw>) {
    forall i :: 0 <= i < |ds| ==> ValidDraw(ds[i])
  }

  /** The spin is a hit exactly when the uniform draw falls below the hit frequency. */
  predicate IsHit(config: SlotConfig, d: Draw) {
    d.hit < config.hitFreq
  }

  // ---------------------------------------------------------------------------
  // Rounding to two decimals

  /** `parseFloat(x.toFixed(2))` on exact reals for x >= 0: the nearest multiple of 0.01,
      halves rounded up. (For negative ties `toFixed` rounds away from zero; the model only
      rounds clamped multipliers, which lie in [0.1, 5000].) */
  function Round2(x: real): (r: real)
    ensures x - 0.005 < r <= x + 0.005
  {
    ((x * 100.0 + 0.5).Floor as real) / 100.0
  }

  /** Every value with two decimals is a fixed point of the rounding. */
  lemma Round2Exact(k: int)
    ensures Round2(k as real / 100.0) == k as real / 100.0
  {
    var y := (k as real / 100.0) * 100.0 + 0.5;
    assert y == k as real + 0.5;
    assert y.Floor == k;
  }

  lemma Round2FixesBounds()
    ensures Round2(MinMultiplier) == MinMultiplier
    ensures Round2(MaxMultiplier) == MaxMultiplier
  {
    Round2Exact(10);
    assert 10 as real / 100.0 == MinMultiplier;
    Round2Exact(500000);
    assert 500000 as real / 100.0 == MaxMultiplier;
  }

  lemma Round2Monotone(x: real, y: real)
    requires x <= y
    ensures Round2(x) <= Round2(y)
  {
    var fx := (x * 100.0 + 0.5).Floor;
    var fy := (y * 100.0 + 0.5).Floor;
    assert fx as real <= x * 100.0 + 0.5 <= y * 100.0 + 0.5 < fy as real + 1.0;
    assert fx <= fy;
  }

  /** Rounding keeps a clamped multiplier inside the clamp range. */
  lemma Round2StaysInRange(m: real)
    requires MinMultiplier <= m <= MaxMultiplier
    ensures MinMultiplier <= Round2(m) <= MaxMultiplier
  {
    Round2FixesBounds();
    Round2Monotone(MinMultiplier, m);
    Round2Monotone(m, MaxMultiplier);
  }

  // ---------------------------------------------------------------------------
  // The multiplier of a hit

  /** The log-normal sample scaled so that hits pay `rtp` percent on average over all spins. */
  function RawMultiplier(config: SlotConfig, sample: real): real
    requires config.hitFreq > 0.0
  {
    sample * (config.rtp / 100.0) * (1.0 / config.hitFreq)
  }

  lemma RawMultiplierPositive(config: SlotConfig, sample: real)
    requires sample > 0.0 && config.rtp > 0.0 && config.hitFreq > 0.0
    ensures RawMultiplier(config, sample) > 0.0
  {
    var a := config.rtp / 100.0;
    var b := 1.0 / config.hitFreq;
    assert a > 0.0 && b > 0.0;
    assert sample * a > 0.0;
  }

  /** The raw multiplier with small wins floored to 0.1, then extreme ones capped at 5000. */
  function Clamp(m: real): (r: real)
    ensures MinMultiplier <= r <= MaxMultiplier
    ensures MinMultiplier <= m <= MaxMultiplier ==> r == m
    ensures m < MinMultiplier ==> r == MinMultiplier
    ensures m > MaxMultiplier ==> r == MaxMultiplier
  {
    var floored := if m < MinMultiplier then MinMultiplier else m;
    if floored > MaxMultiplier then MaxMultiplier else floored
  }

  // ---------------------------------------------------------------------------
  // One spin

  /** A miss pays nothing and reports multiplier 0; a hit pays `stake` times the clamped
      multiplier and reports that multiplier rounded to two decimals. */
  function CalculateSpinResult(stake: real, config: SlotConfig, d: Draw): (r: SpinResult)
    requires ValidDraw(d)
    ensures r.stake == stake && r.timestamp == d.at
    ensures !IsHit(config, d) ==> r == SpinResult(0.0, stake, 0.0, d.at)
    ensures IsHit(config, d) ==>
              config.hitFreq > 0.0 &&
              r.win == stake * Clamp(RawMultiplier(config, d.sample)) &&
              r.multiplier == Round2(Clamp(RawMultiplier(config, d.sample)))
    ensures IsHit(config, d) ==> MinMultiplier <= r.multiplier <= MaxMultiplier
  {
    if !(d.hit < config.hitFreq) then
      SpinResult(0.0, stake, 0.0, d.at)
    else
      var multiplier := Clamp(RawMultiplier(config, d.sample));
      Round2StaysInRange(multiplier);
      SpinResult(stake * multiplier, stake, Round2(multiplier), d.at)
  }

  /** The reported win is computed from the unrounded multiplier, so it differs from
      stake times the reported multiplier by at most half a cent per unit of stake. */
  lemma WinRoundingError(stake: real, config: SlotConfig, d: Draw)
    requires ValidDraw(d) && stake >= 0.0
    ensures var r := CalculateSpinResult(stake, config, d);
            -(stake * 0.005) <= r.win - stake * r.multiplier <= stake * 0.005
  {
    var r := CalculateSpinResult(stake, config, d);
    if IsHit(config, d) {
      var m := Clamp(RawMultiplier(config, d.sample));
      var e := m - Round2(m);
      assert -0.005 <= e <= 0.005;
      assert r.win - stake * r.multiplier == stake * e;
      MulBetween(stake, e, 0.005);
      assert stake * e <= stake * 0.005;
      assert r.win - stake * r.multiplier <= stake * 0.005;
    }
  }

  lemma MulBetween(a: real, e: real, bound: real)
    requires a >= 0.0 && -bound <= e <= bound
    ensures -(a * bound) <= a * e <= a * bound
  {
    assert a * (bound - e) >= 0.0;
    assert a * (e + bound) >= 0.0;
  }

  /** For a positive stake: a zero multiplier, a zero win and a miss are the same thing,
      and the outcome is well formed. */
  lemma SpinOutcomeCases(stake: real, config: SlotConfig, d: Draw)
    requires ValidDraw(d) && stake > 0.0
    ensures var r := CalculateSpinResult(stake, config, d);
            (r.multiplier == 0.0 <==> !IsHit(config, d)) &&
            (r.win == 0.0 <==> !IsHit(config, d)) &&
            ValidResult(r)
  {
    var r := CalculateSpinResult(stake, config, d);
    if IsHit(config, d) {
      var m := Clamp(RawMultiplier(config, d.sample));
      assert m >= MinMultiplier;
      assert r.win == stake * m;
      assert stake * m > 0.0;
    }
  }

  /** A hit on a positive profile is never clamped from below because of a non-positive
      raw value: the raw multiplier is positive. */
  lemma HitRawMultiplierPositive(config: SlotConfig, d: Draw)
    requires ValidDraw(d) && IsHit(config, d) && config.rtp > 0.0
    ensures config.hitFreq > 0.0 && RawMultiplier(config, d.sample) > 0.0
  {
    RawMultiplierPositive(config, d.sample);
  }

  // ---------------------------------------------------------------------------
  // A batch of spins

  /** The outcomes of spinning once per draw, in draw order. */
  function Batch(config: SlotConfig, stake: real, draws: seq<Draw>): seq<SpinResult>
    requires ValidDraws(draws)
  {
    seq(|draws|, i requires 0 <= i < |draws| => CalculateSpinResult(stake, config, draws[i]))
  }

  /** `iterations` spins, appended to the result in the order they are generated. */
  method RunBatchSimulation(config: SlotConfig, iterations: nat, stake: real, draws: seq<Draw>)
    returns (results: seq<SpinResult>)
    requires |draws| == iterations && ValidDraws(draws)
    ensures |results| == iterations
    ensures results == Batch(config, stake, draws)
  {
    results := [];
    var i := 0;
    while i < iterations
      invariant 0 <= i <= iterations
      invariant |results| == i
      invariant forall k :: 0 <= k < i ==> results[k] == CalculateSpinResult(stake, config, draws[k])
    {
      results := results + [CalculateSpinResult(stake, config, draws[i])];
      i := i + 1;
    }
    assert forall k :: 0 <= k < iterations ==> results[k] == Batch(config, stake, draws)[k];
  }

  /** Every outcome of a batch at a positive stake is well formed and carries that stake. */
  lemma BatchValid(config: SlotConfig, stake: real, draws: seq<Draw>)
    requires ValidDraws(draws) && stake > 0.0
    ensures forall i :: 0 <= i < |draws| ==>
              ValidResult(Batch(config, stake, draws)[i]) && Batch(config, stake, draws)[i].stake == stake
  {
    forall i | 0 <= i < |draws|
      ensures ValidResult(Batch(config, stake, draws)[i])
    {
      SpinOutcomeCases(stake, config, draws[i]);
    }
  }
}
