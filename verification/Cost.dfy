/** The cost curves, and the positive minimum each of them charges. */
module Cost {
  import opened Common

  /** Cost of a prefill batch. */
  datatype PrefillCurve = PrefillCurve(
    tokensPerMs: real, overheadMs: real, multiseqGain: real, multiseqSaturation: real)
  {
    predicate Valid() {
      tokensPerMs > 0.0 && overheadMs >= 0.0 && multiseqGain >= 0.0 && multiseqSaturation >= 1.0
    }

    /** The share of the full gain that `n` sequences realise. */
    function Fraction(n: nat): real {
      (MinReal(MaxReal(n as real, 1.0), multiseqSaturation) - 1.0)
      / MaxReal(multiseqSaturation - 1.0, 1.0)
    }

    function RateAt(n: nat): real { tokensPerMs * (1.0 + multiseqGain * Fraction(n)) }

    function BatchMs(tokens: nat, n: nat): real
      requires Valid()
    {
      if tokens == 0 then 0.0
      else
        RateIsPositive(this, n);
        overheadMs + tokens as real / RateAt(n)
    }

    /** What even the smallest batch costs. */
    function LeastMs(): real
      requires Valid()
    {
      PeakIsPositive(this);
      overheadMs + 1.0 / Peak()
    }

    function Peak(): real { tokensPerMs * (1.0 + multiseqGain) }
  }

  lemma PeakIsPositive(c: PrefillCurve)
    requires c.Valid()
    ensures c.Peak() > 0.0
  {
  }

  lemma QuotientBetween(x: real, y: real)
    requires 0.0 <= x <= y && y >= 1.0
    ensures 0.0 <= x / y <= 1.0
  {
    var q := x / y;
    assert q * y == x;
    assert q < 0.0 ==> q * y < 0.0;
    assert q > 1.0 ==> q * y > y;
  }

  lemma FractionIsShare(c: PrefillCurve, n: nat)
    requires c.Valid()
    ensures 0.0 <= c.Fraction(n) <= 1.0
  {
    var sat := c.multiseqSaturation;
    QuotientBetween(MinReal(MaxReal(n as real, 1.0), sat) - 1.0, MaxReal(sat - 1.0, 1.0));
  }

  lemma Scale(k: real, x: real, y: real)
    requires k >= 0.0 && x <= y
    ensures k * x <= k * y
  {
  }

  lemma ShareAtMost(k: real, f: real)
    requires k >= 0.0 && f <= 1.0
    ensures k * f <= k
  {
    Scale(k, f, 1.0);
  }

  lemma ProductNonNegative(x: real, y: real)
    requires x >= 0.0 && y >= 0.0
    ensures x * y >= 0.0
  {
  }

  lemma RateIsPositive(c: PrefillCurve, n: nat)
    requires c.Valid()
    ensures 0.0 < c.tokensPerMs <= c.RateAt(n) <= c.Peak()
  {
    FractionIsShare(c, n);
    GainBetween(c.tokensPerMs, c.multiseqGain, c.Fraction(n));
  }

  lemma GainBetween(rate: real, gain: real, share: real)
    requires rate > 0.0 && gain >= 0.0 && 0.0 <= share <= 1.0
    ensures rate <= rate * (1.0 + gain * share) <= rate * (1.0 + gain)
  {
    var g := gain * share;
    ProductNonNegative(gain, share);
    ShareAtMost(gain, share);
    Scale(rate, 1.0, 1.0 + g);
    assert rate * 1.0 == rate;
    Scale(rate, 1.0 + g, 1.0 + gain);
  }

  lemma QuotientGrows(a: real, r: real, p: real)
    requires a >= 1.0 && 0.0 < r <= p
    ensures a / r >= 1.0 / p > 0.0
  {
    var u, v := a / r, 1.0 / p;
    assert u * r == a && v * p == 1.0;
    assert v <= 0.0 ==> v * p <= 0.0;
    Scale(v, r, p);
    assert u < v ==> u * r < v * r;
  }

  /** A batch with anything in it takes at least the curve's positive minimum. */
  lemma BatchTakesTime(c: PrefillCurve, tokens: nat, n: nat)
    requires c.Valid() && tokens > 0
    ensures c.BatchMs(tokens, n) >= c.LeastMs() > 0.0
  {
    RateIsPositive(c, n);
    QuotientGrows(tokens as real, c.RateAt(n), c.Peak());
  }

  /** Cost of a decode step, with an optional knee past which it rises faster. */
  datatype DecodeCurve = DecodeCurve(
    baseMs: real, slopeMs: real, knee: Option<real>, kneePenalty: real)
  {
    predicate Valid() { baseMs > 0.0 && slopeMs >= 0.0 && kneePenalty >= 0.0 }

    function StepMs(concurrency: nat): real {
      var n := concurrency as real;
      var linear := baseMs + slopeMs * n;
      if knee.None? || n <= knee.value then linear
      else linear + (n - knee.value) * slopeMs * kneePenalty
    }
  }

  /** A step never takes less than the base, whatever runs. */
  lemma StepTakesTime(c: DecodeCurve, concurrency: nat)
    requires c.Valid()
    ensures c.StepMs(concurrency) >= c.baseMs > 0.0
  {
    var n := concurrency as real;
    ProductNonNegative(c.slopeMs, n);
    if c.knee.Some? && n > c.knee.value {
      ProductNonNegative(n - c.knee.value, c.slopeMs);
      ProductNonNegative((n - c.knee.value) * c.slopeMs, c.kneePenalty);
    }
  }

  /** Residual cost of handing one request's KV to decode: half a millisecond and the bytes over the
      fabric bandwidth. */
  function TransferMs(layers: nat, kvHeads: nat, headDim: nat, isl: nat, gibPerS: real): (ms: real)
    requires gibPerS > 0.0
    ensures ms >= 0.5
  {
    var bytes := (2 * layers * kvHeads * headDim * isl) as real;
    var perS := gibPerS * 1024.0 * 1024.0 * 1024.0;
    QuotientNonNegative(bytes, perS);
    0.5 + (bytes / perS) * 1000.0
  }

  lemma QuotientNonNegative(x: real, y: real)
    requires x >= 0.0 && y > 0.0
    ensures x / y >= 0.0
  {
    var q := x / y;
    assert q * y == x;
    assert q < 0.0 ==> q * y < 0.0;
  }

  // -------------------------------------------------------------------- laws

  lemma QuotientSum(a: real, b: real, d: real)
    requires d > 0.0
    ensures (a + b) / d == a / d + b / d
  {
  }

  lemma QuotientMonotone(x: real, y: real, d: real)
    requires x <= y && d > 0.0
    ensures x / d <= y / d
  {
    QuotientNonNegative(y - x, d);
    QuotientSum(x, y - x, d);
  }

  lemma FractionGrows(c: PrefillCurve, n: nat, m: nat)
    requires c.Valid() && n <= m
    ensures c.Fraction(n) <= c.Fraction(m)
  {
    var sat := c.multiseqSaturation;
    QuotientMonotone(MinReal(MaxReal(n as real, 1.0), sat) - 1.0,
                     MinReal(MaxReal(m as real, 1.0), sat) - 1.0, MaxReal(sat - 1.0, 1.0));
  }

  lemma QuotientOfSelf(x: real)
    requires x > 0.0
    ensures x / x == 1.0 && 0.0 / x == 0.0
  {
  }

  /** More sequences in a batch never compute slower; one computes at the plain rate; and from saturation
      on, if that is at two or more, the whole gain is realised. */
  lemma SharingGains(c: PrefillCurve, n: nat, m: nat)
    requires c.Valid() && n <= m
    ensures c.RateAt(n) <= c.RateAt(m) && c.RateAt(1) == c.tokensPerMs
    ensures m as real >= c.multiseqSaturation >= 2.0 ==> c.RateAt(m) == c.tokensPerMs * (1.0 + c.multiseqGain)
  {
    FractionGrows(c, n, m);
    Scale(c.multiseqGain, c.Fraction(n), c.Fraction(m));
    Scale(c.tokensPerMs, 1.0 + c.multiseqGain * c.Fraction(n), 1.0 + c.multiseqGain * c.Fraction(m));
    QuotientOfSelf(MaxReal(c.multiseqSaturation - 1.0, 1.0));
    assert c.Fraction(1) == 0.0;
    if m as real >= c.multiseqSaturation >= 2.0 {
      assert c.Fraction(m) == 1.0;
    }
  }

  /** Computing two loads in one batch instead of two saves exactly one overhead. */
  lemma BatchingSavesOverhead(c: PrefillCurve, a: nat, b: nat, n: nat)
    requires c.Valid() && a > 0 && b > 0
    ensures c.BatchMs(a, n) + c.BatchMs(b, n) == c.BatchMs(a + b, n) + c.overheadMs
  {
    RateIsPositive(c, n);
    QuotientSum(a as real, b as real, c.RateAt(n));
  }

  /** A step costs the base and, for each sequence, the slope; from the knee on, each costs the penalty
      times the slope on top. */
  lemma StepGrows(c: DecodeCurve, n: nat)
    requires c.Valid() && (c.knee.Some? ==> c.knee.value >= 0.0)
    ensures c.StepMs(0) == c.baseMs
    ensures c.knee.None? || (n + 1) as real <= c.knee.value ==> c.StepMs(n + 1) == c.StepMs(n) + c.slopeMs
    ensures c.knee.Some? && n as real >= c.knee.value ==>
      c.StepMs(n + 1) == c.StepMs(n) + c.slopeMs + c.slopeMs * c.kneePenalty
  {
    var x, y := n as real, (n + 1) as real;
    Distribute(c.slopeMs, x);
    if c.knee.Some? && x >= c.knee.value {
      Distribute(c.slopeMs, x - c.knee.value);
      DistributeTwice((x - c.knee.value) * c.slopeMs, c.slopeMs, c.kneePenalty);
      assert y - c.knee.value == (x - c.knee.value) + 1.0;
      if x == c.knee.value {
        assert (x - c.knee.value) * c.slopeMs * c.kneePenalty == 0.0;
      }
    }
  }

  lemma Distribute(k: real, x: real)
    ensures k * (x + 1.0) == k * x + k && (x + 1.0) * k == x * k + k
  {
  }

  lemma DistributeTwice(a: real, b: real, k: real)
    ensures (a + b) * k == a * k + b * k
  {
  }

  /** A transfer costs half a millisecond and a second for each bandwidth's worth of bytes, two for every
      element of every layer, head and token. */
  lemma TransferIs(layers: nat, kvHeads: nat, headDim: nat, isl: nat, gibPerS: real, seconds: real)
    requires gibPerS > 0.0 && seconds >= 0.0
    requires (2 * layers * kvHeads * headDim * isl) as real == seconds * (gibPerS * 1073741824.0)
    ensures TransferMs(layers, kvHeads, headDim, isl, gibPerS) == 0.5 + seconds * 1000.0
  {
    var perS := gibPerS * 1024.0 * 1024.0 * 1024.0;
    assert perS == gibPerS * 1073741824.0;
    QuotientOf((2 * layers * kvHeads * headDim * isl) as real, seconds, perS);
  }

  lemma QuotientOf(x: real, q: real, d: real)
    requires d > 0.0 && x == q * d
    ensures x / d == q
  {
  }
}
