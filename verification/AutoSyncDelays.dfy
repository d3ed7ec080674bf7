/** The delays of the auto-sync manager, said without the formulas that compute them. */
module AutoSyncDelays {
  import opened AutoSyncModel
  import opened Powers

  // ---------- Jitter ----------

  /** `delay` is `base`, moved by at most the jitter fraction of it in proportion to `draw`, to the nearest whole number
      (the larger one half-way), and not below zero; without jitter it is `base` itself. */
  predicate IsJittered(c: Settings, base: real, draw: real, delay: real) {
    if c.jitterPct <= 0.0 then delay == base
    else
      var aimed := base + base * c.jitterPct * (draw * 2.0 - 1.0);
      if aimed < -0.5 then delay == 0.0
      else delay == delay.Floor as real && aimed - 0.5 < delay <= aimed + 0.5
  }

  lemma JitteredDelayLaw(c: Settings, base: real, draw: real)
    ensures IsJittered(c, base, draw, JitteredDelay(c, base, draw))
  {
    if c.jitterPct > 0.0 {
      var aimed := base + base * c.jitterPct * (draw * 2.0 - 1.0);
      NearestWhole(aimed, Round(aimed));
    }
  }

  lemma NearestWhole(x: real, n: int)
    requires n == Round(x)
    ensures x - 0.5 < n as real <= x + 0.5 && (x < -0.5 <==> n < 0)
  {
  }

  /** How far jitter and rounding can move a delay. */
  function Slack(c: Settings, base: real): real {
    if c.jitterPct <= 0.0 then 0.0 else base * c.jitterPct + 0.5
  }

  lemma JitteredWithin(c: Settings, base: real, draw: real, delay: real)
    requires base >= 0.0 && 0.0 <= draw <= 1.0 && IsJittered(c, base, draw, delay)
    ensures base - Slack(c, base) <= delay <= base + Slack(c, base) && delay >= 0.0
  {
    if c.jitterPct > 0.0 {
      ProductIsNonNegative(base, c.jitterPct);
      ScaledBounds(base * c.jitterPct, draw * 2.0 - 1.0);
      assert delay >= 0.0 by {
        assert delay.Floor as real == delay || delay == 0.0;
      }
    }
  }

  lemma ProductIsNonNegative(x: real, y: real)
    requires x >= 0.0 && y >= 0.0
    ensures x * y >= 0.0
  {
  }

  lemma ScaledBounds(x: real, signed: real)
    requires x >= 0.0 && -1.0 <= signed <= 1.0
    ensures -x <= x * signed <= x
  {
    assert x * (1.0 - signed) >= 0.0;
    assert x * (1.0 + signed) >= 0.0;
  }

  // ---------- Backoff ----------

  function Smaller(a: real, b: real): real {
    if b < a then b else a
  }

  /** `x` doubled so many times. */
  function Doubled(x: real, times: nat): real {
    if times == 0 then x else 2.0 * Doubled(x, times - 1)
  }

  /** The unjittered delay after `failures` failures in a row. */
  function Backoff(c: Settings, failures: nat): real
    requires failures >= 1
  {
    Smaller(c.backoffCapMs, Doubled(c.intervalMs, failures - 1))
  }

  lemma {:induction false} DoubledIsPower(x: real, n: nat)
    ensures Doubled(x, n) == x * Power2(n) as real
  {
    if n > 0 {
      DoubledIsPower(x, n - 1);
    }
  }

  lemma BackoffDelayLaw(c: Settings, failures: nat, draw: real)
    requires failures >= 1
    ensures IsJittered(c, Smaller(c.backoffCapMs, Doubled(c.intervalMs, failures - 1)), draw,
                       BackoffDelay(c, failures, draw))
  {
    hide IsJittered, JitteredDelay;
    DoubledIsPower(c.intervalMs, failures - 1);
    JitteredDelayLaw(c, Backoff(c, failures), draw);
  }

  lemma SuccessDelayLaw(c: Settings, draw: real)
    ensures IsJittered(c, c.intervalMs, draw, SuccessDelay(c, draw))
  {
    hide IsJittered, JitteredDelay;
    JitteredDelayLaw(c, c.intervalMs, draw);
  }

  /** The first delay is the interval, each further one twice the one before, and none exceeds the cap. */
  lemma BackoffDoubles(c: Settings, failures: nat)
    requires c.backoffCapMs >= 0.0 && failures >= 1
    ensures Backoff(c, 1) == Smaller(c.backoffCapMs, c.intervalMs)
    ensures Backoff(c, failures + 1) == Smaller(c.backoffCapMs, 2.0 * Backoff(c, failures))
  {
  }

  lemma {:induction false} DoubledGrows(x: real, n: nat)
    requires x >= 0.0
    ensures Doubled(x, n) >= x && Doubled(x, n + 1) >= Doubled(x, n)
  {
    if n > 0 {
      DoubledGrows(x, n - 1);
    }
  }

  /** The unjittered delay never decreases with further failures. */
  lemma {:induction false} BackoffIsMonotone(c: Settings, n: nat, k: nat)
    requires c.intervalMs >= 0.0 && 1 <= n <= k
    ensures Backoff(c, n) <= Backoff(c, k) <= c.backoffCapMs
    decreases k - n
  {
    if n < k {
      BackoffIsMonotone(c, n, k - 1);
      DoubledGrows(c.intervalMs, k - 2);
    }
  }

  /** With a positive interval the backoff reaches the cap and stays there. */
  lemma BackoffReachesCap(c: Settings) returns (n: nat)
    requires c.intervalMs > 0.0
    ensures n >= 1 && forall k :: k >= n ==> Backoff(c, k) == c.backoffCapMs
  {
    var ratio := c.backoffCapMs / c.intervalMs;
    n := if ratio < 0.0 then 1 else ratio.Floor + 2;
    DoubledIsPower(c.intervalMs, n - 1);
    var p := Power2(n - 1);
    assert p as real >= ratio;
    assert c.intervalMs * p as real >= c.intervalMs * ratio;
    forall k | k >= n ensures Backoff(c, k) == c.backoffCapMs {
      BackoffIsMonotone(c, n, k);
    }
  }
}
