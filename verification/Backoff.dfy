/** The retry schedule: capped exponential backoff with twenty per cent of jitter either way. */
module Backoff {
  import opened Prelude

  /** A draw of Math.random(). */
  type Jitter = r: real | 0.0 <= r < 1.0 witness 0.0

  const BASE_MS: int := 30_000
  const CAP_MS: int := 3_600_000

  function Pow2(n: nat): (p: nat)
    ensures p >= 1
  {
    if n == 0 then 1 else 2 * Pow2(n - 1)
  }

  /** The delay before jitter. */
  function Nominal(attempt: int): int {
    Min(CAP_MS, BASE_MS * Pow2(Min(10, Max(0, attempt))))
  }

  /** Math.round, over the reals. */
  function Round(x: real): int { (x + 0.5).Floor }

  function BackoffMs(attempt: int, r: Jitter): int {
    Round(Nominal(attempt) as real * (0.8 + r * 0.4))
  }

  /** The least total delay that failed attempts 1 to k impose, whatever the jitter. */
  function MinimumWait(k: nat): int {
    if k == 0 then 0 else MinimumWait(k - 1) + Nominal(k) * 4 / 5
  }

  /** The first ten dead-letter attempts are separated by nine delays. */
  const EARLIEST_DEAD_LETTER_MS: int := 11_664_000

  lemma NominalTable(attempt: int)
    ensures attempt <= 0 ==> Nominal(attempt) == 30_000
    ensures attempt == 1 ==> Nominal(attempt) == 60_000
    ensures attempt == 2 ==> Nominal(attempt) == 120_000
    ensures attempt == 3 ==> Nominal(attempt) == 240_000
    ensures attempt == 4 ==> Nominal(attempt) == 480_000
    ensures attempt == 5 ==> Nominal(attempt) == 960_000
    ensures attempt == 6 ==> Nominal(attempt) == 1_920_000
    ensures attempt >= 7 ==> Nominal(attempt) == 3_600_000
  {
    assert Pow2(3) == 8;
    assert Pow2(6) == 64;
    assert Pow2(7) == 128;
    assert Pow2(10) == 1024;
    if attempt > 7 && attempt < 10 {
      assert Pow2(8) == 256;
      assert Pow2(9) == 512;
    }
  }

  /** A jittered delay stays within a fifth of the nominal one. */
  lemma DelayNearNominal(attempt: int, r: Jitter)
    ensures 4 * Nominal(attempt) <= 5 * BackoffMs(attempt, r) <= 6 * Nominal(attempt)
  {
    NominalTable(attempt);
    var n := Nominal(attempt);
    assert n % 5 == 0;
    var x := n as real * (0.8 + r * 0.4);
    assert x == n as real * 0.8 + (n as real * r) * 0.4;
    assert 0.0 <= n as real * r <= n as real;
    var fifth := n / 5;
    assert n as real == 5.0 * fifth as real;
    assert (4 * fifth) as real <= x <= (6 * fifth) as real;
  }

  /** Every delay the service ever computes lies between 24 seconds and 72 minutes. */
  lemma DelayRange(attempt: int, r: Jitter)
    ensures 24_000 <= BackoffMs(attempt, r) <= 4_320_000
  {
    DelayNearNominal(attempt, r);
    NominalTable(attempt);
  }

  /** Until the cap, a later attempt always waits strictly longer, whatever both draws are. */
  lemma DelaysIncrease(earlier: int, later: int, r: Jitter, r': Jitter)
    requires 0 <= earlier < later <= 7
    ensures BackoffMs(earlier, r) < BackoffMs(later, r')
  {
    DelayNearNominal(earlier, r);
    DelayNearNominal(later, r');
    NominalTable(earlier);
    NominalTable(later);
  }

  lemma SmallPowers()
    ensures Pow2(0) == 1 && Pow2(1) == 2 && Pow2(2) == 4 && Pow2(3) == 8
    ensures Pow2(4) == 16 && Pow2(5) == 32 && Pow2(6) == 64
  {
    assert Pow2(3) == 8;
    assert Pow2(4) == 16;
    assert Pow2(5) == 32;
  }

  lemma NextDelay(k: nat)
    ensures k <= 6 ==> Nominal(k) * 4 / 5 == 24_000 * Pow2(k)
    ensures k >= 7 ==> Nominal(k) * 4 / 5 == 2_880_000
  {
    NominalTable(k);
    assert Pow2(3) == 8 && Pow2(6) == 64;
    if k <= 6 {
      assert Pow2(k) == [1, 2, 4, 8, 16, 32, 64][k] by {
        SmallPowers();
      }
    }
  }

  /** The closed form of the least total delay. */
  lemma {:induction false} MinimumWaitTable(k: nat)
    ensures k <= 6 ==> MinimumWait(k) == 24_000 * (2 * Pow2(k) - 2)
    ensures k >= 6 ==> MinimumWait(k) == 3_024_000 + 2_880_000 * (k - 6)
  {
    hide Nominal;
    SmallPowers();
    if k == 0 {
    } else {
      MinimumWaitTable(k - 1);
      NextDelay(k);
      assert Pow2(k) == 2 * Pow2(k - 1);
    }
  }

  lemma NineDelays()
    ensures MinimumWait(9) == EARLIEST_DEAD_LETTER_MS
  {
    MinimumWaitTable(9);
  }
}
