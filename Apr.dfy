/**
 * The annual percentage rate derived from the contract's reward rate (tokens
 * per second) and the total amount staked, as a whole percentage: the yearly
 * reward over the stake, times PERCENT, truncated.
 */
module Apr {
  import opened Entities

  /**
   * rewardRate * SECONDS_PER_YEAR * PERCENT / totalStaked, truncated, and 0
   * when nothing is staked. The result is characterised by the bounds of
   * truncating division rather than by the division itself: it is the whole
   * number of percent that one year of rewards makes of the stake.
   */
  function CalculateApr(rewardRate: nat, totalStaked: nat): (apr: nat)
    ensures totalStaked == 0 ==> apr == 0
    ensures totalStaked > 0 ==>
      apr * totalStaked <= AnnualRewards(rewardRate) * PERCENT < (apr + 1) * totalStaked
  {
    if totalStaked == 0 then 0
    else
      var annualRewards := rewardRate * SECONDS_PER_YEAR;
      var q := annualRewards * PERCENT / totalStaked;
      DivisionBounds(annualRewards * PERCENT, totalStaked);
      q
  }

  /** The reward paid over one year at `rewardRate` tokens per second. */
  function AnnualRewards(rewardRate: nat): nat {
    rewardRate * SECONDS_PER_YEAR
  }

  /** a * x <= a * y whenever x <= y. */
  lemma MulLeftMono(a: nat, x: nat, y: nat)
    requires x <= y
    ensures a * x <= a * y
  {
    assert a * y == a * x + a * (y - x);
  }

  lemma DivisionBounds(n: nat, d: nat)
    requires d > 0
    ensures (n / d) * d <= n < (n / d + 1) * d
  {
    var q, r := n / d, n % d;
    assert n == q * d + r;
    assert (q + 1) * d == q * d + d;
  }

  /** a * d < b * d with d positive gives a < b. */
  lemma CancelFactor(a: nat, b: nat, d: nat)
    requires d > 0 && a * d < b * d
    ensures a < b
  {
    assert (b - a) * d == b * d - a * d;
  }

  /** A higher reward rate never lowers the APR (for a fixed stake). */
  lemma AprNonDecreasingInRate(rate1: nat, rate2: nat, totalStaked: nat)
    requires rate1 <= rate2
    ensures CalculateApr(rate1, totalStaked) <= CalculateApr(rate2, totalStaked)
  {
    if totalStaked > 0 {
      var a1, a2 := CalculateApr(rate1, totalStaked), CalculateApr(rate2, totalStaked);
      assert AnnualRewards(rate1) <= AnnualRewards(rate2);
      CancelFactor(a1, a2 + 1, totalStaked);
    }
  }

  /** More stake never raises the APR (for a fixed, positive stake and rate). */
  lemma AprNonIncreasingInStake(rate: nat, staked1: nat, staked2: nat)
    requires 0 < staked1 <= staked2
    ensures CalculateApr(rate, staked2) <= CalculateApr(rate, staked1)
  {
    var a1, a2 := CalculateApr(rate, staked1), CalculateApr(rate, staked2);
    MulLeftMono(a2, staked1, staked2);
    assert a2 * staked1 < (a1 + 1) * staked1;
    CancelFactor(a2, a1 + 1, staked1);
  }

  /**
   * Worked values: a rate of 20 on a stake of 100; an empty stake; a stake
   * equal to one year of rewards (100%); a stake of one hundred years of
   * rewards (1%).
   */
  lemma AprExample()
    ensures CalculateApr(20, 100) == 630720000
    ensures CalculateApr(10, 0) == 0
    ensures CalculateApr(1, 31536000) == 100
    ensures CalculateApr(1, 3153600000) == 1
  {
  }

  /**
   * A 5% yield (a year of rewards at rate 1 is 5% of the stake) comes out as
   * 5, not as 500: the result is a whole percentage, not one with two implied
   * decimals.
   */
  lemma FivePercentIsFive()
    ensures AnnualRewards(1) * 20 == 630720000
    ensures CalculateApr(1, 630720000) == 5
    ensures CalculateApr(1, 630720000) != 500
  {
  }
}
