/**
 * The sale's pricing getters. Prices are in payment-token smallest units per whole reward
 * token (10^18 smallest units); every conversion truncates, as unsigned integer division
 * does. One formula serves both getBuyCost (at the buy price) and getSellCost (at the sell
 * price), so it is defined once as `CostOf`.
 */
module Pricing {

  /** One whole reward token in its smallest units (18 decimals). */
  const UNIT: nat := 1_000_000_000_000_000_000

  /** `q` is the truncated quotient of `n` by `d`. */
  ghost predicate IsFloorDiv(n: nat, d: nat, q: nat) {
    q * d <= n < (q + 1) * d
  }

  /** getBuyAmount: the reward tokens that `paymentAmount` buys at `buyPrice`, truncated. */
  function BuyAmount(buyPrice: nat, paymentAmount: nat): (r: nat)
    requires buyPrice > 0
    ensures IsFloorDiv(paymentAmount * UNIT, buyPrice, r)
  {
    paymentAmount * UNIT / buyPrice
  }

  /** getBuyCost / getSellCost: what `rewardAmount` reward tokens are worth at `price`, truncated. */
  function CostOf(price: nat, rewardAmount: nat): (r: nat)
    ensures IsFloorDiv(rewardAmount * price, UNIT, r)
  {
    rewardAmount * price / UNIT
  }

  /** A truncated quotient is unique. */
  lemma FloorDivUnique(n: nat, d: nat, q: nat, q': nat)
    requires IsFloorDiv(n, d, q) && IsFloorDiv(n, d, q')
    ensures q == q'
  {
    if q < q' {
      MulMonotone(q + 1, q', d);
    } else if q' < q {
      MulMonotone(q' + 1, q, d);
    }
  }

  lemma MulMonotone(a: nat, b: nat, d: nat)
    requires a <= b
    ensures a * d <= b * d
  {
  }

  lemma MulCancel(a: nat, b: nat, d: nat)
    requires d > 0 && a * d <= b * d
    ensures a <= b
  {
    if a > b {
      MulMonotone(b + 1, a, d);
    }
  }

  /** Whole reward tokens cost exactly `k` times the unit price: no rounding at whole units. */
  lemma WholeUnitsCost(price: nat, k: nat)
    ensures CostOf(price, k * UNIT) == k * price
  {
    var n := k * UNIT * price;
    assert n == (k * price) * UNIT;
    assert IsFloorDiv(n, UNIT, k * price);
    FloorDivUnique(n, UNIT, CostOf(price, k * UNIT), k * price);
  }

  /** Paying `paymentAmount` never yields reward tokens that cost more than was paid. */
  lemma BuyNeverOvercharges(buyPrice: nat, paymentAmount: nat)
    requires buyPrice > 0
    ensures CostOf(buyPrice, BuyAmount(buyPrice, paymentAmount)) <= paymentAmount
  {
    var r := BuyAmount(buyPrice, paymentAmount);
    var c := CostOf(buyPrice, r);
    assert c * UNIT <= r * buyPrice <= paymentAmount * UNIT;
    MulCancel(c, paymentAmount, UNIT);
  }

  /**
   * Converting a reward amount to its cost and that cost back to reward tokens may
   * truncate, but never gives more than the amount started from.
   */
  lemma BuyRoundTripNeverExceeds(buyPrice: nat, rewardAmount: nat)
    requires buyPrice > 0
    ensures BuyAmount(buyPrice, CostOf(buyPrice, rewardAmount)) <= rewardAmount
  {
    var c := CostOf(buyPrice, rewardAmount);
    var r := BuyAmount(buyPrice, c);
    assert r * buyPrice <= c * UNIT <= rewardAmount * buyPrice;
    MulCancel(r, rewardAmount, buyPrice);
  }

  /** The purchase rounds to nothing exactly when the payment is worth less than one smallest reward unit. */
  lemma BuyAmountZero(buyPrice: nat, paymentAmount: nat)
    requires buyPrice > 0
    ensures BuyAmount(buyPrice, paymentAmount) == 0 <==> paymentAmount * UNIT < buyPrice
  {
    var r := BuyAmount(buyPrice, paymentAmount);
    if r > 0 {
      MulMonotone(1, r, buyPrice);
    }
  }

  /** The cost rounds to nothing exactly when the amount is worth less than one smallest payment unit. */
  lemma CostZero(price: nat, rewardAmount: nat)
    ensures CostOf(price, rewardAmount) == 0 <==> rewardAmount * price < UNIT
  {
    var r := CostOf(price, rewardAmount);
    if r > 0 {
      MulMonotone(1, r, UNIT);
    }
  }
}
