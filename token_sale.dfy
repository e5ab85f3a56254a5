/**
 * The sale contract, TokenSaleImplementation, as an object: the owner and the five
 * configuration fields are updated in place, and the trades update the two token contracts.
 * Each operation is one atomic call; a call that reverts returns the error and leaves every
 * field and both tokens as they were. The contract's own address is the spender of every
 * transferFrom it makes.
 */
module TokenSale {
  import opened Wrappers
  import opened Erc20
  import opened Pricing
  import opened Configuration
  import opened Exchange

  class TokenSaleImplementation {
    const address: Address
    var owner: Address
    var rewardToken: Address
    var paymentToken: Address
    var treasury: Address
    var buyPricePerUnit: nat
    var sellPricePerUnit: nat

    /** The five configuration fields as a value. */
    function Settings(): (r: Config)
      reads this
    {
      Config(rewardToken, paymentToken, treasury, buyPricePerUnit, sellPricePerUnit)
    }

    /**
     * No configuration field holds the zero sentinel: initialisation sets all five and
     * setConfigs cannot reset any of them, so in particular the pricing getters never divide
     * by zero.
     */
    ghost predicate Valid()
      reads this
    {
      Settings().NonZero()
    }

    /**
     * initialize(rewardToken, paymentToken, treasury, buyPrice, sellPrice), sent by `owner`
     * (on the bare contract) or passed as the proxy's initialiser call: stores the five
     * values as given. The model admits only non-zero token addresses, treasury and prices,
     * so the sale starts with no field holding the zero sentinel.
     */
    constructor Initialize(address: Address, owner: Address, rewardToken: Address, paymentToken: Address,
                           treasury: Address, buyPricePerUnit: nat, sellPricePerUnit: nat)
      requires rewardToken != ZERO_ADDRESS && paymentToken != ZERO_ADDRESS && treasury != ZERO_ADDRESS
      requires buyPricePerUnit > 0 && sellPricePerUnit > 0
      ensures Valid()
      ensures this.address == address && this.owner == owner
      ensures Settings() == Config(rewardToken, paymentToken, treasury, buyPricePerUnit, sellPricePerUnit)
    {
      this.address := address;
      this.owner := owner;
      this.rewardToken := rewardToken;
      this.paymentToken := paymentToken;
      this.treasury := treasury;
      this.buyPricePerUnit := buyPricePerUnit;
      this.sellPricePerUnit := sellPricePerUnit;
    }

    /** getBuyAmount: the reward tokens `paymentAmount` buys at the current buy price, truncated. */
    function GetBuyAmount(paymentAmount: nat): (r: nat)
      reads this
      requires Valid()
      ensures IsFloorDiv(paymentAmount * UNIT, buyPricePerUnit, r)
    {
      BuyAmount(buyPricePerUnit, paymentAmount)
    }

    /** getBuyCost: what buying `rewardAmount` reward tokens costs, truncated. */
    function GetBuyCost(rewardAmount: nat): (r: nat)
      reads this
      ensures IsFloorDiv(rewardAmount * buyPricePerUnit, UNIT, r)
    {
      CostOf(buyPricePerUnit, rewardAmount)
    }

    /** getSellCost: what selling `rewardAmount` reward tokens pays, truncated. */
    function GetSellCost(rewardAmount: nat): (r: nat)
      reads this
      ensures IsFloorDiv(rewardAmount * sellPricePerUnit, UNIT, r)
    {
      CostOf(sellPricePerUnit, rewardAmount)
    }

    /**
     * setConfigs sent by `caller`: only the owner may call it; a zero argument leaves its
     * field unchanged.
     */
    method SetConfigs(caller: Address, newRewardToken: Address, newPaymentToken: Address,
                      newTreasury: Address, newBuyPrice: nat, newSellPrice: nat)
      returns (r: Result<(), SaleError>)
      requires Valid()
      modifies this
      ensures Valid()
      ensures owner == old(owner)
      ensures r == if caller == old(owner) then Ok(()) else Err(NotOwner)
      ensures Settings() == if caller == old(owner)
                            then ApplyConfigs(old(Settings()), newRewardToken, newPaymentToken,
                                              newTreasury, newBuyPrice, newSellPrice)
                            else old(Settings())
    {
      if caller != owner {
        return Err(NotOwner);
      }
      if newRewardToken != ZERO_ADDRESS {
        rewardToken := newRewardToken;
      }
      if newPaymentToken != ZERO_ADDRESS {
        paymentToken := newPaymentToken;
      }
      if newTreasury != ZERO_ADDRESS {
        treasury := newTreasury;
      }
      if newBuyPrice != 0 {
        buyPricePerUnit := newBuyPrice;
      }
      if newSellPrice != 0 {
        sellPricePerUnit := newSellPrice;
      }
      r := Ok(());
    }

    /**
     * The tokens passed in are the two contracts the configuration names, and the
     * configuration names two different tokens.
     */
    predicate TradesWith(reward: Token, payment: Token)
      reads this
    {
      rewardToken != paymentToken && reward.address == rewardToken && payment.address == paymentToken
    }

    /** buyWithAmount(paymentAmount) sent by `caller`. */
    method BuyWithAmount(caller: Address, paymentAmount: nat, reward: Token, payment: Token)
      returns (r: Result<Order, SaleError>)
      requires Valid() && TradesWith(reward, payment) && caller != treasury
      modifies reward, payment
      ensures match Exchange.BuyWithAmount(Settings(), address, caller, paymentAmount,
                                           old(reward.State()), old(payment.State()))
        case Ok(s) => r == Ok(s.order) && reward.State() == s.reward && payment.State() == s.payment
        case Err(e) => r == Err(e) && reward.State() == old(reward.State()) && payment.State() == old(payment.State())
    {
      if paymentAmount == 0 {
        return Err(AmountNotPositive);
      }
      if payment.BalanceOf(caller) < paymentAmount {
        return Err(NotEnoughTokens);
      }
      if payment.Allowance(caller, address) < paymentAmount {
        return Err(NotEnoughAllowance);
      }
      var amount := GetBuyAmount(paymentAmount);
      if amount == 0 {
        return Err(ResultingAmountZero);
      }
      if reward.BalanceOf(treasury) < amount {
        return Err(NotEnoughRewardInTreasury);
      }
      if reward.Allowance(treasury, address) < amount {
        return Err(NotEnoughRewardAllowanceInTreasury);
      }
      var paid := payment.TransferFrom(address, caller, treasury, paymentAmount);
      var delivered := reward.TransferFrom(address, treasury, caller, amount);
      assert paid && delivered;
      r := Ok(BuyOrder(caller, rewardToken, paymentToken, amount, paymentAmount, buyPricePerUnit));
    }

    /** buyExactAmount(rewardAmount) sent by `caller`. */
    method BuyExactAmount(caller: Address, rewardAmount: nat, reward: Token, payment: Token)
      returns (r: Result<Order, SaleError>)
      requires Valid() && TradesWith(reward, payment) && caller != treasury
      modifies reward, payment
      ensures match Exchange.BuyExactAmount(Settings(), address, caller, rewardAmount,
                                            old(reward.State()), old(payment.State()))
        case Ok(s) => r == Ok(s.order) && reward.State() == s.reward && payment.State() == s.payment
        case Err(e) => r == Err(e) && reward.State() == old(reward.State()) && payment.State() == old(payment.State())
    {
      if rewardAmount == 0 {
        return Err(AmountNotPositive);
      }
      if reward.BalanceOf(treasury) < rewardAmount {
        return Err(NotEnoughRewardInTreasury);
      }
      if reward.Allowance(treasury, address) < rewardAmount {
        return Err(NotEnoughRewardAllowanceInTreasury);
      }
      var cost := GetBuyCost(rewardAmount);
      if cost == 0 {
        return Err(ResultingCostZero);
      }
      if payment.BalanceOf(caller) < cost {
        return Err(NotEnoughTokens);
      }
      if payment.Allowance(caller, address) < cost {
        return Err(NotEnoughAllowance);
      }
      var paid := payment.TransferFrom(address, caller, treasury, cost);
      var delivered := reward.TransferFrom(address, treasury, caller, rewardAmount);
      assert paid && delivered;
      r := Ok(BuyOrder(caller, rewardToken, paymentToken, rewardAmount, cost, buyPricePerUnit));
    }

    /** sellExactAmount(rewardAmount) sent by `caller`. */
    method SellExactAmount(caller: Address, rewardAmount: nat, reward: Token, payment: Token)
      returns (r: Result<Order, SaleError>)
      requires Valid() && TradesWith(reward, payment) && caller != treasury
      modifies reward, payment
      ensures match Exchange.SellExactAmount(Settings(), address, caller, rewardAmount,
                                             old(reward.State()), old(payment.State()))
        case Ok(s) => r == Ok(s.order) && reward.State() == s.reward && payment.State() == s.payment
        case Err(e) => r == Err(e) && reward.State() == old(reward.State()) && payment.State() == old(payment.State())
    {
      if rewardAmount == 0 {
        return Err(AmountNotPositive);
      }
      if reward.BalanceOf(caller) < rewardAmount {
        return Err(NotEnoughTokens);
      }
      if reward.Allowance(caller, address) < rewardAmount {
        return Err(NotEnoughAllowance);
      }
      var cost := GetSellCost(rewardAmount);
      if cost == 0 {
        return Err(ResultingCostZero);
      }
      if payment.BalanceOf(treasury) < cost {
        return Err(NotEnoughPaymentOnTreasury);
      }
      if payment.Allowance(treasury, address) < cost {
        return Err(NotEnoughPaymentAllowanceOnTreasury);
      }
      var sold := reward.TransferFrom(address, caller, treasury, rewardAmount);
      var paid := payment.TransferFrom(address, treasury, caller, cost);
      assert sold && paid;
      r := Ok(SellOrder(caller, rewardToken, paymentToken, rewardAmount, cost, sellPricePerUnit));
    }
  }
}
