/**
 * The scenarios of the two Hardhat suites, replayed on the model: each method builds the
 * suites' fixture (fresh tokens, a freshly initialised sale), performs the same mints,
 * approvals and calls, and returns what the suite observes (the revert reasons in call
 * order, the event, the balances afterwards); its postcondition is what the suite expects.
 * Parameters stand for the values on which the bare-contract suite and the proxy suite differ.
 */
module Scenarios {
  import opened Wrappers
  import opened Erc20
  import opened Pricing
  import opened Configuration
  import opened Exchange
  import opened TokenSale

  const OWNER: Address := 1
  /** otherAccounts[0], the trading account. */
  const BUYER: Address := 2
  /** otherAccounts[1], the replacement treasury. */
  const OTHER: Address := 3
  /** otherAccounts[2], the treasury. */
  const TREASURY: Address := 4
  const SALE: Address := 10
  const PAYMENT_TOKEN: Address := 11
  const DIVINITY_COIN: Address := 12

  /** parseUnits('314.15', 6) */
  const BUY_PRICE: nat := 314_150_000
  /** parseUnits('144', 6), the bare-contract suite's sell price; the proxy suite uses 144 * UNIT. */
  const SELL_PRICE: nat := 144_000_000
  /** parseUnits('1', 6) */
  const ONE_PAYMENT: nat := 1_000_000
  /** 10^18 * parseUnits('1', 6) / buyPrice, i.e. parseUnits('0.003183192742320547', 18) */
  const BOUGHT_FOR_ONE_PAYMENT: nat := 3_183_192_742_320_547

  /** beforeEach: fresh tokens (6 and 18 decimals) and a sale initialised by the owner. */
  method Fixture(sellPrice: nat) returns (sale: TokenSaleImplementation, reward: Token, payment: Token)
    requires sellPrice > 0
    ensures fresh(sale) && fresh(reward) && fresh(payment)
    ensures sale.Valid() && sale.TradesWith(reward, payment)
    ensures sale.address == SALE && sale.owner == OWNER
    ensures sale.Settings() == Config(DIVINITY_COIN, PAYMENT_TOKEN, TREASURY, BUY_PRICE, sellPrice)
    ensures forall a :: reward.State().BalanceOf(a) == 0 && payment.State().BalanceOf(a) == 0
    ensures forall o: Address, s: Address :: reward.State().Allowance(o, s) == 0 && payment.State().Allowance(o, s) == 0
  {
    payment := new Token(PAYMENT_TOKEN, 6);
    reward := new Token(DIVINITY_COIN, 18);
    sale := new TokenSaleImplementation.Initialize(SALE, OWNER, DIVINITY_COIN, PAYMENT_TOKEN, TREASURY,
                                                   BUY_PRICE, sellPrice);
  }

  /** The pricing formulas at the suites' prices. */
  lemma SuitePrices(sellPrice: nat)
    ensures BuyAmount(BUY_PRICE, ONE_PAYMENT) == BOUGHT_FOR_ONE_PAYMENT
    ensures CostOf(BUY_PRICE, UNIT) == BUY_PRICE
    ensures CostOf(sellPrice, UNIT) == sellPrice && CostOf(sellPrice, 2 * UNIT) == 2 * sellPrice
  {
    WholeUnitsCost(BUY_PRICE, 1);
    WholeUnitsCost(sellPrice, 1);
    WholeUnitsCost(sellPrice, 2);
  }

  /** getBuyAmount(1 payment unit), getBuyCost(1 token), getSellCost(1 token), getSellCost(2 tokens) on the fixture. */
  method GetterValues(sellPrice: nat) returns (bought: nat, buyCost: nat, sellCostOne: nat, sellCostTwo: nat)
    requires sellPrice > 0
    ensures bought == BOUGHT_FOR_ONE_PAYMENT && buyCost == BUY_PRICE
    ensures sellCostOne == sellPrice && sellCostTwo == 2 * sellPrice
  {
    var sale, reward, payment := Fixture(sellPrice);
    SuitePrices(sellPrice);
    bought := sale.GetBuyAmount(ONE_PAYMENT);
    buyCost := sale.GetBuyCost(UNIT);
    sellCostOne, sellCostTwo := sale.GetSellCost(UNIT), sale.GetSellCost(2 * UNIT);
  }

  method SetConfigsFromNonOwnerReverts(sellPrice: nat) returns (r: Result<(), SaleError>, after: Config)
    requires sellPrice > 0
    ensures r == Err(NotOwner)
    ensures after == Config(DIVINITY_COIN, PAYMENT_TOKEN, TREASURY, BUY_PRICE, sellPrice)
  {
    var sale, reward, payment := Fixture(sellPrice);
    r := sale.SetConfigs(BUYER, DIVINITY_COIN, PAYMENT_TOKEN, TREASURY, BUY_PRICE, sellPrice);
    after := sale.Settings();
  }

  method SetConfigsChangesOnlyBuyPrice(sellPrice: nat) returns (r: Result<(), SaleError>, after: Config)
    requires sellPrice > 0
    ensures r == Ok(())
    ensures after == Config(DIVINITY_COIN, PAYMENT_TOKEN, TREASURY, 314_160_000, sellPrice)
  {
    var sale, reward, payment := Fixture(sellPrice);
    r := sale.SetConfigs(OWNER, 0, 0, 0, 314_160_000, 0);
    after := sale.Settings();
  }

  method SetConfigsChangesOnlyTreasury(sellPrice: nat) returns (r: Result<(), SaleError>, after: Config)
    requires sellPrice > 0
    ensures r == Ok(())
    ensures after == Config(DIVINITY_COIN, PAYMENT_TOKEN, OTHER, BUY_PRICE, sellPrice)
  {
    var sale, reward, payment := Fixture(sellPrice);
    r := sale.SetConfigs(OWNER, 0, 0, OTHER, 0, 0);
    after := sale.Settings();
  }

  /** Zero amount; then no balance; then a balance but no allowance. */
  method BuyWithAmountReverts(sellPrice: nat) returns (outcomes: seq<Result<Order, SaleError>>)
    requires sellPrice > 0
    ensures outcomes == [Err(AmountNotPositive), Err(NotEnoughTokens), Err(NotEnoughAllowance)]
  {
    var sale, reward, payment := Fixture(sellPrice);
    var r0 := sale.BuyWithAmount(BUYER, 0, reward, payment);
    assert r0 == Err(AmountNotPositive);
    // the buyer holds nothing, and neither does the treasury
    assert payment.State().BalanceOf(BUYER) == 0;
    var r1 := sale.BuyWithAmount(BUYER, 100 * ONE_PAYMENT, reward, payment);
    assert r1 == Err(NotEnoughTokens);
    payment.Mint(BUYER, 100 * ONE_PAYMENT);
    assert payment.State().Allowance(BUYER, SALE) == 0;
    var r2 := sale.BuyWithAmount(BUYER, 100 * ONE_PAYMENT, reward, payment);
    assert r2 == Err(NotEnoughAllowance);
    outcomes := [r0, r1, r2];
  }

  /** A buy price of 10^13 whole payment tokens makes one smallest payment unit buy nothing. */
  method BuyWithAmountResultingAmountZero(sellPrice: nat) returns (r: Result<Order, SaleError>)
    requires sellPrice > 0
    ensures r == Err(ResultingAmountZero)
  {
    var sale, reward, payment := Fixture(sellPrice);
    var s := sale.SetConfigs(OWNER, 0, 0, 0, 10_000_000_000_000 * ONE_PAYMENT, 0);
    payment.Mint(BUYER, 1);
    payment.Approve(BUYER, SALE, 1);
    r := sale.BuyWithAmount(BUYER, 1, reward, payment);
  }

  /** A funded, approved buyer; an empty treasury, then a stocked one that has approved nothing. */
  method BuyWithAmountTreasuryShort(sellPrice: nat) returns (outcomes: seq<Result<Order, SaleError>>)
    requires sellPrice > 0
    ensures outcomes == [Err(NotEnoughRewardInTreasury), Err(NotEnoughRewardAllowanceInTreasury)]
  {
    var sale, reward, payment := Fixture(sellPrice);
    payment.Mint(BUYER, ONE_PAYMENT);
    payment.Approve(BUYER, SALE, ONE_PAYMENT);
    assert reward.State().BalanceOf(TREASURY) == 0;
    var r0 := sale.BuyWithAmount(BUYER, ONE_PAYMENT, reward, payment);
    assert r0 == Err(NotEnoughRewardInTreasury);
    reward.Mint(TREASURY, 100 * UNIT);
    assert reward.State().Allowance(TREASURY, SALE) == 0;
    var r1 := sale.BuyWithAmount(BUYER, ONE_PAYMENT, reward, payment);
    assert r1 == Err(NotEnoughRewardAllowanceInTreasury);
    outcomes := [r0, r1];
  }

  /** One payment unit buys 0.003183192742320547 DivinityCoin out of the treasury's 100. */
  method BuyWithAmountSucceeds(sellPrice: nat)
    returns (r: Result<Order, SaleError>, buyerReward: nat, treasuryReward: nat,
             buyerPayment: nat, treasuryPayment: nat)
    requires sellPrice > 0
    ensures r == Ok(BuyOrder(BUYER, DIVINITY_COIN, PAYMENT_TOKEN, BOUGHT_FOR_ONE_PAYMENT, ONE_PAYMENT, BUY_PRICE))
    ensures buyerReward == BOUGHT_FOR_ONE_PAYMENT && treasuryReward == 100 * UNIT - BOUGHT_FOR_ONE_PAYMENT
    ensures buyerPayment == 0 && treasuryPayment == ONE_PAYMENT
  {
    var sale, reward, payment := Fixture(sellPrice);
    payment.Mint(BUYER, ONE_PAYMENT);
    reward.Mint(TREASURY, 100 * UNIT);
    payment.Approve(BUYER, SALE, ONE_PAYMENT);
    reward.Approve(TREASURY, SALE, 100 * UNIT);
    SuitePrices(sellPrice);
    r := sale.BuyWithAmount(BUYER, ONE_PAYMENT, reward, payment);
    buyerReward, treasuryReward := reward.BalanceOf(BUYER), reward.BalanceOf(TREASURY);
    buyerPayment, treasuryPayment := payment.BalanceOf(BUYER), payment.BalanceOf(TREASURY);
  }

  /**
   * Zero amount; an empty treasury (and an empty buyer); a stocked treasury without allowance;
   * an approving treasury and an empty buyer; a funded buyer without allowance.
   */
  method BuyExactAmountReverts(sellPrice: nat) returns (outcomes: seq<Result<Order, SaleError>>)
    requires sellPrice > 0
    ensures outcomes == [Err(AmountNotPositive), Err(NotEnoughRewardInTreasury),
                         Err(NotEnoughRewardAllowanceInTreasury), Err(NotEnoughTokens), Err(NotEnoughAllowance)]
  {
    var sale, reward, payment := Fixture(sellPrice);
    var r0 := sale.BuyExactAmount(BUYER, 0, reward, payment);
    assert r0 == Err(AmountNotPositive);
    assert reward.State().BalanceOf(TREASURY) == 0;
    var r1 := sale.BuyExactAmount(BUYER, UNIT, reward, payment);
    assert r1 == Err(NotEnoughRewardInTreasury);
    reward.Mint(TREASURY, 100 * UNIT);
    assert reward.State().Allowance(TREASURY, SALE) == 0;
    var r2 := sale.BuyExactAmount(BUYER, UNIT, reward, payment);
    assert r2 == Err(NotEnoughRewardAllowanceInTreasury);
    reward.Approve(TREASURY, SALE, 100 * UNIT);
    WholeUnitsCost(BUY_PRICE, 1);
    assert payment.State().BalanceOf(BUYER) == 0;
    var r3 := sale.BuyExactAmount(BUYER, UNIT, reward, payment);
    assert r3 == Err(NotEnoughTokens);
    payment.Mint(BUYER, BUY_PRICE);
    assert payment.State().Allowance(BUYER, SALE) == 0;
    var r4 := sale.BuyExactAmount(BUYER, UNIT, reward, payment);
    assert r4 == Err(NotEnoughAllowance);
    outcomes := [r0, r1, r2, r3, r4];
  }

  /** At a buy price of 10 smallest payment units, 100 smallest reward units cost nothing. */
  method BuyExactAmountResultingCostZero(sellPrice: nat) returns (r: Result<Order, SaleError>)
    requires sellPrice > 0
    ensures r == Err(ResultingCostZero)
  {
    var sale, reward, payment := Fixture(sellPrice);
    var s := sale.SetConfigs(OWNER, 0, 0, 0, 10, 0);
    reward.Mint(TREASURY, 100 * UNIT);
    reward.Approve(TREASURY, SALE, 100 * UNIT);
    r := sale.BuyExactAmount(BUYER, 100, reward, payment);
  }

  /** One whole DivinityCoin bought for exactly the buy price. */
  method BuyExactAmountSucceeds(sellPrice: nat)
    returns (r: Result<Order, SaleError>, buyerReward: nat, treasuryReward: nat,
             buyerPayment: nat, treasuryPayment: nat)
    requires sellPrice > 0
    ensures r == Ok(BuyOrder(BUYER, DIVINITY_COIN, PAYMENT_TOKEN, UNIT, BUY_PRICE, BUY_PRICE))
    ensures buyerReward == UNIT && treasuryReward == 99 * UNIT
    ensures buyerPayment == 0 && treasuryPayment == BUY_PRICE
  {
    var sale, reward, payment := Fixture(sellPrice);
    payment.Mint(BUYER, BUY_PRICE);
    reward.Mint(TREASURY, 100 * UNIT);
    reward.Approve(TREASURY, SALE, 100 * UNIT);
    payment.Approve(BUYER, SALE, BUY_PRICE);
    WholeUnitsCost(BUY_PRICE, 1);
    r := sale.BuyExactAmount(BUYER, UNIT, reward, payment);
    buyerReward, treasuryReward := reward.BalanceOf(BUYER), reward.BalanceOf(TREASURY);
    buyerPayment, treasuryPayment := payment.BalanceOf(BUYER), payment.BalanceOf(TREASURY);
  }

  /**
   * Zero amount; an empty seller; a funded seller without allowance; an approving seller and
   * an empty treasury; a funded treasury without allowance.
   */
  method SellExactAmountReverts(sellPrice: nat) returns (outcomes: seq<Result<Order, SaleError>>)
    requires sellPrice > 0
    ensures outcomes == [Err(AmountNotPositive), Err(NotEnoughTokens), Err(NotEnoughAllowance),
                         Err(NotEnoughPaymentOnTreasury), Err(NotEnoughPaymentAllowanceOnTreasury)]
  {
    var sale, reward, payment := Fixture(sellPrice);
    var r0 := sale.SellExactAmount(BUYER, 0, reward, payment);
    assert r0 == Err(AmountNotPositive);
    assert reward.State().BalanceOf(BUYER) == 0;
    var r1 := sale.SellExactAmount(BUYER, UNIT, reward, payment);
    assert r1 == Err(NotEnoughTokens);
    reward.Mint(BUYER, UNIT);
    assert reward.State().Allowance(BUYER, SALE) == 0;
    var r2 := sale.SellExactAmount(BUYER, UNIT, reward, payment);
    assert r2 == Err(NotEnoughAllowance);
    reward.Approve(BUYER, SALE, UNIT);
    WholeUnitsCost(sellPrice, 1);
    assert payment.State().BalanceOf(TREASURY) == 0;
    var r3 := sale.SellExactAmount(BUYER, UNIT, reward, payment);
    assert r3 == Err(NotEnoughPaymentOnTreasury);
    payment.Mint(TREASURY, sellPrice);
    assert payment.State().Allowance(TREASURY, SALE) == 0;
    var r4 := sale.SellExactAmount(BUYER, UNIT, reward, payment);
    assert r4 == Err(NotEnoughPaymentAllowanceOnTreasury);
    outcomes := [r0, r1, r2, r3, r4];
  }

  /**
   * 10^7 smallest reward units at a sell price of at most 10 smallest payment units (10 in
   * the bare-contract suite, 1 in the proxy suite) pay nothing.
   */
  method SellExactAmountResultingCostZero(sellPrice: nat, newSellPrice: nat) returns (r: Result<Order, SaleError>)
    requires sellPrice > 0 && 0 < newSellPrice <= 10
    ensures r == Err(ResultingCostZero)
  {
    var sale, reward, payment := Fixture(sellPrice);
    var amount := 10_000_000;
    reward.Mint(BUYER, amount);
    reward.Approve(BUYER, SALE, amount);
    var s := sale.SetConfigs(OWNER, 0, 0, 0, 0, newSellPrice);
    CostZero(newSellPrice, amount);
    r := sale.SellExactAmount(BUYER, amount, reward, payment);
  }

  /** Selling `units` whole tokens (1 and 2 in the suites) at either suite's sell price. */
  method SellExactAmountSucceeds(sellPrice: nat, units: nat)
    returns (r: Result<Order, SaleError>, sellerReward: nat, treasuryReward: nat,
             sellerPayment: nat, treasuryPayment: nat)
    requires sellPrice > 0 && units > 0
    ensures r == Ok(SellOrder(BUYER, DIVINITY_COIN, PAYMENT_TOKEN, units * UNIT, units * sellPrice, sellPrice))
    ensures sellerReward == 0 && treasuryReward == units * UNIT
    ensures sellerPayment == units * sellPrice && treasuryPayment == 0
  {
    var sale, reward, payment := Fixture(sellPrice);
    reward.Mint(BUYER, units * UNIT);
    reward.Approve(BUYER, SALE, units * UNIT);
    payment.Mint(TREASURY, units * sellPrice);
    payment.Approve(TREASURY, SALE, units * sellPrice);
    WholeUnitsCost(sellPrice, units);
    r := sale.SellExactAmount(BUYER, units * UNIT, reward, payment);
    sellerReward, treasuryReward := reward.BalanceOf(BUYER), reward.BalanceOf(TREASURY);
    sellerPayment, treasuryPayment := payment.BalanceOf(BUYER), payment.BalanceOf(TREASURY);
  }
}
