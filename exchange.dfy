/**
 * The three trades of the sale as pure functions of the configuration and the two token
 * ledgers: buyWithAmount (spend an exact payment), buyExactAmount (receive an exact reward
 * amount) and sellExactAmount (sell an exact reward amount). Each runs its checks in a fixed
 * order and reverts with the first one that fails; a trade that passes every check makes two
 * transferFrom moves, spent by the sale contract (`sale`), between the caller and the
 * treasury, and yields the event it emits.
 */
module Exchange {
  import opened Wrappers
  import opened Erc20
  import opened Pricing
  import opened Configuration

  /** The revert reasons of the sale contract. */
  datatype SaleError =
    | NotOwner
    | AmountNotPositive
    | NotEnoughTokens
    | NotEnoughAllowance
    | ResultingAmountZero
    | ResultingCostZero
    | NotEnoughRewardInTreasury
    | NotEnoughRewardAllowanceInTreasury
    | NotEnoughPaymentOnTreasury
    | NotEnoughPaymentAllowanceOnTreasury

  /** The revert string of each error. */
  function Message(e: SaleError): (r: string) {
    match e
    case NotOwner => "Ownable: caller is not the owner"
    case AmountNotPositive => "amount must be greater than 0"
    case NotEnoughTokens => "not enough tokens"
    case NotEnoughAllowance => "not enough allowance"
    case ResultingAmountZero => "resulting amount must be greater than 0"
    case ResultingCostZero => "resulting cost must be greater than 0"
    case NotEnoughRewardInTreasury => "not enough DivinityCoin in the treasury"
    case NotEnoughRewardAllowanceInTreasury => "not enough DivinityCoin allowance in the treasury"
    case NotEnoughPaymentOnTreasury => "not enough payment tokens on Treasury"
    case NotEnoughPaymentAllowanceOnTreasury => "not enough payment token allowance on Treasury"
  }

  /** Every revert reason has its own string, so a caller can tell from it which check failed. */
  lemma MessagesDistinct(e: SaleError, e': SaleError)
    ensures Message(e) == Message(e') ==> e == e'
  {
  }

  /** The events BuyOrder and SellOrder, with the price the trade used. */
  datatype Order =
    | BuyOrder(account: Address, rewardToken: Address, paymentToken: Address,
               rewardAmount: nat, paymentAmount: nat, priceUsed: nat)
    | SellOrder(account: Address, rewardToken: Address, paymentToken: Address,
                rewardAmount: nat, paymentAmount: nat, priceUsed: nat)

  /** A completed trade: its event and the two ledgers afterwards. */
  datatype Settlement = Settlement(order: Order, reward: Ledger, payment: Ledger)

  /** buyWithAmount(paymentAmount) sent by `buyer`. */
  function BuyWithAmount(c: Config, sale: Address, buyer: Address, paymentAmount: nat,
                         reward: Ledger, payment: Ledger): (r: Result<Settlement, SaleError>)
    requires c.buyPricePerUnit > 0 && buyer != c.treasury
    ensures var amount := BuyAmount(c.buyPricePerUnit, paymentAmount);
      r.Ok? <==> && paymentAmount > 0
                 && payment.CanTransferFrom(sale, buyer, paymentAmount)
                 && amount > 0
                 && reward.CanTransferFrom(sale, c.treasury, amount)
    ensures r.Ok? ==>
      var amount := BuyAmount(c.buyPricePerUnit, paymentAmount);
      && r.value.order == BuyOrder(buyer, c.rewardToken, c.paymentToken, amount, paymentAmount, c.buyPricePerUnit)
      && TransferredFrom(payment, r.value.payment, sale, buyer, c.treasury, paymentAmount)
      && TransferredFrom(reward, r.value.reward, sale, c.treasury, buyer, amount)
  {
    var amount := BuyAmount(c.buyPricePerUnit, paymentAmount);
    if paymentAmount == 0 then Err(AmountNotPositive)
    else if payment.BalanceOf(buyer) < paymentAmount then Err(NotEnoughTokens)
    else if payment.Allowance(buyer, sale) < paymentAmount then Err(NotEnoughAllowance)
    else if amount == 0 then Err(ResultingAmountZero)
    else if reward.BalanceOf(c.treasury) < amount then Err(NotEnoughRewardInTreasury)
    else if reward.Allowance(c.treasury, sale) < amount then Err(NotEnoughRewardAllowanceInTreasury)
    else
      Ok(Settlement(
        BuyOrder(buyer, c.rewardToken, c.paymentToken, amount, paymentAmount, c.buyPricePerUnit),
        reward.TransferFrom(sale, c.treasury, buyer, amount),
        payment.TransferFrom(sale, buyer, c.treasury, paymentAmount)))
  }

  /** buyExactAmount(rewardAmount) sent by `buyer`: the treasury is checked before the buyer. */
  function BuyExactAmount(c: Config, sale: Address, buyer: Address, rewardAmount: nat,
                          reward: Ledger, payment: Ledger): (r: Result<Settlement, SaleError>)
    requires buyer != c.treasury
    ensures var cost := CostOf(c.buyPricePerUnit, rewardAmount);
      r.Ok? <==> && rewardAmount > 0
                 && reward.CanTransferFrom(sale, c.treasury, rewardAmount)
                 && cost > 0
                 && payment.CanTransferFrom(sale, buyer, cost)
    ensures r.Ok? ==>
      var cost := CostOf(c.buyPricePerUnit, rewardAmount);
      && r.value.order == BuyOrder(buyer, c.rewardToken, c.paymentToken, rewardAmount, cost, c.buyPricePerUnit)
      && TransferredFrom(payment, r.value.payment, sale, buyer, c.treasury, cost)
      && TransferredFrom(reward, r.value.reward, sale, c.treasury, buyer, rewardAmount)
  {
    var cost := CostOf(c.buyPricePerUnit, rewardAmount);
    if rewardAmount == 0 then Err(AmountNotPositive)
    else if reward.BalanceOf(c.treasury) < rewardAmount then Err(NotEnoughRewardInTreasury)
    else if reward.Allowance(c.treasury, sale) < rewardAmount then Err(NotEnoughRewardAllowanceInTreasury)
    else if cost == 0 then Err(ResultingCostZero)
    else if payment.BalanceOf(buyer) < cost then Err(NotEnoughTokens)
    else if payment.Allowance(buyer, sale) < cost then Err(NotEnoughAllowance)
    else
      Ok(Settlement(
        BuyOrder(buyer, c.rewardToken, c.paymentToken, rewardAmount, cost, c.buyPricePerUnit),
        reward.TransferFrom(sale, c.treasury, buyer, rewardAmount),
        payment.TransferFrom(sale, buyer, c.treasury, cost)))
  }

  /** sellExactAmount(rewardAmount) sent by `seller`. */
  function SellExactAmount(c: Config, sale: Address, seller: Address, rewardAmount: nat,
                           reward: Ledger, payment: Ledger): (r: Result<Settlement, SaleError>)
    requires seller != c.treasury
    ensures var cost := CostOf(c.sellPricePerUnit, rewardAmount);
      r.Ok? <==> && rewardAmount > 0
                 && reward.CanTransferFrom(sale, seller, rewardAmount)
                 && cost > 0
                 && payment.CanTransferFrom(sale, c.treasury, cost)
    ensures r.Ok? ==>
      var cost := CostOf(c.sellPricePerUnit, rewardAmount);
      && r.value.order == SellOrder(seller, c.rewardToken, c.paymentToken, rewardAmount, cost, c.sellPricePerUnit)
      && TransferredFrom(reward, r.value.reward, sale, seller, c.treasury, rewardAmount)
      && TransferredFrom(payment, r.value.payment, sale, c.treasury, seller, cost)
  {
    var cost := CostOf(c.sellPricePerUnit, rewardAmount);
    if rewardAmount == 0 then Err(AmountNotPositive)
    else if reward.BalanceOf(seller) < rewardAmount then Err(NotEnoughTokens)
    else if reward.Allowance(seller, sale) < rewardAmount then Err(NotEnoughAllowance)
    else if cost == 0 then Err(ResultingCostZero)
    else if payment.BalanceOf(c.treasury) < cost then Err(NotEnoughPaymentOnTreasury)
    else if payment.Allowance(c.treasury, sale) < cost then Err(NotEnoughPaymentAllowanceOnTreasury)
    else
      Ok(Settlement(
        SellOrder(seller, c.rewardToken, c.paymentToken, rewardAmount, cost, c.sellPricePerUnit),
        reward.TransferFrom(sale, seller, c.treasury, rewardAmount),
        payment.TransferFrom(sale, c.treasury, seller, cost)))
  }

  /** Each error of buyWithAmount is reported exactly when every earlier check passed and its own failed. */
  lemma BuyWithAmountCheckOrder(c: Config, sale: Address, buyer: Address, paymentAmount: nat,
                                reward: Ledger, payment: Ledger)
    requires c.buyPricePerUnit > 0 && buyer != c.treasury
    ensures var r := BuyWithAmount(c, sale, buyer, paymentAmount, reward, payment);
      var amount := BuyAmount(c.buyPricePerUnit, paymentAmount);
      var funded := paymentAmount > 0 && payment.BalanceOf(buyer) >= paymentAmount;
      var approved := funded && payment.Allowance(buyer, sale) >= paymentAmount;
      var worth := approved && amount > 0;
      var stocked := worth && reward.BalanceOf(c.treasury) >= amount;
      && (r == Err(AmountNotPositive) <==> paymentAmount == 0)
      && (r == Err(NotEnoughTokens) <==> paymentAmount > 0 && payment.BalanceOf(buyer) < paymentAmount)
      && (r == Err(NotEnoughAllowance) <==> funded && payment.Allowance(buyer, sale) < paymentAmount)
      && (r == Err(ResultingAmountZero) <==> approved && amount == 0)
      && (r == Err(NotEnoughRewardInTreasury) <==> worth && reward.BalanceOf(c.treasury) < amount)
      && (r == Err(NotEnoughRewardAllowanceInTreasury) <==> stocked && reward.Allowance(c.treasury, sale) < amount)
      && (r.Err? ==> r.error in {AmountNotPositive, NotEnoughTokens, NotEnoughAllowance, ResultingAmountZero,
                                 NotEnoughRewardInTreasury, NotEnoughRewardAllowanceInTreasury})
  {
  }

  /** Each error of buyExactAmount is reported exactly when every earlier check passed and its own failed. */
  lemma BuyExactAmountCheckOrder(c: Config, sale: Address, buyer: Address, rewardAmount: nat,
                                 reward: Ledger, payment: Ledger)
    requires buyer != c.treasury
    ensures var r := BuyExactAmount(c, sale, buyer, rewardAmount, reward, payment);
      var cost := CostOf(c.buyPricePerUnit, rewardAmount);
      var stocked := rewardAmount > 0 && reward.BalanceOf(c.treasury) >= rewardAmount;
      var approved := stocked && reward.Allowance(c.treasury, sale) >= rewardAmount;
      var worth := approved && cost > 0;
      var funded := worth && payment.BalanceOf(buyer) >= cost;
      && (r == Err(AmountNotPositive) <==> rewardAmount == 0)
      && (r == Err(NotEnoughRewardInTreasury) <==> rewardAmount > 0 && reward.BalanceOf(c.treasury) < rewardAmount)
      && (r == Err(NotEnoughRewardAllowanceInTreasury) <==> stocked && reward.Allowance(c.treasury, sale) < rewardAmount)
      && (r == Err(ResultingCostZero) <==> approved && cost == 0)
      && (r == Err(NotEnoughTokens) <==> worth && payment.BalanceOf(buyer) < cost)
      && (r == Err(NotEnoughAllowance) <==> funded && payment.Allowance(buyer, sale) < cost)
      && (r.Err? ==> r.error in {AmountNotPositive, NotEnoughRewardInTreasury, NotEnoughRewardAllowanceInTreasury,
                                 ResultingCostZero, NotEnoughTokens, NotEnoughAllowance})
  {
  }

  /** Each error of sellExactAmount is reported exactly when every earlier check passed and its own failed. */
  lemma SellExactAmountCheckOrder(c: Config, sale: Address, seller: Address, rewardAmount: nat,
                                  reward: Ledger, payment: Ledger)
    requires seller != c.treasury
    ensures var r := SellExactAmount(c, sale, seller, rewardAmount, reward, payment);
      var cost := CostOf(c.sellPricePerUnit, rewardAmount);
      var funded := rewardAmount > 0 && reward.BalanceOf(seller) >= rewardAmount;
      var approved := funded && reward.Allowance(seller, sale) >= rewardAmount;
      var worth := approved && cost > 0;
      var stocked := worth && payment.BalanceOf(c.treasury) >= cost;
      && (r == Err(AmountNotPositive) <==> rewardAmount == 0)
      && (r == Err(NotEnoughTokens) <==> rewardAmount > 0 && reward.BalanceOf(seller) < rewardAmount)
      && (r == Err(NotEnoughAllowance) <==> funded && reward.Allowance(seller, sale) < rewardAmount)
      && (r == Err(ResultingCostZero) <==> approved && cost == 0)
      && (r == Err(NotEnoughPaymentOnTreasury) <==> worth && payment.BalanceOf(c.treasury) < cost)
      && (r == Err(NotEnoughPaymentAllowanceOnTreasury) <==> stocked && payment.Allowance(c.treasury, sale) < cost)
      && (r.Err? ==> r.error in {AmountNotPositive, NotEnoughTokens, NotEnoughAllowance, ResultingCostZero,
                                 NotEnoughPaymentOnTreasury, NotEnoughPaymentAllowanceOnTreasury})
  {
  }

  /** buyWithAmount reports a short buyer balance even when the treasury is empty too. */
  lemma BuyWithAmountChecksBuyerFirst(c: Config, sale: Address, buyer: Address, paymentAmount: nat,
                                      reward: Ledger, payment: Ledger)
    requires c.buyPricePerUnit > 0 && buyer != c.treasury
    requires 0 < paymentAmount && payment.BalanceOf(buyer) < paymentAmount
    ensures BuyWithAmount(c, sale, buyer, paymentAmount, reward, payment) == Err(NotEnoughTokens)
  {
  }

  /** buyExactAmount reports an empty treasury even when the buyer has nothing either. */
  lemma BuyExactAmountChecksTreasuryFirst(c: Config, sale: Address, buyer: Address, rewardAmount: nat,
                                          reward: Ledger, payment: Ledger)
    requires buyer != c.treasury
    requires 0 < rewardAmount && reward.BalanceOf(c.treasury) < rewardAmount
    ensures BuyExactAmount(c, sale, buyer, rewardAmount, reward, payment) == Err(NotEnoughRewardInTreasury)
  {
  }

  /** A zero amount is rejected before any balance is looked at, by all three trades. */
  lemma ZeroAmountRejectedFirst(c: Config, sale: Address, caller: Address, reward: Ledger, payment: Ledger)
    requires c.buyPricePerUnit > 0 && caller != c.treasury
    ensures BuyWithAmount(c, sale, caller, 0, reward, payment) == Err(AmountNotPositive)
    ensures BuyExactAmount(c, sale, caller, 0, reward, payment) == Err(AmountNotPositive)
    ensures SellExactAmount(c, sale, caller, 0, reward, payment) == Err(AmountNotPositive)
  {
  }

  /** buyWithAmount never hands out reward tokens that cost, at the price it used, more than was paid. */
  lemma BuyWithAmountIsFair(c: Config, sale: Address, buyer: Address, paymentAmount: nat,
                            reward: Ledger, payment: Ledger)
    requires c.buyPricePerUnit > 0 && buyer != c.treasury
    requires BuyWithAmount(c, sale, buyer, paymentAmount, reward, payment).Ok?
    ensures var o := BuyWithAmount(c, sale, buyer, paymentAmount, reward, payment).value.order;
      CostOf(o.priceUsed, o.rewardAmount) <= o.paymentAmount
  {
    BuyNeverOvercharges(c.buyPricePerUnit, paymentAmount);
  }
}
