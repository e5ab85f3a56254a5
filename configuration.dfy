/**
 * The sale's stored configuration (DivinityCoin(), PaymentToken(), Treasury(),
 * buyPricePerUnit(), sellPricePerUnit()) and the zero-sentinel rule of setConfigs:
 * a zero argument leaves its field as it is, any other argument replaces it.
 */
module Configuration {
  import opened Erc20

  datatype Config = Config(
    rewardToken: Address,
    paymentToken: Address,
    treasury: Address,
    buyPricePerUnit: nat,
    sellPricePerUnit: nat)
  {
    /** Both prices can be divided by; the pricing getters need the buy price to be positive. */
    predicate PricesPositive() {
      buyPricePerUnit > 0 && sellPricePerUnit > 0
    }

    /** No field holds the sentinel: both tokens and the treasury are set and both prices are positive. */
    predicate NonZero() {
      && rewardToken != ZERO_ADDRESS && paymentToken != ZERO_ADDRESS && treasury != ZERO_ADDRESS
      && PricesPositive()
    }
  }

  /** A requested value, where zero means "keep the current one". */
  function Pick(current: nat, requested: nat): (r: nat) {
    if requested == 0 then current else requested
  }

  /** The configuration after setConfigs(rewardToken, paymentToken, treasury, buyPrice, sellPrice). */
  function ApplyConfigs(c: Config, rewardToken: Address, paymentToken: Address, treasury: Address,
                        buyPrice: nat, sellPrice: nat): (r: Config)
    ensures c.PricesPositive() ==> r.PricesPositive()
    ensures c.NonZero() ==> r.NonZero()
  {
    Config(Pick(c.rewardToken, rewardToken),
           Pick(c.paymentToken, paymentToken),
           Pick(c.treasury, treasury),
           Pick(c.buyPricePerUnit, buyPrice),
           Pick(c.sellPricePerUnit, sellPrice))
  }

  /** All-zero arguments leave the configuration exactly as it was. */
  lemma AllZeroIsNoOp(c: Config)
    ensures ApplyConfigs(c, 0, 0, 0, 0, 0) == c
  {
  }

  /** A field that is set can never be reset to zero through setConfigs. */
  lemma NonZeroFieldsStayNonZero(c: Config, rewardToken: Address, paymentToken: Address, treasury: Address,
                                 buyPrice: nat, sellPrice: nat)
    ensures var r := ApplyConfigs(c, rewardToken, paymentToken, treasury, buyPrice, sellPrice);
      && (c.rewardToken != 0 ==> r.rewardToken != 0)
      && (c.paymentToken != 0 ==> r.paymentToken != 0)
      && (c.treasury != 0 ==> r.treasury != 0)
      && (c.buyPricePerUnit != 0 ==> r.buyPricePerUnit != 0)
      && (c.sellPricePerUnit != 0 ==> r.sellPricePerUnit != 0)
  {
  }

  /** Repeating the same setConfigs call changes nothing further. */
  lemma ApplyConfigsIdempotent(c: Config, rewardToken: Address, paymentToken: Address, treasury: Address,
                               buyPrice: nat, sellPrice: nat)
    ensures var r := ApplyConfigs(c, rewardToken, paymentToken, treasury, buyPrice, sellPrice);
      ApplyConfigs(r, rewardToken, paymentToken, treasury, buyPrice, sellPrice) == r
  {
  }

  /** setConfigs(0, 0, 0, p, 0) with p > 0 changes the buy price and nothing else. */
  lemma OnlyBuyPriceChanges(c: Config, buyPrice: nat)
    requires buyPrice > 0
    ensures ApplyConfigs(c, 0, 0, 0, buyPrice, 0) == c.(buyPricePerUnit := buyPrice)
  {
  }

  /** setConfigs(0, 0, t, 0, 0) with t non-zero changes the treasury and nothing else. */
  lemma OnlyTreasuryChanges(c: Config, treasury: Address)
    requires treasury != 0
    ensures ApplyConfigs(c, 0, 0, treasury, 0, 0) == c.(treasury := treasury)
  {
  }

  /**
   * Two successive setConfigs calls act as one call whose every argument is the second
   * call's where that is non-zero and the first call's otherwise.
   */
  lemma ApplyConfigsCompose(c: Config,
                            rewardToken: Address, paymentToken: Address, treasury: Address,
                            buyPrice: nat, sellPrice: nat,
                            rewardToken': Address, paymentToken': Address, treasury': Address,
                            buyPrice': nat, sellPrice': nat)
    ensures ApplyConfigs(ApplyConfigs(c, rewardToken, paymentToken, treasury, buyPrice, sellPrice),
                         rewardToken', paymentToken', treasury', buyPrice', sellPrice')
         == ApplyConfigs(c, Pick(rewardToken, rewardToken'), Pick(paymentToken, paymentToken'),
                         Pick(treasury, treasury'), Pick(buyPrice, buyPrice'), Pick(sellPrice, sellPrice'))
  {
  }
}
