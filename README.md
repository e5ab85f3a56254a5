# DivinityCoin token sale, modelled in Dafny

DivinityCoin is sold for a payment token (a 6-decimal token) at fixed prices by the
contract `TokenSaleImplementation`, used either directly or behind an upgradeable proxy. The
owner sets the configuration: the reward token (DivinityCoin), the payment token, the treasury
and the two prices, each quoted in payment-token units per whole DivinityCoin (`10^18` base
units). Buyers either spend an exact payment (`buyWithAmount`) or receive an exact reward
amount (`buyExactAmount`). Holders sell an exact reward amount back (`sellExactAmount`). Every
trade moves tokens between the trader and the treasury with two EIP-20 `transferFrom` calls
that the sale contract spends, and emits `BuyOrder` or `SellOrder`. The testnet deployment
script guards the initialiser arguments, falls back to the deploying account as treasury, and
records each deployed address in a file named `./deploys/<network>/<name>[-<version>]`.

The Solidity source of the contract is not part of this model. Its behaviour is taken from
the two Hardhat suites `tests/TokenSaleImplementation.test.js` (bare contract) and
`tests/TokenSaleUpgradeable.test.js` (behind the proxy). The suites fix the revert strings, the rounding of the pricing getters, the
zero-sentinel rule of `setConfigs`, the balances after each trade, and the order of the
balance and allowance checks that they exercise together (for example, buyWithAmount
reports a short buyer before an empty treasury, buyExactAmount the reverse). Which place
the zero-result and zero-cost checks take among the others is not fixed by any test: in
each test in which one of them fails, every other check passes. The model's own choice is to
place each of them after the first account's checks and before the second account's.

Modules, one per file:

- `Wrappers`: `Option` and `Result`.
- `Erc20`: addresses (`nat`, 0 is the zero address), the value `Ledger` of one token's
  balances and allowances with mint, approve and transferFrom as functions, the predicates
  `Moved`, `AllowanceSpent` and `TransferredFrom` that say exactly what a transfer changes,
  and the class `Token`, the mock EIP-20 contract whose maps its methods update in place.
- `Pricing`: `UNIT = 10^18` and the getters `getBuyAmount`, `getBuyCost` and `getSellCost`
  as floor divisions, with their rounding properties.
- `Configuration`: the stored configuration as a value and the zero-sentinel update of
  `setConfigs`.
- `Exchange`: the revert reasons with their strings, the two events, and the three trades
  as pure functions from the configuration and the two ledgers to an error or a settlement.
- `TokenSale`: the class `TokenSaleImplementation`. Its fields are updated in place by
  `SetConfigs`. Its trade methods run the checks imperatively and call `Token.TransferFrom`
  on the two token objects. Each method is proved equal to the matching `Exchange` function.
- `Scenarios`: the suites' fixture and scenarios replayed on the classes; each scenario
  returns what the suite observes and states the suite's expectation as its postcondition.
- `Deploy`: the deployment script's argument guards and its record-file naming, with the
  record directory as a map from path to contents.

## Model

| member | source | states |
|---|---|---|
| Pricing.BuyAmount | tests/TokenSaleImplementation.test.js:137-144 | getBuyAmount is the floor of `paymentAmount * 10^18 / buyPrice`: `r * buyPrice <= paymentAmount * 10^18 < (r + 1) * buyPrice` |
| Pricing.CostOf | tests/TokenSaleImplementation.test.js:145-152 | getBuyCost and getSellCost are the floor of `rewardAmount * price / 10^18`, as a two-sided bound |
| Pricing.WholeUnitsCost | tests/TokenSaleImplementation.test.js:431-444 | k whole tokens cost exactly k times the price, at any price (1 and 2 tokens in the suites) |
| Pricing.BuyNeverOvercharges | tests/TokenSaleImplementation.test.js:243-292 | the reward bought for a payment never costs, at the same price, more than that payment |
| Pricing.BuyRoundTripNeverExceeds | tests/TokenSaleImplementation.test.js:137-152 | buying with the quoted cost of an amount never yields more than that amount |
| Pricing.BuyAmountZero | tests/TokenSaleImplementation.test.js:179-202 | the bought amount is zero exactly when `paymentAmount * 10^18 < buyPrice` |
| Pricing.CostZero | tests/TokenSaleImplementation.test.js:324-346 | a cost is zero exactly when `rewardAmount * price < 10^18` |
| Configuration.ApplyConfigs | tests/TokenSaleImplementation.test.js:62-135 | setConfigs keeps both prices positive when they were positive, and keeps a configuration with no zero field free of zero fields |
| Configuration.ApplyConfigsCompose | tests/TokenSaleImplementation.test.js:75-135 | two successive setConfigs calls equal one call taking each argument from the second call where it is non-zero and from the first otherwise |
| Configuration.AllZeroIsNoOp | tests/TokenSaleImplementation.test.js:75-135 | all-zero arguments leave the configuration unchanged |
| Configuration.NonZeroFieldsStayNonZero | tests/TokenSaleImplementation.test.js:75-135 | no field that is set can be reset to zero through setConfigs |
| Configuration.ApplyConfigsIdempotent | tests/TokenSaleImplementation.test.js:75-135 | repeating the same setConfigs call changes nothing more |
| Configuration.OnlyBuyPriceChanges | tests/TokenSaleImplementation.test.js:75-105 | setConfigs(0, 0, 0, p, 0) changes the buy price only |
| Configuration.OnlyTreasuryChanges | tests/TokenSaleImplementation.test.js:106-135 | setConfigs(0, 0, t, 0, 0) changes the treasury only |
| Erc20.Ledger.Mint | tests/TokenSaleImplementation.test.js:243-255 | mint credits the recipient and leaves every other balance and every allowance alone |
| Erc20.Ledger.Approve | tests/TokenSaleImplementation.test.js:256-262 | approve sets one allowance and leaves every other allowance and every balance alone |
| Erc20.Ledger.TransferFrom | tests/TokenSaleImplementation.test.js:265-292 | transferFrom moves the amount from sender to recipient, changes no other balance, and spends the spender's allowance by the amount |
| Exchange.BuyWithAmount | tests/TokenSaleImplementation.test.js:153-292 | succeeds exactly when the amount is positive, the buyer can pay, the bought amount is positive and the treasury can deliver; the payment then goes buyer to treasury, the bought amount goes treasury to buyer, and the BuyOrder carries both amounts and the price |
| Exchange.BuyExactAmount | tests/TokenSaleImplementation.test.js:295-429 | succeeds exactly when the amount is positive, the treasury can deliver it, the cost is positive and the buyer can pay it; the same two moves and event then follow |
| Exchange.SellExactAmount | tests/TokenSaleImplementation.test.js:445-592 | succeeds exactly when the amount is positive, the seller can deliver it, the cost is positive and the treasury can pay it; the tokens go seller to treasury, the cost treasury to seller, and a SellOrder is emitted |
| Exchange.MessagesDistinct | tests/TokenSaleImplementation.test.js:72-522 | no two revert reasons share a string, so the string the suites match (`Message` holds their `revertedWith` strings) identifies the failed check |
| Exchange.BuyWithAmountCheckOrder | tests/TokenSaleImplementation.test.js:153-242 | each revert reason of buyWithAmount occurs exactly when all earlier checks pass and its own check fails |
| Exchange.BuyExactAmountCheckOrder | tests/TokenSaleImplementation.test.js:295-388 | the same for buyExactAmount, which checks the treasury before the buyer |
| Exchange.SellExactAmountCheckOrder | tests/TokenSaleImplementation.test.js:445-523 | the same for sellExactAmount |
| Exchange.BuyWithAmountChecksBuyerFirst | tests/TokenSaleImplementation.test.js:160-165 | a short buyer balance is reported even when the treasury is empty |
| Exchange.BuyExactAmountChecksTreasuryFirst | tests/TokenSaleImplementation.test.js:303-309 | an empty treasury is reported even when the buyer holds nothing |
| Exchange.ZeroAmountRejectedFirst | tests/TokenSaleImplementation.test.js:154-159 | all three trades reject a zero amount first |
| Exchange.BuyWithAmountIsFair | tests/TokenSaleImplementation.test.js:243-292 | a successful buyWithAmount emits a reward amount whose cost at the used price is at most the payment |
| TokenSale.TokenSaleImplementation.Initialize | tests/TokenSaleImplementation.test.js:27-61 | initialize, given non-zero token addresses, treasury and prices, stores the five values as given, so the sale starts with no zero field |
| TokenSale.TokenSaleImplementation.GetBuyAmount | tests/TokenSaleImplementation.test.js:137-144 | getBuyAmount is the truncated quotient of `paymentAmount * 10^18` by the current buy price |
| TokenSale.TokenSaleImplementation.GetBuyCost | tests/TokenSaleImplementation.test.js:145-152 | getBuyCost is the truncated quotient of `rewardAmount * buyPrice` by `10^18` |
| TokenSale.TokenSaleImplementation.GetSellCost | tests/TokenSaleImplementation.test.js:431-444 | getSellCost is the truncated quotient of `rewardAmount * sellPrice` by `10^18` |
| TokenSale.TokenSaleImplementation.SetConfigs | tests/TokenSaleImplementation.test.js:62-135 | a call not from the owner reverts with the Ownable message and changes nothing; the owner's call applies the zero-sentinel update; the owner never changes, and no field becomes zero |
| TokenSale.TokenSaleImplementation.BuyWithAmount | tests/TokenSaleImplementation.test.js:153-292 | the in-place trade returns, and leaves both tokens in, exactly what `Exchange.BuyWithAmount` gives; a revert leaves both tokens unchanged |
| TokenSale.TokenSaleImplementation.BuyExactAmount | tests/TokenSaleImplementation.test.js:295-429 | the same against `Exchange.BuyExactAmount` |
| TokenSale.TokenSaleImplementation.SellExactAmount | tests/TokenSaleImplementation.test.js:445-592 | the same against `Exchange.SellExactAmount` |
| Erc20.Token.constructor | tests/TokenSaleImplementation.test.js:29-30 | a freshly deployed mock token has the given address and decimals, every balance 0 and every allowance 0 |
| Erc20.Token.Mint | tests/TokenSaleImplementation.test.js:243-255 | the token's new state is the ledger Mint of the old one |
| Erc20.Token.Approve | tests/TokenSaleImplementation.test.js:256-262 | the token's new state is the ledger Approve of the old one |
| Erc20.Token.TransferFrom | tests/TokenSaleImplementation.test.js:265-292 | reports success exactly when balance and allowance suffice; then the new state is the ledger TransferFrom, otherwise nothing changes |
| Scenarios.Fixture | tests/TokenSaleUpgradeable.test.js:42-109 | the fixture yields an initialised sale with the suites' configuration and two empty tokens |
| Scenarios.GetterValues | tests/TokenSaleUpgradeable.test.js:186-201 | on the fixture's sale, getBuyAmount gives 3183192742320547 for one payment unit, getBuyCost the buy price for one whole token, getSellCost the sell price for one and twice it for two (sell costs as at tests/TokenSaleUpgradeable.test.js:482-495) |
| Scenarios.SetConfigsFromNonOwnerReverts | tests/TokenSaleImplementation.test.js:63-74 | setConfigs from otherAccounts[0] reverts with NotOwner and the configuration stays the fixture's |
| Scenarios.SetConfigsChangesOnlyBuyPrice | tests/TokenSaleImplementation.test.js:75-105 | setConfigs(0, 0, 0, 314.16, 0) by the owner succeeds and only the buy price becomes 314160000 |
| Scenarios.SetConfigsChangesOnlyTreasury | tests/TokenSaleImplementation.test.js:106-135 | setConfigs(0, 0, otherAccounts[1], 0, 0) by the owner succeeds and only the treasury changes |
| Scenarios.BuyWithAmountReverts | tests/TokenSaleImplementation.test.js:154-178 | a zero amount, an empty buyer and an unapproved buyer revert with AmountNotPositive, NotEnoughTokens and NotEnoughAllowance in turn |
| Scenarios.BuyWithAmountResultingAmountZero | tests/TokenSaleImplementation.test.js:179-202 | at a buy price of 10^13 whole payment tokens, paying one smallest unit reverts with ResultingAmountZero |
| Scenarios.BuyWithAmountTreasuryShort | tests/TokenSaleImplementation.test.js:203-242 | a funded, approved buyer gets NotEnoughRewardInTreasury from an empty treasury and NotEnoughRewardAllowanceInTreasury from a stocked, unapproved one |
| Scenarios.BuyWithAmountSucceeds | tests/TokenSaleImplementation.test.js:243-292 | paying one payment unit emits a BuyOrder of 3183192742320547 at the buy price, and the four balances move accordingly |
| Scenarios.BuyExactAmountReverts | tests/TokenSaleImplementation.test.js:296-323 | a zero amount, an empty treasury, an unapproved treasury, an empty buyer and an unapproved buyer revert in that order with their five reasons |
| Scenarios.BuyExactAmountResultingCostZero | tests/TokenSaleImplementation.test.js:324-346 | at a buy price of 10, buying 100 smallest reward units reverts with ResultingCostZero |
| Scenarios.BuyExactAmountSucceeds | tests/TokenSaleImplementation.test.js:390-429 | buying one whole token emits a BuyOrder costing the buy price; the buyer ends with 1 token and no payment, the treasury with 99 tokens and the payment |
| Scenarios.SellExactAmountReverts | tests/TokenSaleImplementation.test.js:446-523 | a zero amount, an empty seller, an unapproved seller, an empty treasury and an unapproved treasury revert in that order with their five reasons |
| Scenarios.SellExactAmountResultingCostZero | tests/TokenSaleUpgradeable.test.js:520-541 | selling 10^7 smallest reward units at a sell price of 1 (proxy suite) or 10 (bare-contract suite) reverts with ResultingCostZero |
| Scenarios.SellExactAmountSucceeds | tests/TokenSaleImplementation.test.js:524-592 | selling k whole tokens at either suite's sell price emits a SellOrder of k times the price; the seller ends with the payment and no tokens, the treasury with the tokens and no payment |
| Deploy.MessagesDistinct | scripts/deploy-testnet.js:117-137 | no two guards throw the same message (`Message` holds the script's error strings), so the message identifies the failed guard |
| Deploy.ResolveInitArgs | scripts/deploy-testnet.js:117-137 | the guards pass exactly when both token addresses and both prices are non-zero, and then the arguments are passed on unchanged |
| Deploy.ResolveCheckOrder | scripts/deploy-testnet.js:117-137 | each guard's error is thrown exactly when the earlier guards pass and it fails |
| Deploy.TreasuryDefault | scripts/deploy-testnet.js:125-129 | a zero configured treasury is replaced by the deploying account, any other is kept |
| Deploy.ResolvedArgsAreNonZero | scripts/deploy-testnet.js:117-137 | resolved arguments contain no zero address and no zero price when the deployer is not the zero address |
| Deploy.RecordPath | scripts/deploy-testnet.js:17-26 | every record path starts with `./deploys/<network>/`, and when neither name nor version contains '/' the rest has no '/', so the record lies directly in that directory |
| Deploy.UpToHyphen | scripts/deploy-testnet.js:17-20 | the script never parses a file name; this is the model's inverse of the name template at line 19, used for the round trip: the hyphen-free prefix that stops at the first hyphen, or at the end when there is none |
| Deploy.RecordNameRoundTrip | scripts/deploy-testnet.js:17-20 | a hyphen-free name and its version are recovered from the record file name |
| Deploy.RecordPathInjective | scripts/deploy-testnet.js:17-26 | two deployments with hyphen-free names share a record path only when name and version agree |
| Deploy.HyphenatedNamesCollide | scripts/deploy-testnet.js:17-26 | with a hyphen in the name, ("A-b", no version) and ("A", version "b") share a record path |
| Deploy.WriteDeploymentAddress | scripts/deploy-testnet.js:17-21 | writeDeploymentAddress adds or overwrites the deployment's record with the address and keeps every other file |
| Deploy.ExistingDeploymentAddress | scripts/deploy-testnet.js:23-30 | existingDeploymentAddress returns the recorded contents when the record file exists and nothing otherwise |
| Deploy.ReadAfterWrite | scripts/deploy-testnet.js:17-30 | existingDeploymentAddress after writeDeploymentAddress returns the address written |
| Deploy.WritesDoNotInterfere | scripts/deploy-testnet.js:17-30 | writing one deployment's record leaves every other hyphen-free deployment's record as it was |

## Left out

- The Solidity contract, the proxy (`AdminProxy`, `UpgradeableContract`, `Deployer`) and vanity deployment are not part of this model; both suites are modelled by one class, and the proxy suite differs only in its sell price (`144 * 10^18`) and its zero-cost sell price (1).
- uint256 arithmetic is not bounded: amounts and prices are `nat`, so overflow reverts of `paymentAmount * 10^18` or `rewardAmount * price` are not modelled.
- Events are not logged: each trade returns the `BuyOrder` or `SellOrder` value it would emit.
- Reentrancy and transaction ordering are left out; each call is atomic.
- TokenSale.TokenSaleImplementation.BuyWithAmount: requires the caller not to be the treasury, because the two moves would then net out on one account and the model's move predicate states a strict transfer; the same holds for BuyExactAmount and SellExactAmount.
- TokenSale.TokenSaleImplementation.BuyWithAmount: requires the two token objects to carry the configured addresses, because the sale reaches its tokens by address; the same holds for BuyExactAmount and SellExactAmount.
- TokenSale.TokenSaleImplementation.Initialize: requires non-zero token addresses, a non-zero treasury and positive prices instead of modelling the revert that rejects them (a constructor cannot return an error); the deployment script guards the two token addresses and the two prices (scripts/deploy-testnet.js:117-123, 131-137) but gives the treasury a default instead of checking it (125-129), and its confirmation loops (139-161) may replace the guarded addresses afterwards; the suites always pass non-zero values. The once-only initialiser guard and initialisation through the proxy are not modelled, and the owner is a parameter.
- TokenSale.TokenSaleImplementation.BuyWithAmount, BuyExactAmount and SellExactAmount: require (through `TradesWith`) that the configuration names two different tokens, because the model settles the two moves on two separate ledgers; a configuration whose reward token and payment token are the same contract, which setConfigs accepts, is not modelled.
- Erc20.Token.TransferFrom: models the suites' mock token only; the zero-address checks and the unlimited allowance of a full OpenZeppelin token are left out, and `decimals` is carried but never used in arithmetic.
- The deployment script's confirmation loops (scripts/deploy-testnet.js:139-161) read replacement addresses from the terminal after the guards; this interactive input is left out.
- File-system I/O is modelled as a map from path to contents: the record file's `existsSync` check (scripts/deploy-testnet.js:26) becomes map membership, and the network name is a parameter. Directory creation by `ensureDeploysDirectory` (scripts/deploy-testnet.js:10-15) is not modelled.
- The contract deployment and upgrade steps of the script, the integration web page and server, and the other scripts and utilities are not part of this model.
