/**
 * The two tokens the sale trades (the payment token and the reward token, "DivinityCoin"),
 * modelled as EIP-20 ledgers: a balance per account and an allowance per (owner, spender)
 * pair. `Ledger` is the value of one token's state with the EIP-20 operations as functions;
 * `Token` is the deployed token contract whose two maps those operations update in place.
 * `Mint` is the test token's (MockERC20Token) extra operation for funding accounts.
 */
module Erc20 {

  /** An account or contract identity; 0 stands for the zero address. */
  type Address = nat

  const ZERO_ADDRESS: Address := 0

  datatype Ledger = Ledger(balances: map<Address, nat>, allowances: map<(Address, Address), nat>)
  {
    /** balanceOf: an account never credited holds 0. */
    function BalanceOf(account: Address): (r: nat) {
      if account in balances then balances[account] else 0
    }

    /** allowance(owner, spender): a pair never approved has allowance 0. */
    function Allowance(owner: Address, spender: Address): (r: nat) {
      if (owner, spender) in allowances then allowances[(owner, spender)] else 0
    }

    /** The test token's mint: credits `amount` to `to` and touches nothing else. */
    function Mint(to: Address, amount: nat): (r: Ledger)
      ensures r.BalanceOf(to) == BalanceOf(to) + amount
      ensures forall a :: a != to ==> r.BalanceOf(a) == BalanceOf(a)
      ensures r.allowances == allowances
      ensures forall o: Address, s: Address :: r.Allowance(o, s) == Allowance(o, s)
    {
      Ledger(balances[to := BalanceOf(to) + amount], allowances)
    }

    /** approve(spender, amount) sent by `owner`: overwrites that one allowance. */
    function Approve(owner: Address, spender: Address, amount: nat): (r: Ledger)
      ensures r.Allowance(owner, spender) == amount
      ensures forall o: Address, s: Address :: (o, s) != (owner, spender) ==> r.Allowance(o, s) == Allowance(o, s)
      ensures r.balances == balances
      ensures forall a :: r.BalanceOf(a) == BalanceOf(a)
    {
      Ledger(balances, allowances[(owner, spender) := amount])
    }

    /** transferFrom succeeds exactly when `from` holds the amount and has allowed `spender` that much. */
    predicate CanTransferFrom(spender: Address, from: Address, amount: nat) {
      amount <= BalanceOf(from) && amount <= Allowance(from, spender)
    }

    /**
     * transferFrom(from, to, amount) sent by `spender`: moves `amount` from `from` to `to`
     * and spends that much of the allowance `from` gave `spender`.
     */
    function TransferFrom(spender: Address, from: Address, to: Address, amount: nat): (r: Ledger)
      requires CanTransferFrom(spender, from, amount)
      ensures from != to ==> TransferredFrom(this, r, spender, from, to, amount)
      ensures from == to ==> forall a :: r.BalanceOf(a) == BalanceOf(a)
      ensures AllowanceSpent(this, r, spender, from, amount)
    {
      var debited := Ledger(balances[from := BalanceOf(from) - amount], allowances);
      Ledger(debited.balances[to := debited.BalanceOf(to) + amount],
             allowances[(from, spender) := Allowance(from, spender) - amount])
    }
  }

  /**
   * `after` differs from `before` by exactly `amount` taken from `from` and given to `to`:
   * no other balance changes.
   */
  ghost predicate Moved(before: Ledger, after: Ledger, from: Address, to: Address, amount: nat) {
    && after.BalanceOf(from) + amount == before.BalanceOf(from)
    && after.BalanceOf(to) == before.BalanceOf(to) + amount
    && forall a :: a != from && a != to ==> after.BalanceOf(a) == before.BalanceOf(a)
  }

  /** `after` has `amount` less of the allowance `from` gave `spender`, and every other allowance as before. */
  ghost predicate AllowanceSpent(before: Ledger, after: Ledger, spender: Address, from: Address, amount: nat) {
    && after.Allowance(from, spender) + amount == before.Allowance(from, spender)
    && forall o: Address, s: Address :: (o, s) != (from, spender) ==> after.Allowance(o, s) == before.Allowance(o, s)
  }

  /** The effect of one transferFrom sent by `spender`: the balances moved and the allowance spent. */
  ghost predicate TransferredFrom(before: Ledger, after: Ledger, spender: Address, from: Address, to: Address, amount: nat) {
    Moved(before, after, from, to, amount) && AllowanceSpent(before, after, spender, from, amount)
  }

  /** A token contract: its balance and allowance tables are updated in place. */
  class Token {
    const address: Address
    const decimals: nat
    var balances: map<Address, nat>
    var allowances: map<(Address, Address), nat>

    /** The token's state as a value. */
    function State(): (r: Ledger)
      reads this
    {
      Ledger(balances, allowances)
    }

    function BalanceOf(account: Address): (r: nat)
      reads this
    {
      State().BalanceOf(account)
    }

    function Allowance(owner: Address, spender: Address): (r: nat)
      reads this
    {
      State().Allowance(owner, spender)
    }

    /** Deploys an empty token. */
    constructor (address: Address, decimals: nat)
      ensures this.address == address && this.decimals == decimals
      ensures forall a :: State().BalanceOf(a) == 0
      ensures forall o: Address, s: Address :: State().Allowance(o, s) == 0
    {
      this.address := address;
      this.decimals := decimals;
      balances := map[];
      allowances := map[];
    }

    method Mint(to: Address, amount: nat)
      modifies this
      ensures State() == old(State()).Mint(to, amount)
    {
      balances := balances[to := BalanceOf(to) + amount];
    }

    method Approve(owner: Address, spender: Address, amount: nat)
      modifies this
      ensures State() == old(State()).Approve(owner, spender, amount)
    {
      allowances := allowances[(owner, spender) := amount];
    }

    /** Reports failure (and changes nothing) when the balance or the allowance is short. */
    method TransferFrom(spender: Address, from: Address, to: Address, amount: nat) returns (ok: bool)
      modifies this
      ensures ok == old(State()).CanTransferFrom(spender, from, amount)
      ensures State() == if ok then old(State()).TransferFrom(spender, from, to, amount) else old(State())
    {
      ok := amount <= BalanceOf(from) && amount <= Allowance(from, spender);
      if ok {
        allowances := allowances[(from, spender) := Allowance(from, spender) - amount];
        balances := balances[from := BalanceOf(from) - amount];
        balances := balances[to := BalanceOf(to) + amount];
      }
    }
  }
}
