/**
 * The token-custody collaborator: fungible-token balances held by address,
 * with an all-or-nothing transfer that reverts on insufficient balance.
 */
module Ledger {
  import opened Results

  /** Balances, keyed by (token, holder); an absent entry is a zero balance. */
  type Balances = map<(nat, nat), nat>

  datatype TransferError = ExceedsBalance

  function BalanceOf(bal: Balances, token: nat, holder: nat): nat
  {
    if (token, holder) in bal then bal[(token, holder)] else 0
  }

  /** Moves `amount` of `token` from `from` to `to`, or reverts. */
  function Transfer(bal: Balances, token: nat, from: nat, to: nat, amount: nat): (r: Result<Balances, TransferError>)
    ensures r.Ok? <==> amount <= BalanceOf(bal, token, from)
    ensures r.Ok? && from != to ==>
      BalanceOf(r.value, token, from) + amount == BalanceOf(bal, token, from)
      && BalanceOf(r.value, token, to) == BalanceOf(bal, token, to) + amount
    ensures r.Ok? && from == to ==> BalanceOf(r.value, token, from) == BalanceOf(bal, token, from)
    ensures r.Ok? ==> forall t: nat, h: nat {:trigger BalanceOf(r.value, t, h)} :: (t, h) != (token, from) && (t, h) != (token, to) ==>
      BalanceOf(r.value, t, h) == BalanceOf(bal, t, h)
  {
    if amount > BalanceOf(bal, token, from) then
      Err(ExceedsBalance)
    else
      var debited := bal[(token, from) := BalanceOf(bal, token, from) - amount];
      Ok(debited[(token, to) := BalanceOf(debited, token, to) + amount])
  }

  /** A token contract's balance table, updated in place by transfers. */
  class TokenLedger {
    var balances: Balances

    constructor (initial: Balances)
      ensures balances == initial
    {
      balances := initial;
    }

    method Balance(token: nat, holder: nat) returns (amount: nat)
      ensures amount == BalanceOf(balances, token, holder)
    {
      amount := if (token, holder) in balances then balances[(token, holder)] else 0;
    }

    /** `transferFrom`: on success the table becomes the transferred one; on failure nothing changes. */
    method TransferFrom(token: nat, from: nat, to: nat, amount: nat) returns (ok: bool)
      modifies this
      ensures ok == Transfer(old(balances), token, from, to, amount).Ok?
      ensures ok ==> balances == Transfer(old(balances), token, from, to, amount).value
      ensures !ok ==> balances == old(balances)
    {
      var held := Balance(token, from);
      if amount > held {
        return false;
      }
      balances := balances[(token, from) := held - amount];
      var received := Balance(token, to);
      balances := balances[(token, to) := received + amount];
      ok := true;
    }
  }
}
