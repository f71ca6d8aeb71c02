/** ERC-20 balances and allowances (EIP-20), as both contracts see them. */
module Erc20 {
  import opened Common
  import opened Keccak

  datatype Tokens = Tokens(balances: map<(Address, Address), nat>, allowances: map<(Address, Address, Address), nat>)

  function Balance(s: Tokens, token: Address, account: Address): nat {
    if (token, account) in s.balances then s.balances[(token, account)] else 0
  }

  function AllowanceOf(s: Tokens, token: Address, owner: Address, spender: Address): nat {
    if (token, owner, spender) in s.allowances then s.allowances[(token, owner, spender)] else 0
  }

  predicate Bounded(s: Tokens) {
    forall k :: k in s.allowances ==> s.allowances[k] <= MAX_UINT
  }

  function Moved(s: Tokens, token: Address, from: Address, to: Address, amount: nat): Tokens
    requires amount <= Balance(s, token, from)
  {
    var debited := s.balances[(token, from) := Balance(s, token, from) - amount];
    var s' := s.(balances := debited);
    s'.(balances := debited[(token, to) := Balance(s', token, to) + amount])
  }

  /** `transfer`; a failure makes SafeERC20 revert. */
  function Transfer(s: Tokens, token: Address, from: Address, to: Address, amount: nat): Option<Tokens> {
    if to == 0 || Balance(s, token, from) < amount then None
    else Some(Moved(s, token, from, to, amount))
  }

  /** An unlimited allowance is not spent. */
  function Spent(s: Tokens, token: Address, owner: Address, spender: Address, amount: nat): Tokens
    requires amount <= AllowanceOf(s, token, owner, spender)
  {
    var a := AllowanceOf(s, token, owner, spender);
    if a == MAX_UINT then s else s.(allowances := s.allowances[(token, owner, spender) := a - amount])
  }

  /** `transferFrom` called by `spender`. */
  function TransferFrom(s: Tokens, token: Address, spender: Address, from: Address, to: Address, amount: nat): Option<Tokens> {
    if AllowanceOf(s, token, from, spender) < amount then None
    else Transfer(Spent(s, token, from, spender, amount), token, from, to, amount)
  }

  function Approve(s: Tokens, token: Address, owner: Address, spender: Address, amount: nat): Tokens {
    s.(allowances := s.allowances[(token, owner, spender) := amount])
  }

  /** What one move of `amount` from `from` to `to` means for `account`. */
  function Delta(from: Address, to: Address, amount: nat, account: Address): int {
    (if account == to then amount as int else 0) - (if account == from then amount as int else 0)
  }

  lemma MovedBalances(s: Tokens, token: Address, from: Address, to: Address, amount: nat, t: Address, a: Address)
    requires amount <= Balance(s, token, from)
    ensures Balance(Moved(s, token, from, to, amount), t, a)
         == Balance(s, t, a) + if t == token then Delta(from, to, amount, a) else 0
  {
  }

  lemma TransferFromBalances(
    s: Tokens, token: Address, spender: Address, from: Address, to: Address, amount: nat, t: Address, a: Address)
    requires TransferFrom(s, token, spender, from, to, amount).Some?
    ensures Balance(TransferFrom(s, token, spender, from, to, amount).value, t, a)
         == Balance(s, t, a) + if t == token then Delta(from, to, amount, a) else 0
    ensures Bounded(s) ==> Bounded(TransferFrom(s, token, spender, from, to, amount).value)
  {
    var s' := Spent(s, token, from, spender, amount);
    assert Balance(s', t, a) == Balance(s, t, a) && Balance(s', token, from) == Balance(s, token, from);
    MovedBalances(s', token, from, to, amount, t, a);
  }
}
