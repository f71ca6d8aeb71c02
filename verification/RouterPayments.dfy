/** Exactly when the router takes a payment, and who sets its terms
    (contracts/src/PaymentRouter.sol). */
module RouterPayments {
  import opened Common
  import opened Keccak
  import opened Erc20
  import opened PaymentRouter
  import VaultAuthority

  /** A plain payment succeeds exactly when the router is not paused, reference and token
      are not zero, the token is supported, the amount is positive and at least the
      token's minimum, the id is unpaid, there is a treasury, and the payer's allowance to
      the router and balance cover the amount. */
  lemma PaymentSucceedsIff(s: State, caller: Address, now: nat, ref: Word, token: Address, amount: nat)
    ensures PayInvoice(s, caller, now, ref, token, amount).Ok? <==>
            && !s.paused && ref != Num(0) && token != 0 && token in s.supportedTokens
            && amount > 0 && (token in s.minAmount ==> s.minAmount[token] <= amount)
            && Keccak([ref, Num(token), Num(amount)]) !in s.invoicePaid
            && s.treasury != 0 && amount <= AllowanceOf(s.tokens, token, caller, s.self) && amount <= Balance(s.tokens, token, caller)
  {
    VaultAuthority.TransferFromSucceedsIff(s.tokens, token, s.self, caller, s.treasury, amount);
  }

  /** An expiring payment likewise, for its own id, and only up to a nonzero deadline. */
  lemma ExpiringPaymentSucceedsIff(s: State, caller: Address, now: nat, ref: Word, token: Address, amount: nat, deadline: nat)
    ensures PayInvoiceWithExpiry(s, caller, now, ref, token, amount, deadline).Ok? <==>
            && !s.paused && (deadline == 0 || now <= deadline)
            && ref != Num(0) && token != 0 && token in s.supportedTokens
            && amount > 0 && (token in s.minAmount ==> s.minAmount[token] <= amount)
            && Keccak([ref, Num(token), Num(amount), Num(deadline)]) !in s.invoicePaid
            && s.treasury != 0 && amount <= AllowanceOf(s.tokens, token, caller, s.self) && amount <= Balance(s.tokens, token, caller)
  {
    VaultAuthority.TransferFromSucceedsIff(s.tokens, token, s.self, caller, s.treasury, amount);
  }

  /** The payer's signature counts exactly for what it was given for, once, in time. */
  predicate GoodPermit(s: State, caller: Address, now: nat, token: Address, amount: nat, p: Permit) {
    && p.Signed? && p.holder == caller && p.spender == s.self && p.token == token && p.value == amount
    && p.nonce == (if (token, caller) in s.nonces then s.nonces[(token, caller)] else 0)
    && now <= p.deadline && amount <= MAX_UINT
  }

  /** A payment with a permit succeeds exactly when the plain one would, where a good
      permit stands in for the allowance and a bad one leaves the allowance as it is. */
  lemma PermitPaymentSucceedsIff(s: State, caller: Address, now: nat, ref: Word, token: Address, amount: nat, p: Permit)
    ensures PayInvoiceWithPermit(s, caller, now, ref, token, amount, p).Ok? <==>
            && !s.paused && ref != Num(0) && token != 0 && token in s.supportedTokens
            && amount > 0 && (token in s.minAmount ==> s.minAmount[token] <= amount)
            && Keccak([ref, Num(token), Num(amount)]) !in s.invoicePaid
            && s.treasury != 0 && amount <= Balance(s.tokens, token, caller)
            && (GoodPermit(s, caller, now, token, amount, p) || amount <= AllowanceOf(s.tokens, token, caller, s.self))
  {
    var s' := TryPermit(s, caller, now, token, amount, p);
    PaymentSucceedsIff(s', caller, now, ref, token, amount);
    if GoodPermit(s, caller, now, token, amount, p) {
      assert AllowanceOf(s'.tokens, token, caller, s.self) == amount;
    }
    assert Balance(s'.tokens, token, caller) == Balance(s.tokens, token, caller);
  }

  /** What a payment that succeeds leaves: the id is paid, the event names the treasury of
      that moment, and nothing else but the tokens has changed. */
  lemma PaymentLeaves(s: State, caller: Address, now: nat, ref: Word, token: Address, amount: nat)
    requires PayInvoice(s, caller, now, ref, token, amount).Ok?
    ensures var (s', id) := (PayInvoice(s, caller, now, ref, token, amount).state, Keccak([ref, Num(token), Num(amount)]));
            && s' == s.(tokens := s'.tokens, invoicePaid := s.invoicePaid + {id},
                        log := s.log + [InvoicePaid(id, caller, token, ref, amount, s.treasury, now)])
            && forall t, a :: Balance(s'.tokens, t, a) == Balance(s.tokens, t, a) + if t == token then Delta(caller, s.treasury, amount, a) else 0
  {
    forall t, a
      ensures Balance(PayInvoice(s, caller, now, ref, token, amount).state.tokens, t, a)
           == Balance(s.tokens, t, a) + if t == token then Delta(caller, s.treasury, amount, a) else 0
    {
      TransferFromBalances(s.tokens, token, s.self, caller, s.treasury, amount, t, a);
    }
  }

  /** Which error refuses a plain payment: the first that applies, in this order. */
  lemma PaymentRefusals(s: State, caller: Address, now: nat, ref: Word, token: Address, amount: nat)
    ensures var r := PayInvoice(s, caller, now, ref, token, amount);
            if s.paused then r == Revert(EnforcedPause)
            else if ref == Num(0) then r == Revert(InvalidReference)
            else if token == 0 then r == Revert(InvalidToken)
            else if token !in s.supportedTokens then r == Revert(UnsupportedToken)
            else if amount == 0 then r == Revert(InvalidAmount)
            else if token in s.minAmount && amount < s.minAmount[token] then r == Revert(AmountBelowMinimum)
            else if Keccak([ref, Num(token), Num(amount)]) in s.invoicePaid then r == Revert(InvoiceAlreadyPaid)
            else r.Ok? || r == Revert(TransferFailed)
  {
  }

  /** The owner's calls, exactly: who may make them, with what, and what they change. */
  lemma OwnerCalls(s: State, caller: Address, now: nat, a: Address, flag: bool, amount: nat)
    ensures var r := Invoke(s, caller, now, DoSetTreasury(a));
            && (r.Ok? <==> caller == s.owner && a != 0)
            && (r.Ok? ==> r.state == s.(treasury := a, log := s.log + [TreasuryUpdated(s.treasury, a)]))
    ensures var r := Invoke(s, caller, now, DoSetTokenSupported(a, flag, amount));
            && (r.Ok? <==> caller == s.owner && a != 0)
            && (r.Ok? ==>
                  && r.state == s.(supportedTokens := r.state.supportedTokens, minAmount := s.minAmount[a := amount],
                                   log := s.log + [TokenSupportUpdated(a, flag)] + [MinAmountUpdated(a, amount)])
                  && forall t :: t in r.state.supportedTokens <==> if t == a then flag else t in s.supportedTokens)
    ensures var r := Invoke(s, caller, now, DoPause);
            (r.Ok? <==> caller == s.owner && !s.paused) && (r.Ok? ==> r.state == s.(paused := true))
    ensures var r := Invoke(s, caller, now, DoUnpause);
            (r.Ok? <==> caller == s.owner && s.paused) && (r.Ok? ==> r.state == s.(paused := false))
  {
  }

  /** An emergency withdrawal sends the router's own tokens, on the owner's word alone. */
  lemma EmergencyWithdrawIff(s: State, caller: Address, now: nat, token: Address, to: Address, amount: nat)
    ensures var r := Invoke(s, caller, now, DoEmergencyWithdraw(token, to, amount));
            && (r.Ok? <==> caller == s.owner && token != 0 && to != 0 && amount <= Balance(s.tokens, token, s.self))
            && (r.Ok? ==>
                  && r.state == s.(tokens := r.state.tokens, log := s.log + [EmergencyWithdraw(token, to, amount)])
                  && forall t, a :: Balance(r.state.tokens, t, a) == Balance(s.tokens, t, a) + if t == token then Delta(s.self, to, amount, a) else 0)
  {
    if amount <= Balance(s.tokens, token, s.self) {
      forall t, a
        ensures Balance(Moved(s.tokens, token, s.self, to, amount), t, a)
             == Balance(s.tokens, t, a) + if t == token then Delta(s.self, to, amount, a) else 0
      {
        MovedBalances(s.tokens, token, s.self, to, amount, t, a);
      }
    }
  }

  // ---- Authority over runs -------------------------------------------------

  function Supported(log: seq<Event>, token: Address): bool {
    if |log| == 0 then false
    else
      var e := log[|log| - 1];
      if e.TokenSupportUpdated? && e.supportToken == token then e.supported else Supported(log[..|log| - 1], token)
  }

  function Minimum(log: seq<Event>, token: Address): nat {
    if |log| == 0 then 0
    else
      var e := log[|log| - 1];
      if e.MinAmountUpdated? && e.minToken == token then e.minimum else Minimum(log[..|log| - 1], token)
  }

  ghost predicate FollowsLog(s: State) {
    && (forall t :: t in s.supportedTokens <==> Supported(s.log, t))
    && (forall t :: MinimumOf(s, t) == Minimum(s.log, t))
  }

  lemma LogAppend(log: seq<Event>, e: Event)
    ensures forall t :: Supported(log + [e], t) == if e.TokenSupportUpdated? && e.supportToken == t then e.supported else Supported(log, t)
    ensures forall t :: Minimum(log + [e], t) == if e.MinAmountUpdated? && e.minToken == t then e.minimum else Minimum(log, t)
  {
    assert (log + [e])[..|log|] == log;
  }

  /** What one transaction adds, it was entitled to. */
  ghost predicate Entitled(s: State, tx: Tx, e: Event) {
    && (e.InvoicePaid? ==>
          && !s.paused && Supported(s.log, e.token) && e.amount >= Minimum(s.log, e.token) && e.amount > 0
          && e.payer == tx.caller && e.at == tx.now && e.treasury == s.treasury)
    && (e.TreasuryUpdated? || e.TokenSupportUpdated? || e.MinAmountUpdated? || e.EmergencyWithdraw? ==> tx.caller == s.owner)
  }

  ghost predicate TxOk(s: State, tx: Tx, s': State) {
    && |s.log| <= |s'.log| && s'.log[..|s.log|] == s.log && s'.owner == s.owner
    && FollowsLog(s') && forall k :: |s.log| <= k < |s'.log| ==> Entitled(s, tx, s'.log[k])
  }

  lemma OneEventIsOk(s: State, tx: Tx, s': State, e: Event)
    requires FollowsLog(s) && !e.TokenSupportUpdated? && !e.MinAmountUpdated? && Entitled(s, tx, e)
    requires s'.log == s.log + [e] && s'.owner == s.owner && s'.supportedTokens == s.supportedTokens && s'.minAmount == s.minAmount
    ensures TxOk(s, tx, s')
  {
    LogAppend(s.log, e);
  }

  lemma SupportIsOk(s: State, tx: Tx)
    requires FollowsLog(s) && tx.call.DoSetTokenSupported? && Invoke(s, tx.caller, tx.now, tx.call).Ok?
    ensures TxOk(s, tx, Transact(s, tx))
  {
    var (a, flag, minimum) := (tx.call.supportToken, tx.call.supported, tx.call.minimum);
    LogAppend(s.log, TokenSupportUpdated(a, flag));
    LogAppend(s.log + [TokenSupportUpdated(a, flag)], MinAmountUpdated(a, minimum));
  }

  lemma PaymentIsOk(s: State, tx: Tx)
    requires FollowsLog(s) && Invoke(s, tx.caller, tx.now, tx.call).Ok?
    requires tx.call.DoPay? || tx.call.DoPayWithPermit? || tx.call.DoPayWithExpiry?
    ensures TxOk(s, tx, Transact(s, tx))
  {
    var s' := Transact(s, tx);
    OneEventIsOk(s, tx, s', s'.log[|s.log|]);
  }

  lemma TxIsEntitled(s: State, tx: Tx)
    requires FollowsLog(s)
    ensures TxOk(s, tx, Transact(s, tx))
  {
    var s' := Transact(s, tx);
    if Invoke(s, tx.caller, tx.now, tx.call).Ok? {
      match tx.call
      case DoSetTreasury(t) => OneEventIsOk(s, tx, s', TreasuryUpdated(s.treasury, t));
      case DoSetTokenSupported(_, _, _) => SupportIsOk(s, tx);
      case DoEmergencyWithdraw(t, to, amount) => OneEventIsOk(s, tx, s', EmergencyWithdraw(t, to, amount));
      case DoPay(_, _, _) => PaymentIsOk(s, tx);
      case DoPayWithPermit(_, _, _, _) => PaymentIsOk(s, tx);
      case DoPayWithExpiry(_, _, _, _) => PaymentIsOk(s, tx);
      case DoTransfer(t, to, amount) => OneEventIsOk(s, tx, s', Elsewhere(t, tx.caller, to, amount));
      case DoTransferFrom(t, holder, to, amount) => OneEventIsOk(s, tx, s', Elsewhere(t, holder, to, amount));
      case _ => assert s'.log[..|s.log|] == s.log;
    } else {
      assert s.log[..|s.log|] == s.log;
    }
  }

  lemma {:induction false} StorageFollowsLog(s: State, txs: seq<Tx>)
    requires Deployed(s) && s.supportedTokens == {} && s.minAmount == map[]
    ensures FollowsLog(Run(s, txs)) && Run(s, txs).owner == s.owner
  {
    if |txs| == 0 {
      LogAppend([], s.log[0]);
      assert [] + [s.log[0]] == s.log;
    } else {
      StorageFollowsLog(s, txs[..|txs| - 1]);
      TxIsEntitled(Run(s, txs[..|txs| - 1]), txs[|txs| - 1]);
    }
  }

  /** Over every run from deployment: a payment was logged while the router was not paused,
      for its caller, in a token the log supports and at least at its minimum; and the
      treasury, the tokens and withdrawals were in the owner's hands alone. */
  lemma EveryEventIsEntitled(s: State, txs: seq<Tx>, k: nat)
    requires Deployed(s) && s.supportedTokens == {} && s.minAmount == map[] && |txs| > 0
    requires var (before, after) := (Run(s, txs[..|txs| - 1]), Run(s, txs)); |before.log| <= k < |after.log|
    ensures var (before, e, tx) := (Run(s, txs[..|txs| - 1]), Run(s, txs).log[k], txs[|txs| - 1]);
            && (e.InvoicePaid? ==>
                  && !before.paused && e.payer == tx.caller && e.at == tx.now && e.treasury == before.treasury
                  && Supported(before.log, e.token) && e.amount >= Minimum(before.log, e.token) && e.amount > 0)
            && (e.TreasuryUpdated? || e.TokenSupportUpdated? || e.MinAmountUpdated? || e.EmergencyWithdraw? ==> tx.caller == s.owner)
  {
    StorageFollowsLog(s, txs[..|txs| - 1]);
    TxIsEntitled(Run(s, txs[..|txs| - 1]), txs[|txs| - 1]);
  }
}
