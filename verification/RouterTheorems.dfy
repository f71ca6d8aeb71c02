/** What every run of the router keeps. */
module RouterTheorems {
  import opened Common
  import opened Keccak
  import opened Erc20
  import opened PaymentRouter

  function EventDelta(e: Event, self: Address, token: Address, account: Address): int {
    if e.InvoicePaid? && e.token == token then Delta(e.payer, e.treasury, e.amount, account)
    else if e.EmergencyWithdraw? && e.outToken == token then Delta(self, e.outTo, e.outAmount, account)
    else if e.Elsewhere? && e.movedToken == token then Delta(e.from, e.dest, e.moved, account)
    else 0
  }

  /** What the log says happened to an account's holding of a token. */
  function Net(log: seq<Event>, self: Address, token: Address, account: Address): int {
    if |log| == 0 then 0
    else Net(log[..|log| - 1], self, token, account) + EventDelta(log[|log| - 1], self, token, account)
  }

  /** The treasury in force after a log: the one set last. */
  function TreasuryAfter(log: seq<Event>): Address {
    if |log| == 0 then 0
    else if log[|log| - 1].TreasuryUpdated? then log[|log| - 1].current
    else TreasuryAfter(log[..|log| - 1])
  }

  /** An id is marked paid exactly when one event, and only one, carries it. */
  ghost predicate PaidOnce(s: State) {
    && (forall i, j :: 0 <= i < j < |s.log| && s.log[i].InvoicePaid? && s.log[j].InvoicePaid? ==>
          s.log[i].invoiceId != s.log[j].invoiceId)
    && (forall id :: id in s.invoicePaid <==>
          exists k :: 0 <= k < |s.log| && s.log[k].InvoicePaid? && s.log[k].invoiceId == id)
  }

  /** The event's id binds its reference, token and amount, and an expiring invoice
      was settled no later than its nonzero deadline. */
  ghost predicate Bound(e: Event)
    requires e.InvoicePaid?
  {
    && e.invoiceRef != ZERO && e.amount > 0
    && (e.invoiceId == ComputeInvoiceId(e.invoiceRef, e.token, e.amount)
        || exists d: nat :: e.invoiceId == ComputeInvoiceIdWithExpiry(e.invoiceRef, e.token, e.amount, d) && (d == 0 || e.at <= d))
  }

  ghost predicate AllBound(log: seq<Event>) {
    forall k :: 0 <= k < |log| && log[k].InvoicePaid? ==> Bound(log[k])
  }

  /** Each payment went to the treasury in force at that moment. */
  ghost predicate ToTreasury(log: seq<Event>) {
    forall k :: 0 <= k < |log| && log[k].InvoicePaid? ==> log[k].treasury == TreasuryAfter(log[..k])
  }

  ghost predicate Conserves(tokens: Tokens, s: State) {
    forall t, a :: Balance(s.tokens, t, a) == Balance(tokens, t, a) + Net(s.log, s.self, t, a)
  }

  ghost predicate Inv(tokens: Tokens, s: State) {
    && PaidOnce(s) && AllBound(s.log) && ToTreasury(s.log) && Conserves(tokens, s)
    && s.treasury == TreasuryAfter(s.log)
  }

  lemma NetAppend(log: seq<Event>, e: Event, self: Address, token: Address, account: Address)
    ensures Net(log + [e], self, token, account) == Net(log, self, token, account) + EventDelta(e, self, token, account)
  {
    assert (log + [e])[..|log|] == log;
  }

  lemma TreasuryAppend(log: seq<Event>, e: Event)
    requires ToTreasury(log) && (e.InvoicePaid? ==> e.treasury == TreasuryAfter(log))
    ensures ToTreasury(log + [e])
    ensures TreasuryAfter(log + [e]) == if e.TreasuryUpdated? then e.current else TreasuryAfter(log)
  {
    assert (log + [e])[..|log|] == log;
    forall k | 0 <= k < |log + [e]| && (log + [e])[k].InvoicePaid?
      ensures (log + [e])[k].treasury == TreasuryAfter((log + [e])[..k])
    {
      if k < |log| {
        assert (log + [e])[..k] == log[..k];
      }
    }
  }

  /** Logging anything but a payment keeps the paid ids as they are. */
  lemma QuietEvent(tokens: Tokens, s: State, s': State, e: Event)
    requires Inv(tokens, s) && !e.InvoicePaid? && s'.log == s.log + [e] && s'.invoicePaid == s.invoicePaid && s'.self == s.self
    requires s'.treasury == if e.TreasuryUpdated? then e.current else s.treasury
    requires forall t, a :: Balance(s'.tokens, t, a) == Balance(s.tokens, t, a) + EventDelta(e, s.self, t, a)
    ensures Inv(tokens, s')
  {
    TreasuryAppend(s.log, e);
    BoundAppend(s.log, e);
    ConservesAppend(tokens, s, s', e);
    assert forall k :: 0 <= k < |s'.log| && s'.log[k].InvoicePaid? ==> k < |s.log| && s'.log[k] == s.log[k];
    assert forall k :: 0 <= k < |s.log| ==> s'.log[k] == s.log[k];
  }

  lemma SettlePaidOnce(s: State, caller: Address, now: nat, id: Word, ref: Word, token: Address, amount: nat)
    requires PaidOnce(s) && Settle(s, caller, now, id, ref, token, amount).Ok?
    ensures PaidOnce(Settle(s, caller, now, id, ref, token, amount).state)
  {
    var s' := Settle(s, caller, now, id, ref, token, amount).state;
    var n := |s.log|;
    assert s'.log == s.log + [s'.log[n]] && s'.log[n].InvoicePaid? && s'.log[n].invoiceId == id;
    assert forall k :: 0 <= k < n ==> s'.log[k] == s.log[k];
    forall x
      ensures x in s'.invoicePaid <==> exists k :: 0 <= k < |s'.log| && s'.log[k].InvoicePaid? && s'.log[k].invoiceId == x
    {
      if x in s.invoicePaid {
        var k :| 0 <= k < n && s.log[k].InvoicePaid? && s.log[k].invoiceId == x;
        assert s'.log[k] == s.log[k];
      }
    }
  }

  lemma ConservesAppend(tokens: Tokens, s: State, s': State, e: Event)
    requires Conserves(tokens, s) && s'.log == s.log + [e] && s'.self == s.self
    requires forall t, a :: Balance(s'.tokens, t, a) == Balance(s.tokens, t, a) + EventDelta(e, s.self, t, a)
    ensures Conserves(tokens, s')
  {
    forall t, a
      ensures Balance(s'.tokens, t, a) == Balance(tokens, t, a) + Net(s'.log, s'.self, t, a)
    {
      NetAppend(s.log, e, s.self, t, a);
    }
  }

  lemma BoundAppend(log: seq<Event>, e: Event)
    requires AllBound(log) && (e.InvoicePaid? ==> Bound(e))
    ensures AllBound(log + [e])
  {
    assert forall k :: 0 <= k < |log| ==> (log + [e])[k] == log[k];
  }

  lemma SettleBalances(s: State, caller: Address, now: nat, id: Word, ref: Word, token: Address, amount: nat, e: Event)
    requires Settle(s, caller, now, id, ref, token, amount).Ok? && e == InvoicePaid(id, caller, token, ref, amount, s.treasury, now)
    ensures var s' := Settle(s, caller, now, id, ref, token, amount).state;
            forall t, a :: Balance(s'.tokens, t, a) == Balance(s.tokens, t, a) + EventDelta(e, s.self, t, a)
  {
    forall t, a
      ensures Balance(Settle(s, caller, now, id, ref, token, amount).state.tokens, t, a) == Balance(s.tokens, t, a) + EventDelta(e, s.self, t, a)
    {
      TransferFromBalances(s.tokens, token, s.self, caller, s.treasury, amount, t, a);
    }
  }

  lemma SettleKeepsInv(tokens: Tokens, s: State, caller: Address, now: nat, id: Word, ref: Word, token: Address, amount: nat)
    requires Inv(tokens, s) && Settle(s, caller, now, id, ref, token, amount).Ok?
    requires id == ComputeInvoiceId(ref, token, amount)
             || exists d: nat :: id == ComputeInvoiceIdWithExpiry(ref, token, amount, d) && (d == 0 || now <= d)
    ensures Inv(tokens, Settle(s, caller, now, id, ref, token, amount).state)
  {
    var s' := Settle(s, caller, now, id, ref, token, amount).state;
    var e := InvoicePaid(id, caller, token, ref, amount, s.treasury, now);
    assert s'.log == s.log + [e] && s'.self == s.self && s'.treasury == s.treasury;
    SettlePaidOnce(s, caller, now, id, ref, token, amount);
    TreasuryAppend(s.log, e);
    BoundAppend(s.log, e);
    SettleBalances(s, caller, now, id, ref, token, amount, e);
    ConservesAppend(tokens, s, s', e);
  }

  lemma PermitKeepsInv(tokens: Tokens, s: State, caller: Address, now: nat, token: Address, amount: nat, p: Permit)
    requires Inv(tokens, s)
    ensures Inv(tokens, TryPermit(s, caller, now, token, amount, p))
  {
    var s' := TryPermit(s, caller, now, token, amount, p);
    assert forall t, a :: Balance(s'.tokens, t, a) == Balance(s.tokens, t, a);
  }

  lemma SupportKeepsInv(tokens: Tokens, s: State, s': State, t: Address, supported: bool, minimum: nat)
    requires Inv(tokens, s)
    requires s' == s.(supportedTokens := s'.supportedTokens, minAmount := s'.minAmount,
                      log := s.log + [TokenSupportUpdated(t, supported)] + [MinAmountUpdated(t, minimum)])
    ensures Inv(tokens, s')
  {
    var mid := s.(log := s.log + [TokenSupportUpdated(t, supported)]);
    QuietEvent(tokens, s, mid, TokenSupportUpdated(t, supported));
    QuietEvent(tokens, mid, s', MinAmountUpdated(t, minimum));
  }

  lemma WithdrawKeepsInv(tokens: Tokens, s: State, tx: Tx)
    requires Inv(tokens, s) && Invoke(s, tx.caller, tx.now, tx.call).Ok?
    requires tx.call.DoEmergencyWithdraw? || tx.call.DoTransfer?
    ensures Inv(tokens, Transact(s, tx))
  {
    var s', c := Transact(s, tx), tx.call;
    var token, from, to, amount :=
      if c.DoTransfer? then c.token else c.outToken,
      if c.DoTransfer? then tx.caller else s.self,
      if c.DoTransfer? then c.to else c.outTo,
      if c.DoTransfer? then c.amount else c.outAmount;
    var e := s'.log[|s.log|];
    forall t, a
      ensures Balance(s'.tokens, t, a) == Balance(s.tokens, t, a) + EventDelta(e, s.self, t, a)
    {
      MovedBalances(s.tokens, token, from, to, amount, t, a);
    }
    QuietEvent(tokens, s, s', e);
  }

  lemma TransferFromKeepsInv(tokens: Tokens, s: State, tx: Tx, token: Address, holder: Address, to: Address, amount: nat)
    requires Inv(tokens, s) && Invoke(s, tx.caller, tx.now, tx.call).Ok? && tx.call == DoTransferFrom(token, holder, to, amount)
    ensures Inv(tokens, Transact(s, tx))
  {
    var (s', e) := (Transact(s, tx), Elsewhere(token, holder, to, amount));
    forall t, a
      ensures Balance(s'.tokens, t, a) == Balance(s.tokens, t, a) + EventDelta(e, s.self, t, a)
    {
      TransferFromBalances(s.tokens, token, tx.caller, holder, to, amount, t, a);
    }
    QuietEvent(tokens, s, s', e);
  }

  lemma TxKeepsInv(tokens: Tokens, s: State, tx: Tx)
    requires Inv(tokens, s)
    ensures Inv(tokens, Transact(s, tx))
  {
    if Invoke(s, tx.caller, tx.now, tx.call).Ok? {
      var s' := Transact(s, tx);
      match tx.call
      case DoSetTreasury(t) => QuietEvent(tokens, s, s', TreasuryUpdated(s.treasury, t));
      case DoSetTokenSupported(t, supported, minimum) => SupportKeepsInv(tokens, s, s', t, supported, minimum);
      case DoEmergencyWithdraw(_, _, _) => WithdrawKeepsInv(tokens, s, tx);
      case DoTransfer(_, _, _) => WithdrawKeepsInv(tokens, s, tx);
      case DoTransferFrom(token, holder, to, amount) => TransferFromKeepsInv(tokens, s, tx, token, holder, to, amount);
      case DoPermit(holder, spender, token, amount, _) =>
        assert s' == Permitted(s, holder, spender, token, amount);
        assert forall t, a :: Balance(s'.tokens, t, a) == Balance(s.tokens, t, a);
      case DoPay(ref, token, amount) =>
        SettleKeepsInv(tokens, s, tx.caller, tx.now, ComputeInvoiceId(ref, token, amount), ref, token, amount);
      case DoPayWithPermit(ref, token, amount, permit) =>
        PermitKeepsInv(tokens, s, tx.caller, tx.now, token, amount, permit);
        SettleKeepsInv(tokens, TryPermit(s, tx.caller, tx.now, token, amount, permit), tx.caller, tx.now,
                       ComputeInvoiceId(ref, token, amount), ref, token, amount);
      case DoPayWithExpiry(ref, token, amount, deadline) =>
        SettleKeepsInv(tokens, s, tx.caller, tx.now, ComputeInvoiceIdWithExpiry(ref, token, amount, deadline), ref, token, amount);
      case DoApprove(_, _, _) =>
        assert forall t, a :: Balance(s'.tokens, t, a) == Balance(s.tokens, t, a);
      case _ =>
    }
  }

  /** Over every run from deployment: an invoice id is marked paid exactly when one
      event carries it; tokens move only as the log says; every payment went to the
      treasury in force when it was made; and every event's id binds its reference,
      token and amount, an expiring one settled by its deadline. */
  lemma {:induction false} EveryRunIsAccountedFor(s: State, txs: seq<Tx>)
    requires Deployed(s)
    ensures Inv(s.tokens, Run(s, txs))
  {
    if |txs| == 0 {
      assert s.log[..0] == [] && TreasuryAfter(s.log) == s.treasury;
      assert forall t, a :: Net(s.log, s.self, t, a) == 0;
    } else {
      EveryRunIsAccountedFor(s, txs[..|txs| - 1]);
      TxKeepsInv(s.tokens, Run(s, txs[..|txs| - 1]), txs[|txs| - 1]);
    }
  }

  /** Plain and expiring ids never coincide, and each kind binds its arguments. */
  lemma IdsAreInjective(r: Word, t: Address, a: nat, r': Word, t': Address, a': nat, d: nat, d': nat)
    ensures ComputeInvoiceId(r, t, a) != ComputeInvoiceIdWithExpiry(r', t', a', d)
    ensures ComputeInvoiceId(r, t, a) == ComputeInvoiceId(r', t', a') ==> r == r' && t == t' && a == a'
    ensures ComputeInvoiceIdWithExpiry(r, t, a, d) == ComputeInvoiceIdWithExpiry(r', t', a', d') ==>
              r == r' && t == t' && a == a' && d == d'
  {
    assert |ComputeInvoiceId(r, t, a).preimage| == 3 && |ComputeInvoiceIdWithExpiry(r', t', a', d).preimage| == 4;
    var (p, p') := (ComputeInvoiceId(r, t, a).preimage, ComputeInvoiceId(r', t', a').preimage);
    assert p[0] == r && p[1] == Num(t) && p[2] == Num(a) && p'[0] == r' && p'[1] == Num(t') && p'[2] == Num(a');
    var (q, q') := (ComputeInvoiceIdWithExpiry(r, t, a, d).preimage, ComputeInvoiceIdWithExpiry(r', t', a', d').preimage);
    assert q[0] == r && q[1] == Num(t) && q[2] == Num(a) && q[3] == Num(d);
    assert q'[0] == r' && q'[1] == Num(t') && q'[2] == Num(a') && q'[3] == Num(d');
  }

  /** No payment of an expiring invoice is ever logged after its nonzero deadline. */
  lemma NoExpiredInvoiceSettles(s: State, txs: seq<Tx>, k: nat, ref: Word, token: Address, amount: nat, deadline: nat)
    requires Deployed(s) && k < |Run(s, txs).log| && Run(s, txs).log[k].InvoicePaid? && deadline != 0
    requires Run(s, txs).log[k].invoiceId == ComputeInvoiceIdWithExpiry(ref, token, amount, deadline)
    ensures var e := Run(s, txs).log[k];
            e.at <= deadline && e.invoiceRef == ref && e.token == token && e.amount == amount
  {
    EveryRunIsAccountedFor(s, txs);
    var e := Run(s, txs).log[k];
    assert Bound(e);
    IdsAreInjective(e.invoiceRef, e.token, e.amount, ref, token, amount, deadline, deadline);
    if e.invoiceId != ComputeInvoiceId(e.invoiceRef, e.token, e.amount) {
      var d: nat :| e.invoiceId == ComputeInvoiceIdWithExpiry(e.invoiceRef, e.token, e.amount, d) && (d == 0 || e.at <= d);
      IdsAreInjective(e.invoiceRef, e.token, e.amount, ref, token, amount, d, deadline);
    }
  }

  /** A permit that does not work leaves exactly what a plain payment would do, and
      one that works needs no allowance beforehand: the payment goes through exactly
      when the invoice is payable and the balance covers it. */
  lemma PermitPaysIff(s: State, caller: Address, now: nat, ref: Word, token: Address, amount: nat, p: Permit)
    requires !s.paused
    ensures !PermitWorks(s, caller, s.self, now, token, amount, p) ==>
              PayInvoiceWithPermit(s, caller, now, ref, token, amount, p) == PayInvoice(s, caller, now, ref, token, amount)
    ensures PermitWorks(s, caller, s.self, now, token, amount, p) ==>
              (PayInvoiceWithPermit(s, caller, now, ref, token, amount, p).Ok? <==>
                && Refusal(s, ComputeInvoiceId(ref, token, amount), ref, token, amount).None?
                && s.treasury != 0 && amount <= Balance(s.tokens, token, caller))
  {
    if PermitWorks(s, caller, s.self, now, token, amount, p) {
      var s' := TryPermit(s, caller, now, token, amount, p);
      assert AllowanceOf(s'.tokens, token, caller, s.self) == amount;
      assert Balance(Spent(s'.tokens, token, caller, s.self, amount), token, caller) == Balance(s.tokens, token, caller);
    }
  }

  /** Front-running a permit does not stop the payment: when someone else submits the
      payer's signature first, the payer's call, at any later time, does exactly what
      it would have done with the permit just granted, although its own permit is
      refused; in the same block, exactly what it would have done undisturbed. */
  lemma FrontRunPermitStillPays(
    s: State, other: Address, now: nat, later: nat, payer: Address, ref: Word, token: Address, amount: nat, p: Permit)
    requires PermitWorks(s, payer, s.self, now, token, amount, p)
    ensures var s1 := Transact(s, Tx(other, now, DoPermit(payer, s.self, token, amount, p)));
            && !PermitWorks(s1, payer, s.self, later, token, amount, p)
            && PayInvoiceWithPermit(s1, payer, later, ref, token, amount, p)
               == PayInvoice(TryPermit(s, payer, now, token, amount, p), payer, later, ref, token, amount)
            && PayInvoiceWithPermit(s1, payer, now, ref, token, amount, p)
               == PayInvoiceWithPermit(s, payer, now, ref, token, amount, p)
  {
    var s1 := Transact(s, Tx(other, now, DoPermit(payer, s.self, token, amount, p)));
    assert s1 == Permitted(s, payer, s.self, token, amount) == TryPermit(s, payer, now, token, amount, p);
    assert NonceOf(s1, token, payer) == NonceOf(s, token, payer) + 1;
  }
}
