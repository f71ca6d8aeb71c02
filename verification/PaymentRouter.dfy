/** The invoice contract (contracts/src/PaymentRouter.sol). */
module PaymentRouter {
  import opened Common
  import opened Keccak
  import opened Erc20

  datatype Event =
    | TreasuryUpdated(previous: Address, current: Address)
    | TokenSupportUpdated(supportToken: Address, supported: bool)
    | MinAmountUpdated(minToken: Address, minimum: nat)
    | InvoicePaid(invoiceId: Word, payer: Address, token: Address, invoiceRef: Word, amount: nat, treasury: Address, at: nat)
    | EmergencyWithdraw(outToken: Address, outTo: Address, outAmount: nat)
    | Elsewhere(movedToken: Address, from: Address, dest: Address, moved: nat)  // a token transfer the router takes no part in

  datatype Error =
    | NotOwner | EnforcedPause | ExpectedPause | InvalidTreasury | InvalidToken | UnsupportedToken | InvalidReference
    | InvalidAmount | AmountBelowMinimum | InvoiceAlreadyPaid | InvoiceExpired | TransferFailed | PermitRefused | Overflow

  datatype State = State(
    self: Address, owner: Address, paused: bool, treasury: Address,
    supportedTokens: set<Address>, minAmount: map<Address, nat>, invoicePaid: set<Word>,
    tokens: Tokens, nonces: map<(Address, Address), nat>, log: seq<Event>)

  datatype Outcome = Ok(state: State) | Revert(error: Error)

  /** An EIP-2612 signature: opaque, and good only for exactly what its owner signed. */
  datatype Permit =
    | Signed(holder: Address, spender: Address, token: Address, value: nat, nonce: nat, deadline: nat)
    | Forged

  function ComputeInvoiceId(invoiceRef: Word, token: Address, amount: nat): Word {
    Keccak([invoiceRef, Num(token), Num(amount)])
  }

  function ComputeInvoiceIdWithExpiry(invoiceRef: Word, token: Address, amount: nat, deadline: nat): Word {
    Keccak([invoiceRef, Num(token), Num(amount), Num(deadline)])
  }

  function MinimumOf(s: State, token: Address): nat {
    if token in s.minAmount then s.minAmount[token] else 0
  }

  /** Why `_settle` refuses before it writes anything; `None` when it does not. */
  function Refusal(s: State, invoiceId: Word, invoiceRef: Word, token: Address, amount: nat): Option<Error> {
    if invoiceRef == ZERO then Some(InvalidReference)
    else if token == 0 then Some(InvalidToken)
    else if token !in s.supportedTokens then Some(UnsupportedToken)
    else if amount == 0 then Some(InvalidAmount)
    else if MinimumOf(s, token) > 0 && amount < MinimumOf(s, token) then Some(AmountBelowMinimum)
    else if invoiceId in s.invoicePaid then Some(InvoiceAlreadyPaid)
    else None
  }

  function Settle(s: State, caller: Address, now: nat, invoiceId: Word, invoiceRef: Word, token: Address, amount: nat): Outcome {
    var refusal := Refusal(s, invoiceId, invoiceRef, token, amount);
    if refusal.Some? then Revert(refusal.value)
    else
      var moved := TransferFrom(s.tokens, token, s.self, caller, s.treasury, amount);
      if moved.None? then Revert(TransferFailed)
      else Ok(s.(invoicePaid := s.invoicePaid + {invoiceId}, tokens := moved.value,
                 log := s.log + [InvoicePaid(invoiceId, caller, token, invoiceRef, amount, s.treasury, now)]))
  }

  function PayInvoice(s: State, caller: Address, now: nat, invoiceRef: Word, token: Address, amount: nat): Outcome {
    if s.paused then Revert(EnforcedPause)
    else Settle(s, caller, now, ComputeInvoiceId(invoiceRef, token, amount), invoiceRef, token, amount)
  }

  function NonceOf(s: State, token: Address, owner: Address): nat {
    if (token, owner) in s.nonces then s.nonces[(token, owner)] else 0
  }

  predicate PermitWorks(s: State, holder: Address, spender: Address, now: nat, token: Address, amount: nat, p: Permit) {
    && p.Signed? && p == Signed(holder, spender, token, amount, NonceOf(s, token, holder), p.deadline)
    && now <= p.deadline && amount <= MAX_UINT
  }

  /** The token's `permit`, which anyone may call with the holder's signature. */
  function Permitted(s: State, holder: Address, spender: Address, token: Address, amount: nat): State {
    s.(tokens := Approve(s.tokens, token, holder, spender, amount),
       nonces := s.nonces[(token, holder) := NonceOf(s, token, holder) + 1])
  }

  /** `try permit {} catch {}`: a refused permit leaves everything as it was. */
  function TryPermit(s: State, caller: Address, now: nat, token: Address, amount: nat, p: Permit): State {
    if PermitWorks(s, caller, s.self, now, token, amount, p) then Permitted(s, caller, s.self, token, amount) else s
  }

  function PayInvoiceWithPermit(s: State, caller: Address, now: nat, invoiceRef: Word, token: Address, amount: nat, p: Permit): Outcome {
    if s.paused then Revert(EnforcedPause)
    else PayInvoice(TryPermit(s, caller, now, token, amount, p), caller, now, invoiceRef, token, amount)
  }

  function PayInvoiceWithExpiry(s: State, caller: Address, now: nat, invoiceRef: Word, token: Address, amount: nat, deadline: nat): Outcome {
    if s.paused then Revert(EnforcedPause)
    else if deadline != 0 && now > deadline then Revert(InvoiceExpired)
    else Settle(s, caller, now, ComputeInvoiceIdWithExpiry(invoiceRef, token, amount, deadline), invoiceRef, token, amount)
  }

  datatype Call =
    | DoSetTreasury(newTreasury: Address)
    | DoSetTokenSupported(supportToken: Address, supported: bool, minimum: nat)
    | DoPause
    | DoUnpause
    | DoEmergencyWithdraw(outToken: Address, outTo: Address, outAmount: nat)
    | DoPay(invoiceRef: Word, token: Address, amount: nat)
    | DoPayWithPermit(invoiceRef: Word, token: Address, amount: nat, permit: Permit)
    | DoPayWithExpiry(invoiceRef: Word, token: Address, amount: nat, deadline: nat)
    // What token holders do without the router.
    | DoApprove(token: Address, spender: Address, amount: nat)
    | DoTransfer(token: Address, to: Address, amount: nat)
    | DoTransferFrom(token: Address, holder: Address, to: Address, amount: nat)
    | DoPermit(holder: Address, spender: Address, token: Address, amount: nat, permit: Permit)

  function Invoke(s: State, caller: Address, now: nat, c: Call): Outcome {
    match c
    case DoSetTreasury(t) =>
      if caller != s.owner then Revert(NotOwner) else if t == 0 then Revert(InvalidTreasury)
      else Ok(s.(treasury := t, log := s.log + [TreasuryUpdated(s.treasury, t)]))
    case DoSetTokenSupported(t, supported, minimum) =>
      if caller != s.owner then Revert(NotOwner) else if t == 0 then Revert(InvalidToken)
      else Ok(s.(supportedTokens := if supported then s.supportedTokens + {t} else s.supportedTokens - {t},
                 minAmount := s.minAmount[t := minimum],
                 log := s.log + [TokenSupportUpdated(t, supported)] + [MinAmountUpdated(t, minimum)]))
    case DoPause => if caller != s.owner then Revert(NotOwner) else if s.paused then Revert(EnforcedPause) else Ok(s.(paused := true))
    case DoUnpause => if caller != s.owner then Revert(NotOwner) else if !s.paused then Revert(ExpectedPause) else Ok(s.(paused := false))
    case DoEmergencyWithdraw(t, to, amount) =>
      if caller != s.owner then Revert(NotOwner) else if t == 0 then Revert(InvalidToken)
      else if to == 0 then Revert(InvalidTreasury)
      else
        var moved := Transfer(s.tokens, t, s.self, to, amount);
        if moved.None? then Revert(TransferFailed)
        else Ok(s.(tokens := moved.value, log := s.log + [EmergencyWithdraw(t, to, amount)]))
    case DoPay(ref, token, amount) => PayInvoice(s, caller, now, ref, token, amount)
    case DoPayWithPermit(ref, token, amount, permit) => PayInvoiceWithPermit(s, caller, now, ref, token, amount, permit)
    case DoPayWithExpiry(ref, token, amount, deadline) => PayInvoiceWithExpiry(s, caller, now, ref, token, amount, deadline)
    case DoApprove(token, spender, amount) =>
      if amount > MAX_UINT then Revert(Overflow) else Ok(s.(tokens := Approve(s.tokens, token, caller, spender, amount)))
    case DoTransfer(token, to, amount) =>
      var moved := Transfer(s.tokens, token, caller, to, amount);
      if moved.None? then Revert(TransferFailed)
      else Ok(s.(tokens := moved.value, log := s.log + [Elsewhere(token, caller, to, amount)]))
    case DoTransferFrom(token, holder, to, amount) =>
      var moved := TransferFrom(s.tokens, token, caller, holder, to, amount);
      if moved.None? then Revert(TransferFailed)
      else Ok(s.(tokens := moved.value, log := s.log + [Elsewhere(token, holder, to, amount)]))
    case DoPermit(holder, spender, token, amount, permit) =>
      if PermitWorks(s, holder, spender, now, token, amount, permit) then Ok(Permitted(s, holder, spender, token, amount))
      else Revert(PermitRefused)
  }

  datatype Tx = Tx(caller: Address, now: nat, call: Call)

  function Transact(s: State, tx: Tx): State {
    var r := Invoke(s, tx.caller, tx.now, tx.call);
    if r.Ok? then r.state else s
  }

  function Run(s: State, txs: seq<Tx>): State {
    if |txs| == 0 then s else Transact(Run(s, txs[..|txs| - 1]), txs[|txs| - 1])
  }

  ghost predicate Deployed(s: State) {
    s.invoicePaid == {} && s.treasury != 0 && s.log == [TreasuryUpdated(0, s.treasury)]
  }

  // ---- The contract --------------------------------------------------------

  datatype Deployment = Refused(error: Error) | Live(router: Router)

  /** Deployment reverts on a zero treasury. */
  method Deploy(self: Address, initialOwner: Address, initialTreasury: Address, tokens: Tokens) returns (r: Deployment)
    ensures r.Refused? <==> initialTreasury == 0
    ensures r.Refused? ==> r.error == InvalidTreasury
    ensures r.Live? ==> fresh(r.router) && Deployed(r.router.View()) && r.router.View().tokens == tokens
                        && r.router.View().treasury == initialTreasury && r.router.View().owner == initialOwner
  {
    if initialTreasury == 0 {
      return Refused(InvalidTreasury);
    }
    var router := new Router(self, initialOwner, initialTreasury, tokens);
    return Live(router);
  }

  class Router {
    const self: Address
    const owner: Address
    var paused: bool
    var treasury: Address
    var supportedTokens: set<Address>
    var minAmount: map<Address, nat>
    var invoicePaid: set<Word>
    var tokens: Tokens
    var nonces: map<(Address, Address), nat>
    var log: seq<Event>

    function View(): State
      reads this
    {
      State(self, owner, paused, treasury, supportedTokens, minAmount, invoicePaid, tokens, nonces, log)
    }

    constructor (self: Address, initialOwner: Address, initialTreasury: Address, tokens: Tokens)
      ensures View() == State(self, initialOwner, false, initialTreasury, {}, map[], {}, tokens, map[], [TreasuryUpdated(0, initialTreasury)])
    {
      this.self, this.owner, this.paused, this.treasury := self, initialOwner, false, initialTreasury;
      supportedTokens, minAmount, invoicePaid, nonces := {}, map[], {}, map[];
      this.tokens, log := tokens, [TreasuryUpdated(0, initialTreasury)];
    }

    method SetTreasury(caller: Address, newTreasury: Address) returns (error: Option<Error>)
      modifies this
      ensures var r := Invoke(old(View()), caller, 0, DoSetTreasury(newTreasury));
              if error.None? then r == Ok(View()) else r == Revert(error.value) && View() == old(View())
    {
      if caller != owner { return Some(NotOwner); }
      if newTreasury == 0 { return Some(InvalidTreasury); }
      var previous := treasury;
      treasury := newTreasury;
      log := log + [TreasuryUpdated(previous, newTreasury)];
      return None;
    }

    /** `_settle`: the invoice is consumed before the token is called; a failed
        transfer rolls everything back. */
    method SettleInvoice(caller: Address, now: nat, invoiceId: Word, invoiceRef: Word, token: Address, amount: nat)
      returns (error: Option<Error>)
      modifies this`invoicePaid, this`tokens, this`log
      ensures var r := Settle(old(View()), caller, now, invoiceId, invoiceRef, token, amount);
              if error.None? then r == Ok(View()) else r == Revert(error.value) && View() == old(View())
    {
      error := Refusal(View(), invoiceId, invoiceRef, token, amount);
      if error.Some? { return; }
      var before := invoicePaid;
      invoicePaid := invoicePaid + {invoiceId};
      var settledTreasury := treasury;
      var moved := TransferFrom(tokens, token, self, caller, settledTreasury, amount);
      if moved.None? {
        invoicePaid := before;
        return Some(TransferFailed);
      }
      tokens := moved.value;
      log := log + [InvoicePaid(invoiceId, caller, token, invoiceRef, amount, settledTreasury, now)];
    }

    method Pay(caller: Address, now: nat, invoiceRef: Word, token: Address, amount: nat) returns (error: Option<Error>)
      modifies this
      ensures var r := PayInvoice(old(View()), caller, now, invoiceRef, token, amount);
              if error.None? then r == Ok(View()) else r == Revert(error.value) && View() == old(View())
    {
      if paused { return Some(EnforcedPause); }
      error := SettleInvoice(caller, now, ComputeInvoiceId(invoiceRef, token, amount), invoiceRef, token, amount);
    }

    /** A permit granted in a transaction that then fails is rolled back with it. */
    method PayWithPermit(caller: Address, now: nat, invoiceRef: Word, token: Address, amount: nat, p: Permit)
      returns (error: Option<Error>)
      modifies this
      ensures var r := PayInvoiceWithPermit(old(View()), caller, now, invoiceRef, token, amount, p);
              if error.None? then r == Ok(View()) else r == Revert(error.value) && View() == old(View())
    {
      if paused { return Some(EnforcedPause); }
      var held, used := tokens, nonces;
      var permitted := TryPermit(View(), caller, now, token, amount, p);
      tokens, nonces := permitted.tokens, permitted.nonces;
      error := Pay(caller, now, invoiceRef, token, amount);
      if error.Some? {
        tokens, nonces := held, used;
      }
    }

    method PayWithExpiry(caller: Address, now: nat, invoiceRef: Word, token: Address, amount: nat, deadline: nat)
      returns (error: Option<Error>)
      modifies this
      ensures var r := PayInvoiceWithExpiry(old(View()), caller, now, invoiceRef, token, amount, deadline);
              if error.None? then r == Ok(View()) else r == Revert(error.value) && View() == old(View())
    {
      if paused { return Some(EnforcedPause); }
      if deadline != 0 && now > deadline { return Some(InvoiceExpired); }
      error := SettleInvoice(caller, now, ComputeInvoiceIdWithExpiry(invoiceRef, token, amount, deadline), invoiceRef, token, amount);
    }
  }
}
