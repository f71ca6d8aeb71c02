/** The payout contract (contracts/src/SettlementVault.sol): what each call does
    to storage, tokens and the event log, and the contract itself as a class. */
module SettlementVault {
  import opened Common
  import opened Keccak
  import opened Erc20

  const MAX_BATCH: nat := 256

  datatype Event =
    | FunderUpdated(previous: Address, current: Address)
    | OperatorUpdated(operator: Address, allowed: bool)
    | TokenSupportUpdated(supportToken: Address, supported: bool)
    | PayoutExecuted(payoutId: Word, legOf: Word, token: Address, payoutRef: Word, funder: Address, to: Address, amount: nat)
    | BatchExecuted(batchId: Word, batchToken: Address, batchRef: Word, count: nat, total: nat)
    | Elsewhere(movedToken: Address, from: Address, dest: Address, moved: nat)  // a token transfer the vault takes no part in

  datatype Error =
    | NotOwner | EnforcedPause | ExpectedPause | InvalidFunder | InvalidToken | UnsupportedToken | InvalidReference
    | InvalidAmount | InvalidBeneficiary | InvalidOperator | NotOperator | PayoutAlreadyExecuted | BatchAlreadyExecuted
    | EmptyBatch | BatchTooLarge | LengthMismatch | TransferFailed | Overflow

  /** Storage, the tokens it can move, and the log. `self` and `owner` never change. */
  datatype State = State(
    self: Address, owner: Address, paused: bool, funder: Address,
    operators: set<Address>, supportedTokens: set<Address>,
    payoutExecuted: set<Word>, batchExecuted: set<Word>,
    tokens: Tokens, log: seq<Event>)

  datatype Outcome = Ok(state: State) | Revert(error: Error)

  function ComputePayoutId(payoutRef: Word, token: Address, to: Address, amount: nat): Word {
    Keccak([payoutRef, Num(token), Num(to), Num(amount)])
  }

  function BatchIdOf(batchRef: Word, token: Address): Word {
    Keccak([batchRef, Num(token)])
  }

  function LegRef(batchRef: Word, i: nat): Word {
    Keccak([batchRef, Num(i)])
  }

  // ---- Calls ---------------------------------------------------------------

  function Execute(s: State, batchId: Word, payoutRef: Word, token: Address, to: Address, amount: nat): Outcome {
    if payoutRef == ZERO then Revert(InvalidReference)
    else if to == 0 then Revert(InvalidBeneficiary)
    else if amount == 0 then Revert(InvalidAmount)
    else
      var id := ComputePayoutId(payoutRef, token, to, amount);
      if id in s.payoutExecuted then Revert(PayoutAlreadyExecuted)
      else
        var moved := TransferFrom(s.tokens, token, s.self, s.funder, to, amount);
        if moved.None? then Revert(TransferFailed)
        else Ok(s.(payoutExecuted := s.payoutExecuted + {id}, tokens := moved.value,
                   log := s.log + [PayoutExecuted(id, batchId, token, payoutRef, s.funder, to, amount)]))
  }

  function Payout(s: State, caller: Address, payoutRef: Word, token: Address, to: Address, amount: nat): Outcome {
    if caller !in s.operators then Revert(NotOperator)
    else if s.paused then Revert(EnforcedPause)
    else if token !in s.supportedTokens then Revert(UnsupportedToken)
    else Execute(s, ZERO, payoutRef, token, to, amount)
  }

  datatype Progress = Going(state: State, total: nat) | Stopped(error: Error)

  /** The leg loop after `n` legs. */
  function Legs(s: State, batchRef: Word, token: Address, recipients: seq<Address>, amounts: seq<nat>, n: nat): Progress
    requires n <= |recipients| == |amounts|
  {
    if n == 0 then Going(s, 0)
    else
      var p := Legs(s, batchRef, token, recipients, amounts, n - 1);
      if p.Stopped? then p else NextLeg(p.state, p.total, batchRef, token, recipients[n - 1], amounts[n - 1], n - 1)
  }

  function NextLeg(s: State, total: nat, batchRef: Word, token: Address, to: Address, amount: nat, i: nat): Progress {
    var r := Execute(s, BatchIdOf(batchRef, token), LegRef(batchRef, i), token, to, amount);
    if r.Revert? then Stopped(r.error)
    else if total + amount > MAX_UINT then Stopped(Overflow)
    else Going(r.state, total + amount)
  }

  /** The checks before the batch id is consumed; `None` when they all pass. */
  function BatchRefusal(s: State, caller: Address, batchRef: Word, token: Address, recipients: seq<Address>, amounts: seq<nat>): Option<Error> {
    if caller !in s.operators then Some(NotOperator)
    else if s.paused then Some(EnforcedPause)
    else if batchRef == ZERO then Some(InvalidReference)
    else if token !in s.supportedTokens then Some(UnsupportedToken)
    else if |recipients| != |amounts| then Some(LengthMismatch)
    else if |recipients| == 0 then Some(EmptyBatch)
    else if |recipients| > MAX_BATCH then Some(BatchTooLarge)
    else if BatchIdOf(batchRef, token) in s.batchExecuted then Some(BatchAlreadyExecuted)
    else None
  }

  function Opened(s: State, batchRef: Word, token: Address): State {
    s.(batchExecuted := s.batchExecuted + {BatchIdOf(batchRef, token)})
  }

  function PayoutBatch(s: State, caller: Address, batchRef: Word, token: Address, recipients: seq<Address>, amounts: seq<nat>): Outcome {
    var refusal := BatchRefusal(s, caller, batchRef, token, recipients, amounts);
    if refusal.Some? then Revert(refusal.value)
    else
      var p := Legs(Opened(s, batchRef, token), batchRef, token, recipients, amounts, |recipients|);
      if p.Stopped? then Revert(p.error)
      else Ok(p.state.(log := p.state.log + [BatchExecuted(BatchIdOf(batchRef, token), token, batchRef, |recipients|, p.total)]))
  }

  datatype Call =
    | DoSetFunder(newFunder: Address)
    | DoSetOperator(operator: Address, allowed: bool)
    | DoSetTokenSupported(supportToken: Address, supported: bool)
    | DoPause
    | DoUnpause
    | DoPayout(payoutRef: Word, token: Address, to: Address, amount: nat)
    | DoPayoutBatch(batchRef: Word, token: Address, recipients: seq<Address>, amounts: seq<nat>)
    // What token holders do without the vault.
    | DoApprove(token: Address, spender: Address, amount: nat)
    | DoTransfer(token: Address, to: Address, amount: nat)
    | DoTransferFrom(token: Address, holder: Address, to: Address, amount: nat)

  function Invoke(s: State, caller: Address, c: Call): Outcome {
    match c
    case DoSetFunder(f) =>
      if caller != s.owner then Revert(NotOwner) else if f == 0 then Revert(InvalidFunder)
      else Ok(s.(funder := f, log := s.log + [FunderUpdated(s.funder, f)]))
    case DoSetOperator(o, allowed) =>
      if caller != s.owner then Revert(NotOwner) else if o == 0 then Revert(InvalidOperator)
      else Ok(s.(operators := if allowed then s.operators + {o} else s.operators - {o}, log := s.log + [OperatorUpdated(o, allowed)]))
    case DoSetTokenSupported(t, supported) =>
      if caller != s.owner then Revert(NotOwner) else if t == 0 then Revert(InvalidToken)
      else Ok(s.(supportedTokens := if supported then s.supportedTokens + {t} else s.supportedTokens - {t},
                 log := s.log + [TokenSupportUpdated(t, supported)]))
    case DoPause => if caller != s.owner then Revert(NotOwner) else if s.paused then Revert(EnforcedPause) else Ok(s.(paused := true))
    case DoUnpause => if caller != s.owner then Revert(NotOwner) else if !s.paused then Revert(ExpectedPause) else Ok(s.(paused := false))
    case DoPayout(ref, token, to, amount) => Payout(s, caller, ref, token, to, amount)
    case DoPayoutBatch(ref, token, recipients, amounts) => PayoutBatch(s, caller, ref, token, recipients, amounts)
    case DoApprove(token, spender, amount) =>
      if amount > MAX_UINT then Revert(Overflow) else Ok(s.(tokens := Approve(s.tokens, token, caller, spender, amount)))
    case DoTransfer(token, to, amount) =>
      var moved := Transfer(s.tokens, token, caller, to, amount);
      if moved.None? then Revert(TransferFailed)
      else Ok(s.(tokens := moved.value, log := s.log + [Elsewhere(token, caller, to, amount)]))
    case DoTransferFrom(token, holder, to, amount) =>
      var moved := TransferFrom(s.tokens, token, caller, holder, to, amount);
      if moved.None? then Revert(TransferFailed)
      else Ok(s.(tokens := moved.value, log := s.log + [Elsewhere(token, holder, to, amount)]))
  }

  /** A reverted transaction leaves the chain as it was. */
  function Transact(s: State, caller: Address, c: Call): State {
    var r := Invoke(s, caller, c);
    if r.Ok? then r.state else s
  }

  function Run(s: State, calls: seq<(Address, Call)>): State {
    if |calls| == 0 then s
    else
      var (caller, c) := calls[|calls| - 1];
      Transact(Run(s, calls[..|calls| - 1]), caller, c)
  }

  /** A freshly deployed vault over any token balances. */
  ghost predicate Deployed(s: State) {
    && s.payoutExecuted == {} && s.batchExecuted == {} && s.funder != 0
    && s.log == [FunderUpdated(0, s.funder)] && Bounded(s.tokens)
  }

  // ---- The contract --------------------------------------------------------

  datatype Deployment = Refused(error: Error) | Live(vault: Vault)

  /** Deployment reverts on a zero funder. */
  method Deploy(self: Address, initialOwner: Address, initialFunder: Address, tokens: Tokens) returns (r: Deployment)
    ensures r.Refused? <==> initialFunder == 0
    ensures r.Refused? ==> r.error == InvalidFunder
    ensures r.Live? ==> fresh(r.vault) && (Bounded(tokens) ==> Deployed(r.vault.View())) && r.vault.View().tokens == tokens
                        && r.vault.View().funder == initialFunder && r.vault.View().owner == initialOwner
  {
    if initialFunder == 0 {
      return Refused(InvalidFunder);
    }
    var vault := new Vault(self, initialOwner, initialFunder, tokens);
    return Live(vault);
  }

  class Vault {
    const self: Address
    const owner: Address
    var paused: bool
    var funder: Address
    var operators: set<Address>
    var supportedTokens: set<Address>
    var payoutExecuted: set<Word>
    var batchExecuted: set<Word>
    var tokens: Tokens
    var log: seq<Event>

    ghost function View(): State
      reads this
    {
      State(self, owner, paused, funder, operators, supportedTokens, payoutExecuted, batchExecuted, tokens, log)
    }

    constructor (self: Address, initialOwner: Address, initialFunder: Address, tokens: Tokens)
      ensures View() == State(self, initialOwner, false, initialFunder, {}, {}, {}, {}, tokens, [FunderUpdated(0, initialFunder)])
    {
      this.self, this.owner, this.paused, this.funder := self, initialOwner, false, initialFunder;
      operators, supportedTokens, payoutExecuted, batchExecuted := {}, {}, {}, {};
      this.tokens, log := tokens, [FunderUpdated(0, initialFunder)];
    }

    method SetFunder(caller: Address, newFunder: Address) returns (error: Option<Error>)
      modifies this
      ensures var r := Invoke(old(View()), caller, DoSetFunder(newFunder));
              if error.None? then r == Ok(View()) else r == Revert(error.value) && View() == old(View())
    {
      if caller != owner { return Some(NotOwner); }
      if newFunder == 0 { return Some(InvalidFunder); }
      var previous := funder;
      funder := newFunder;
      log := log + [FunderUpdated(previous, newFunder)];
      return None;
    }

    method SetOperator(caller: Address, operator: Address, allowed: bool) returns (error: Option<Error>)
      modifies this
      ensures var r := Invoke(old(View()), caller, DoSetOperator(operator, allowed));
              if error.None? then r == Ok(View()) else r == Revert(error.value) && View() == old(View())
    {
      if caller != owner { return Some(NotOwner); }
      if operator == 0 { return Some(InvalidOperator); }
      operators := if allowed then operators + {operator} else operators - {operator};
      log := log + [OperatorUpdated(operator, allowed)];
      return None;
    }

    method SetTokenSupported(caller: Address, token: Address, supported: bool) returns (error: Option<Error>)
      modifies this
      ensures var r := Invoke(old(View()), caller, DoSetTokenSupported(token, supported));
              if error.None? then r == Ok(View()) else r == Revert(error.value) && View() == old(View())
    {
      if caller != owner { return Some(NotOwner); }
      if token == 0 { return Some(InvalidToken); }
      supportedTokens := if supported then supportedTokens + {token} else supportedTokens - {token};
      log := log + [TokenSupportUpdated(token, supported)];
      return None;
    }

    /** `_execute`: storage is written before the token is called. On an error the
        caller rolls back. */
    method ExecuteLeg(batchId: Word, payoutRef: Word, token: Address, to: Address, amount: nat) returns (error: Option<Error>)
      modifies this`payoutExecuted, this`tokens, this`log
      ensures var r := Execute(old(View()), batchId, payoutRef, token, to, amount);
              if error.None? then r == Ok(View()) else r == Revert(error.value)
    {
      if payoutRef == ZERO { return Some(InvalidReference); }
      if to == 0 { return Some(InvalidBeneficiary); }
      if amount == 0 { return Some(InvalidAmount); }
      var payoutId := ComputePayoutId(payoutRef, token, to, amount);
      if payoutId in payoutExecuted { return Some(PayoutAlreadyExecuted); }
      payoutExecuted := payoutExecuted + {payoutId};
      var from := funder;
      var moved := TransferFrom(tokens, token, self, from, to, amount);
      if moved.None? { return Some(TransferFailed); }
      tokens := moved.value;
      log := log + [PayoutExecuted(payoutId, batchId, token, payoutRef, from, to, amount)];
      return None;
    }

    method SendPayout(caller: Address, payoutRef: Word, token: Address, to: Address, amount: nat) returns (error: Option<Error>)
      modifies this
      ensures var r := Payout(old(View()), caller, payoutRef, token, to, amount);
              if error.None? then r == Ok(View()) else r == Revert(error.value) && View() == old(View())
    {
      if caller !in operators { return Some(NotOperator); }
      if paused { return Some(EnforcedPause); }
      if token !in supportedTokens { return Some(UnsupportedToken); }
      var executed, held, events := payoutExecuted, tokens, log;
      error := ExecuteLeg(ZERO, payoutRef, token, to, amount);
      if error.Some? {
        payoutExecuted, tokens, log := executed, held, events;
      }
    }

    /** One round of the leg loop, with the checked addition to the total. */
    method ExecuteNext(batchRef: Word, token: Address, to: Address, amount: nat, i: nat, total: nat)
      returns (error: Option<Error>, sum: nat)
      modifies this`payoutExecuted, this`tokens, this`log
      ensures NextLeg(old(View()), total, batchRef, token, to, amount, i)
              == if error.None? then Going(View(), sum) else Stopped(error.value)
    {
      sum := total;
      error := ExecuteLeg(BatchIdOf(batchRef, token), LegRef(batchRef, i), token, to, amount);
      if error.None? {
        if total + amount > MAX_UINT {
          return Some(Overflow), total;
        }
        sum := total + amount;
      }
    }

    /** The leg loop, over storage whose batch id is already consumed. */
    method ExecuteLegs(batchRef: Word, token: Address, recipients: seq<Address>, amounts: seq<nat>)
      returns (error: Option<Error>, total: nat)
      requires |recipients| == |amounts|
      modifies this`payoutExecuted, this`tokens, this`log
      ensures var p := Legs(old(View()), batchRef, token, recipients, amounts, |recipients|);
              if error.None? then p == Going(View(), total) else p == Stopped(error.value)
    {
      ghost var start := View();
      var i: nat := 0;
      error, total := None, 0;
      while i < |recipients|
        invariant i <= |recipients| && error.None?
        invariant Legs(start, batchRef, token, recipients, amounts, i) == Going(View(), total)
      {
        ghost var (before, paid) := (View(), total);
        error, total := ExecuteNext(batchRef, token, recipients[i], amounts[i], i, total);
        LegsAfter(start, batchRef, token, recipients, amounts, i, before, paid,
                  if error.None? then Going(View(), total) else Stopped(error.value));
        if error.Some? { return; }
        i := i + 1;
      }
    }

    method SendBatch(caller: Address, batchRef: Word, token: Address, recipients: seq<Address>, amounts: seq<nat>)
      returns (error: Option<Error>)
      modifies this
      ensures var r := PayoutBatch(old(View()), caller, batchRef, token, recipients, amounts);
              if error.None? then r == Ok(View()) else r == Revert(error.value) && View() == old(View())
    {
      error := BatchRefusal(State(self, owner, paused, funder, operators, supportedTokens, payoutExecuted, batchExecuted, tokens, log),
                            caller, batchRef, token, recipients, amounts);
      if error.Some? { return; }
      var executed, batches, held, events := payoutExecuted, batchExecuted, tokens, log;
      batchExecuted := batchExecuted + {BatchIdOf(batchRef, token)};
      assert View() == Opened(old(View()), batchRef, token);
      var total: nat;
      error, total := ExecuteLegs(batchRef, token, recipients, amounts);
      if error.Some? {
        payoutExecuted, batchExecuted, tokens, log := executed, batches, held, events;
        return;
      }
      log := log + [BatchExecuted(BatchIdOf(batchRef, token), token, batchRef, |recipients|, total)];
    }
  }

  lemma LegsAfter(
    s: State, batchRef: Word, token: Address, recipients: seq<Address>, amounts: seq<nat>, i: nat, now: State, total: nat, next: Progress)
    requires i < |recipients| == |amounts| && Legs(s, batchRef, token, recipients, amounts, i) == Going(now, total)
    requires next == NextLeg(now, total, batchRef, token, recipients[i], amounts[i], i)
    ensures Legs(s, batchRef, token, recipients, amounts, i + 1) == next
    ensures next.Stopped? ==> Legs(s, batchRef, token, recipients, amounts, |recipients|) == next
  {
    if next.Stopped? {
      LegsStayStopped(s, batchRef, token, recipients, amounts, i + 1, |recipients|);
    }
  }

  lemma {:induction false} LegsStayStopped(
    s: State, batchRef: Word, token: Address, recipients: seq<Address>, amounts: seq<nat>, m: nat, n: nat)
    requires m <= n <= |recipients| == |amounts|
    requires Legs(s, batchRef, token, recipients, amounts, m).Stopped?
    ensures Legs(s, batchRef, token, recipients, amounts, n) == Legs(s, batchRef, token, recipients, amounts, m)
    decreases n
  {
    if m < n {
      LegsStayStopped(s, batchRef, token, recipients, amounts, m, n - 1);
    }
  }
}
