/** Exactly when the vault pays, and on whose word (contracts/src/SettlementVault.sol). */
module VaultAuthority {
  import opened Common
  import opened Keccak
  import opened Erc20
  import opened SettlementVault
  import opened VaultTheorems
  import opened VaultBatches

  // ---- One call ------------------------------------------------------------

  /** transferFrom goes through exactly when the payee is not the zero address and both
      the spender's allowance and the holder's balance cover the amount. */
  lemma TransferFromSucceedsIff(s: Tokens, token: Address, spender: Address, from: Address, to: Address, amount: nat)
    ensures TransferFrom(s, token, spender, from, to, amount).Some? <==>
            to != 0 && amount <= AllowanceOf(s, token, from, spender) && amount <= Balance(s, token, from)
  {
    if amount <= AllowanceOf(s, token, from, spender) {
      assert Balance(Spent(s, token, from, spender, amount), token, from) == Balance(s, token, from);
    }
  }

  /** It takes the amount off that one allowance, unless that is unlimited. */
  lemma TransferFromSpends(s: Tokens, token: Address, spender: Address, from: Address, to: Address, amount: nat, t: Address, o: Address, p: Address)
    requires TransferFrom(s, token, spender, from, to, amount).Some?
    ensures AllowanceOf(TransferFrom(s, token, spender, from, to, amount).value, t, o, p) as int
         == var a := AllowanceOf(s, t, o, p);
            if t == token && o == from && p == spender && a != MAX_UINT then a - amount else a as int
  {
  }

  /** A single payout succeeds exactly when an operator asks, the vault is not paused, the
      token is supported, reference, payee and amount are not zero, the id is unused,
      and the funder's allowance to the vault and balance cover the amount. */
  lemma PayoutSucceedsIff(s: State, caller: Address, ref: Word, token: Address, to: Address, amount: nat)
    ensures Payout(s, caller, ref, token, to, amount).Ok? <==>
            && caller in s.operators && !s.paused && token in s.supportedTokens
            && ref != Num(0) && to != 0 && amount > 0
            && Keccak([ref, Num(token), Num(to), Num(amount)]) !in s.payoutExecuted
            && amount <= AllowanceOf(s.tokens, token, s.funder, s.self) && amount <= Balance(s.tokens, token, s.funder)
  {
    TransferFromSucceedsIff(s.tokens, token, s.self, s.funder, to, amount);
  }

  /** Which error a refused payout names: the first that applies, in this order. */
  lemma PayoutRefusals(s: State, caller: Address, ref: Word, token: Address, to: Address, amount: nat)
    ensures var r := Payout(s, caller, ref, token, to, amount);
            && (caller !in s.operators ==> r == Revert(NotOperator))
            && (caller in s.operators && s.paused ==> r == Revert(EnforcedPause))
            && (caller in s.operators && !s.paused && token !in s.supportedTokens ==> r == Revert(UnsupportedToken))
            && (caller in s.operators && !s.paused && token in s.supportedTokens ==>
                  && (ref == Num(0) ==> r == Revert(InvalidReference))
                  && (ref != Num(0) && to == 0 ==> r == Revert(InvalidBeneficiary))
                  && (ref != Num(0) && to != 0 && amount == 0 ==> r == Revert(InvalidAmount))
                  && (ref != Num(0) && to != 0 && amount > 0 && Keccak([ref, Num(token), Num(to), Num(amount)]) in s.payoutExecuted ==>
                        r == Revert(PayoutAlreadyExecuted)))
  {
  }

  /** What a payout that succeeds leaves: its id is used, its event is logged with the
      funder of that moment, and nothing else but the tokens has changed. */
  lemma PayoutLeaves(s: State, caller: Address, ref: Word, token: Address, to: Address, amount: nat)
    requires Payout(s, caller, ref, token, to, amount).Ok?
    ensures var (s', id) := (Payout(s, caller, ref, token, to, amount).state, Keccak([ref, Num(token), Num(to), Num(amount)]));
            && s' == s.(tokens := s'.tokens, payoutExecuted := s.payoutExecuted + {id},
                        log := s.log + [PayoutExecuted(id, Num(0), token, ref, s.funder, to, amount)])
            && forall t, a :: Balance(s'.tokens, t, a) == Balance(s.tokens, t, a) + if t == token then Delta(s.funder, to, amount, a) else 0
  {
    forall t, a
      ensures Balance(Payout(s, caller, ref, token, to, amount).state.tokens, t, a)
           == Balance(s.tokens, t, a) + if t == token then Delta(s.funder, to, amount, a) else 0
    {
      TransferFromBalances(s.tokens, token, s.self, s.funder, to, amount, t, a);
    }
  }

  /** A batch succeeds exactly when an operator asks, the vault is not paused, the
      reference is not zero, the token is supported, there are between 1 and 256 payees
      with as many amounts, the batch id is unused, every leg has a payee, an amount and
      an unused id, the funder's allowance covers the sum, and its balance covers each
      leg in turn. */
  lemma BatchPaysIff(s: State, caller: Address, ref: Word, token: Address, recipients: seq<Address>, amounts: seq<nat>)
    requires Bounded(s.tokens)
    ensures PayoutBatch(s, caller, ref, token, recipients, amounts).Ok? <==>
            && caller in s.operators && !s.paused && ref != Num(0) && token in s.supportedTokens
            && |recipients| == |amounts| && 1 <= |recipients| <= 256
            && Keccak([ref, Num(token)]) !in s.batchExecuted
            && (forall i :: 0 <= i < |recipients| ==>
                  && recipients[i] != 0 && amounts[i] > 0
                  && Keccak([Keccak([ref, Num(i)]), Num(token), Num(recipients[i]), Num(amounts[i])]) !in s.payoutExecuted)
            && Sum(amounts) <= AllowanceOf(s.tokens, token, s.funder, s.self)
            && (forall k :: 0 <= k < |recipients| ==>
                  Outflow(s.funder, recipients, amounts, k) + amounts[k] <= Balance(s.tokens, token, s.funder))
  {
    assert |recipients| == |amounts| ==> amounts[..|recipients|] == amounts;
    if |recipients| == |amounts| {
      BatchSucceedsIff(s, caller, ref, token, recipients, amounts);
      forall i | 0 <= i < |recipients|
        ensures LegReady(s, ref, token, recipients, amounts, i) <==>
                && recipients[i] != 0 && amounts[i] > 0
                && Keccak([Keccak([ref, Num(i)]), Num(token), Num(recipients[i]), Num(amounts[i])]) !in s.payoutExecuted
      {
      }
    }
  }

  /** Which error refuses a batch before its legs: the first that applies, in this order. */
  lemma BatchRefusals(s: State, caller: Address, ref: Word, token: Address, recipients: seq<Address>, amounts: seq<nat>)
    ensures var r := PayoutBatch(s, caller, ref, token, recipients, amounts);
            if caller !in s.operators then r == Revert(NotOperator)
            else if s.paused then r == Revert(EnforcedPause)
            else if ref == Num(0) then r == Revert(InvalidReference)
            else if token !in s.supportedTokens then r == Revert(UnsupportedToken)
            else if |recipients| != |amounts| then r == Revert(LengthMismatch)
            else if |recipients| == 0 then r == Revert(EmptyBatch)
            else if |recipients| > 256 then r == Revert(BatchTooLarge)
            else Keccak([ref, Num(token)]) in s.batchExecuted ==> r == Revert(BatchAlreadyExecuted)
  {
  }

  /** The owner's calls, exactly: who may make them, with what, and what they change. */
  lemma OwnerCalls(s: State, caller: Address, a: Address, allowed: bool)
    ensures var r := Invoke(s, caller, DoSetFunder(a));
            && (r.Ok? <==> caller == s.owner && a != 0)
            && (r.Ok? ==> r.state == s.(funder := a, log := s.log + [FunderUpdated(s.funder, a)]))
    ensures var r := Invoke(s, caller, DoSetOperator(a, allowed));
            && (r.Ok? <==> caller == s.owner && a != 0)
            && (r.Ok? ==> && r.state == s.(operators := r.state.operators, log := s.log + [OperatorUpdated(a, allowed)])
                          && forall o :: o in r.state.operators <==> if o == a then allowed else o in s.operators)
    ensures var r := Invoke(s, caller, DoSetTokenSupported(a, allowed));
            && (r.Ok? <==> caller == s.owner && a != 0)
            && (r.Ok? ==> && r.state == s.(supportedTokens := r.state.supportedTokens, log := s.log + [TokenSupportUpdated(a, allowed)])
                          && forall t :: t in r.state.supportedTokens <==> if t == a then allowed else t in s.supportedTokens)
    ensures var r := Invoke(s, caller, DoPause);
            (r.Ok? <==> caller == s.owner && !s.paused) && (r.Ok? ==> r.state == s.(paused := true))
    ensures var r := Invoke(s, caller, DoUnpause);
            (r.Ok? <==> caller == s.owner && s.paused) && (r.Ok? ==> r.state == s.(paused := false))
  {
  }

  /** What token holders do by themselves, exactly. */
  lemma HolderCalls(s: State, caller: Address, token: Address, other: Address, to: Address, amount: nat)
    ensures var r := Invoke(s, caller, DoApprove(token, other, amount));
            && (r.Ok? <==> amount <= MAX_UINT)
            && (r.Ok? ==> && r.state == s.(tokens := r.state.tokens)
                          && (forall t, a :: Balance(r.state.tokens, t, a) == Balance(s.tokens, t, a))
                          && forall t, o, p :: AllowanceOf(r.state.tokens, t, o, p)
                                               == if t == token && o == caller && p == other then amount else AllowanceOf(s.tokens, t, o, p))
    ensures Invoke(s, caller, DoTransfer(token, to, amount)).Ok? <==> to != 0 && amount <= Balance(s.tokens, token, caller)
    ensures Invoke(s, caller, DoTransferFrom(token, other, to, amount)).Ok? <==>
              to != 0 && amount <= AllowanceOf(s.tokens, token, other, caller) && amount <= Balance(s.tokens, token, other)
  {
    TransferFromSucceedsIff(s.tokens, token, caller, other, to, amount);
  }

  // ---- Authority over runs -------------------------------------------------

  /** Whether the last word on an operator, in a log, allows it. */
  function Allowed(log: seq<Event>, operator: Address): bool {
    if |log| == 0 then false
    else
      var e := log[|log| - 1];
      if e.OperatorUpdated? && e.operator == operator then e.allowed else Allowed(log[..|log| - 1], operator)
  }

  function Supported(log: seq<Event>, token: Address): bool {
    if |log| == 0 then false
    else
      var e := log[|log| - 1];
      if e.TokenSupportUpdated? && e.supportToken == token then e.supported else Supported(log[..|log| - 1], token)
  }

  function FunderAfter(log: seq<Event>): Address {
    if |log| == 0 then 0
    else if log[|log| - 1].FunderUpdated? then log[|log| - 1].current else FunderAfter(log[..|log| - 1])
  }

  /** Storage is what the log says it is. */
  ghost predicate FollowsLog(s: State) {
    && (forall o :: o in s.operators <==> Allowed(s.log, o))
    && (forall t :: t in s.supportedTokens <==> Supported(s.log, t))
    && s.funder == FunderAfter(s.log)
  }

  predicate IsAdmin(e: Event) {
    e.OperatorUpdated? || e.TokenSupportUpdated? || e.FunderUpdated?
  }

  /** A log that grows by payments and transfers only leaves the storage words alone. */
  lemma {:induction false} QuietLog(log: seq<Event>, more: seq<Event>)
    requires forall k :: 0 <= k < |more| ==> !IsAdmin(more[k])
    ensures forall o :: Allowed(log + more, o) == Allowed(log, o)
    ensures forall t :: Supported(log + more, t) == Supported(log, t)
    ensures FunderAfter(log + more) == FunderAfter(log)
  {
    if |more| == 0 {
      assert log + more == log;
    } else {
      var n := |more| - 1;
      assert (log + more)[..|log + more| - 1] == log + more[..n] && (log + more)[|log + more| - 1] == more[n];
      QuietLog(log, more[..n]);
    }
  }

  /** What a call adds to the log without touching storage words. */
  ghost predicate Grows(s: State, s': State, more: seq<Event>) {
    && s'.log == s.log + more && s'.operators == s.operators && s'.supportedTokens == s.supportedTokens && s'.funder == s.funder
    && s'.owner == s.owner && s'.self == s.self && s'.paused == s.paused
    && forall k :: 0 <= k < |more| ==>
         !IsAdmin(more[k]) && (more[k].PayoutExecuted? ==> more[k].funder == s.funder)
  }

  ghost predicate Payments(token: Address, more: seq<Event>) {
    forall k :: 0 <= k < |more| ==>
      && (more[k].PayoutExecuted? ==> more[k].token == token)
      && (more[k].BatchExecuted? ==> more[k].batchToken == token)
  }

  lemma LegGrows(s: State, total: nat, ref: Word, token: Address, to: Address, amount: nat, i: nat) returns (e: Event)
    requires NextLeg(s, total, ref, token, to, amount, i).Going?
    ensures Grows(s, NextLeg(s, total, ref, token, to, amount, i).state, [e]) && Payments(token, [e])
  {
    var id := ComputePayoutId(LegRef(ref, i), token, to, amount);
    e := PayoutExecuted(id, BatchIdOf(ref, token), token, LegRef(ref, i), s.funder, to, amount);
  }

  lemma {:induction false} LegsGrow(
    s: State, ref: Word, token: Address, recipients: seq<Address>, amounts: seq<nat>, n: nat) returns (more: seq<Event>)
    requires n <= |recipients| == |amounts| && Legs(s, ref, token, recipients, amounts, n).Going?
    ensures Grows(s, Legs(s, ref, token, recipients, amounts, n).state, more) && Payments(token, more)
  {
    if n == 0 {
      more := [];
    } else {
      var before := LegsGrow(s, ref, token, recipients, amounts, n - 1);
      var p := Legs(s, ref, token, recipients, amounts, n - 1);
      var e := LegGrows(p.state, p.total, ref, token, recipients[n - 1], amounts[n - 1], n - 1);
      more := before + [e];
    }
  }

  lemma BatchGrows(s: State, caller: Address, ref: Word, token: Address, recipients: seq<Address>, amounts: seq<nat>) returns (more: seq<Event>)
    requires PayoutBatch(s, caller, ref, token, recipients, amounts).Ok?
    ensures Grows(s, PayoutBatch(s, caller, ref, token, recipients, amounts).state, more) && Payments(token, more)
    ensures caller in s.operators && !s.paused && token in s.supportedTokens
  {
    var legs := LegsGrow(Opened(s, ref, token), ref, token, recipients, amounts, |recipients|);
    var s' := PayoutBatch(s, caller, ref, token, recipients, amounts).state;
    more := legs + [s'.log[|s'.log| - 1]];
  }

  /** The events a call may add, by who makes it and what is in force: payments only for
      an operator while not paused, in a supported token, from the funder; changes of
      operators, tokens and funder only for the owner. */
  ghost predicate Authorized(s: State, caller: Address, e: Event) {
    && (e.PayoutExecuted? ==> Allowed(s.log, caller) && !s.paused && Supported(s.log, e.token) && e.funder == FunderAfter(s.log))
    && (e.BatchExecuted? ==> Allowed(s.log, caller) && !s.paused && Supported(s.log, e.batchToken))
    && (IsAdmin(e) ==> caller == s.owner)
  }

  ghost predicate CallOk(s: State, caller: Address, s': State) {
    && |s.log| <= |s'.log| && s'.log[..|s.log|] == s.log && s'.owner == s.owner
    && FollowsLog(s') && forall k :: |s.log| <= k < |s'.log| ==> Authorized(s, caller, s'.log[k])
  }

  lemma GrowingIsOk(s: State, caller: Address, s': State, more: seq<Event>)
    requires FollowsLog(s) && Grows(s, s', more) && forall k :: 0 <= k < |more| ==> Authorized(s, caller, more[k])
    ensures CallOk(s, caller, s')
  {
    QuietLog(s.log, more);
    assert forall k :: |s.log| <= k < |s'.log| ==> s'.log[k] == more[k - |s.log|];
  }

  lemma AdminIsOk(s: State, caller: Address, s': State, e: Event)
    requires FollowsLog(s) && IsAdmin(e) && caller == s.owner && s'.log == s.log + [e] && s'.owner == s.owner
    requires forall o :: o in s'.operators <==> if e.OperatorUpdated? && o == e.operator then e.allowed else o in s.operators
    requires forall t :: t in s'.supportedTokens <==> if e.TokenSupportUpdated? && t == e.supportToken then e.supported else t in s.supportedTokens
    requires s'.funder == if e.FunderUpdated? then e.current else s.funder
    ensures CallOk(s, caller, s')
  {
    assert (s.log + [e])[..|s.log|] == s.log;
  }

  lemma PayoutIsOk(s: State, caller: Address, ref: Word, token: Address, to: Address, amount: nat)
    requires FollowsLog(s) && Payout(s, caller, ref, token, to, amount).Ok?
    ensures CallOk(s, caller, Payout(s, caller, ref, token, to, amount).state)
  {
    var s' := Payout(s, caller, ref, token, to, amount).state;
    PayoutLeaves(s, caller, ref, token, to, amount);
    GrowingIsOk(s, caller, s', [PayoutExecuted(Keccak([ref, Num(token), Num(to), Num(amount)]), Num(0), token, ref, s.funder, to, amount)]);
  }

  lemma BatchIsOk(s: State, caller: Address, ref: Word, token: Address, recipients: seq<Address>, amounts: seq<nat>)
    requires FollowsLog(s) && PayoutBatch(s, caller, ref, token, recipients, amounts).Ok?
    ensures CallOk(s, caller, PayoutBatch(s, caller, ref, token, recipients, amounts).state)
  {
    var more := BatchGrows(s, caller, ref, token, recipients, amounts);
    GrowingIsOk(s, caller, PayoutBatch(s, caller, ref, token, recipients, amounts).state, more);
  }

  lemma CallIsAuthorized(s: State, caller: Address, c: Call)
    requires FollowsLog(s)
    ensures CallOk(s, caller, Transact(s, caller, c))
  {
    var s' := Transact(s, caller, c);
    if s' == s {
      assert s.log[..|s.log|] == s.log;
    } else {
      match c
      case DoSetFunder(a) => AdminIsOk(s, caller, s', FunderUpdated(s.funder, a));
      case DoSetOperator(a, allowed) => AdminIsOk(s, caller, s', OperatorUpdated(a, allowed));
      case DoSetTokenSupported(a, allowed) => AdminIsOk(s, caller, s', TokenSupportUpdated(a, allowed));
      case DoPayout(ref, token, to, amount) => PayoutIsOk(s, caller, ref, token, to, amount);
      case DoPayoutBatch(ref, token, recipients, amounts) => BatchIsOk(s, caller, ref, token, recipients, amounts);
      case DoTransfer(token, to, amount) => GrowingIsOk(s, caller, s', [Elsewhere(token, caller, to, amount)]);
      case DoTransferFrom(token, holder, to, amount) => GrowingIsOk(s, caller, s', [Elsewhere(token, holder, to, amount)]);
      case _ => assert s'.log == s.log + [];
    }
  }

  lemma {:induction false} StorageFollowsLog(s: State, calls: seq<(Address, Call)>)
    requires Deployed(s) && s.operators == {} && s.supportedTokens == {}
    ensures FollowsLog(Run(s, calls)) && Run(s, calls).owner == s.owner
  {
    if |calls| == 0 {
      assert s.log[..0] == [];
      forall a
        ensures !Allowed(s.log, a) && !Supported(s.log, a)
      {
      }
    } else {
      var n := |calls| - 1;
      StorageFollowsLog(s, calls[..n]);
      CallIsAuthorized(Run(s, calls[..n]), calls[n].0, calls[n].1);
    }
  }

  /** Over every run from deployment, whatever a call adds to the log it was entitled to:
      a payment came from a caller whom the log before it allows as operator, while the
      vault was not paused, in a token the log supports, out of the funder last set; and
      operators, tokens and funder were changed by the owner alone. */
  lemma EveryEventIsAuthorized(s: State, calls: seq<(Address, Call)>, k: nat)
    requires Deployed(s) && s.operators == {} && s.supportedTokens == {} && |calls| > 0
    requires var (before, after) := (Run(s, calls[..|calls| - 1]), Run(s, calls)); |before.log| <= k < |after.log|
    ensures var (before, e, caller) := (Run(s, calls[..|calls| - 1]), Run(s, calls).log[k], calls[|calls| - 1].0);
            && (e.PayoutExecuted? ==>
                  && Allowed(before.log, caller) && !before.paused && Supported(before.log, e.token)
                  && e.funder == FunderAfter(before.log))
            && (e.BatchExecuted? ==> Allowed(before.log, caller) && !before.paused && Supported(before.log, e.batchToken))
            && (e.OperatorUpdated? || e.TokenSupportUpdated? || e.FunderUpdated? ==> caller == s.owner)
  {
    var n := |calls| - 1;
    StorageFollowsLog(s, calls[..n]);
    CallIsAuthorized(Run(s, calls[..n]), calls[n].0, calls[n].1);
  }
}
