/** What every run of the vault keeps. */
module VaultTheorems {
  import opened Common
  import opened Keccak
  import opened Erc20
  import opened SettlementVault

  // ---- Reading the log -----------------------------------------------------

  /** What the log says happened to an account's holding of a token: payouts
      received less payouts funded, and the transfers made without the vault. */
  function Net(log: seq<Event>, token: Address, account: Address): int {
    if |log| == 0 then 0 else Net(log[..|log| - 1], token, account) + EventDelta(log[|log| - 1], token, account)
  }

  function EventDelta(e: Event, token: Address, account: Address): int {
    if e.PayoutExecuted? && e.token == token then Delta(e.funder, e.to, e.amount, account)
    else if e.Elsewhere? && e.movedToken == token then Delta(e.from, e.dest, e.moved, account)
    else 0
  }

  /** The amounts of the legs logged under a batch id. */
  function LegAmounts(log: seq<Event>, batchId: Word): seq<nat> {
    if |log| == 0 then []
    else
      var (rest, e) := (LegAmounts(log[..|log| - 1], batchId), log[|log| - 1]);
      if e.PayoutExecuted? && e.legOf == batchId then rest + [e.amount] else rest
  }

  // ---- Invariant -----------------------------------------------------------

  ghost predicate PayoutsOnce(s: State) {
    && (forall i, j :: 0 <= i < j < |s.log| && s.log[i].PayoutExecuted? && s.log[j].PayoutExecuted? ==>
          s.log[i].payoutId != s.log[j].payoutId)
    && (forall id :: id in s.payoutExecuted <==>
          exists k :: 0 <= k < |s.log| && s.log[k].PayoutExecuted? && s.log[k].payoutId == id)
  }

  ghost predicate BatchesOnce(s: State) {
    && (forall i, j :: 0 <= i < j < |s.log| && s.log[i].BatchExecuted? && s.log[j].BatchExecuted? ==>
          s.log[i].batchId != s.log[j].batchId)
    && (forall id :: id in s.batchExecuted <==>
          exists k :: 0 <= k < |s.log| && s.log[k].BatchExecuted? && s.log[k].batchId == id)
  }

  /** Every logged payout is bound by its id, and is a single payout or a leg of a
      consumed batch. */
  ghost predicate PayoutBound(e: Event, batches: set<Word>)
    requires e.PayoutExecuted?
  {
    && e.payoutId == ComputePayoutId(e.payoutRef, e.token, e.to, e.amount)
    && e.payoutRef != ZERO && e.to != 0 && e.amount > 0
    && (e.legOf == ZERO || exists ref, i: nat :: IsLegOf(e, ref, i) && e.legOf in batches)
  }

  ghost predicate IsLegOf(e: Event, ref: Word, i: nat)
    requires e.PayoutExecuted?
  {
    e.legOf == BatchIdOf(ref, e.token) && e.payoutRef == LegRef(ref, i)
  }

  ghost predicate AllBound(s: State) {
    forall k :: 0 <= k < |s.log| && s.log[k].PayoutExecuted? ==> PayoutBound(s.log[k], s.batchExecuted)
  }

  ghost predicate TotalsMatch(s: State) {
    forall k :: 0 <= k < |s.log| && s.log[k].BatchExecuted? ==>
      && s.log[k].batchId == BatchIdOf(s.log[k].batchRef, s.log[k].batchToken)
      && Sum(LegAmounts(s.log, s.log[k].batchId)) == s.log[k].total
      && |LegAmounts(s.log, s.log[k].batchId)| == s.log[k].count
  }

  ghost predicate Conserves(tokens: Tokens, s: State) {
    forall t, a :: Balance(s.tokens, t, a) == Balance(tokens, t, a) + Net(s.log, t, a)
  }

  ghost predicate Inv(tokens: Tokens, s: State) {
    PayoutsOnce(s) && BatchesOnce(s) && AllBound(s) && TotalsMatch(s) && Conserves(tokens, s) && Bounded(s.tokens)
  }

  /** What holds between the legs of a batch: everything but the batch's own record. */
  ghost predicate LegInv(tokens: Tokens, s: State) {
    PayoutsOnce(s) && AllBound(s) && Conserves(tokens, s) && Bounded(s.tokens)
  }

  // ---- One leg -------------------------------------------------------------

  lemma NetAppend(log: seq<Event>, e: Event, token: Address, account: Address)
    ensures Net(log + [e], token, account) == Net(log, token, account) + EventDelta(e, token, account)
  {
    assert (log + [e])[..|log|] == log;
  }

  lemma LegAmountsAppend(log: seq<Event>, e: Event, b: Word)
    ensures LegAmounts(log + [e], b) == LegAmounts(log, b) + if e.PayoutExecuted? && e.legOf == b then [e.amount] else []
  {
    assert (log + [e])[..|log|] == log;
  }

  lemma {:induction false} NoLegs(log: seq<Event>, b: Word)
    requires forall k :: 0 <= k < |log| && log[k].PayoutExecuted? ==> log[k].legOf != b
    ensures LegAmounts(log, b) == []
  {
    if |log| > 0 {
      NoLegs(log[..|log| - 1], b);
    }
  }

  lemma ExecuteConserves(tokens: Tokens, s: State, batchId: Word, ref: Word, token: Address, to: Address, amount: nat)
    requires Conserves(tokens, s) && Bounded(s.tokens) && Execute(s, batchId, ref, token, to, amount).Ok?
    ensures var s' := Execute(s, batchId, ref, token, to, amount).state; Conserves(tokens, s') && Bounded(s'.tokens)
  {
    var s' := Execute(s, batchId, ref, token, to, amount).state;
    var e := s'.log[|s.log|];
    forall t, a
      ensures Balance(s'.tokens, t, a) == Balance(tokens, t, a) + Net(s'.log, t, a)
    {
      TransferFromBalances(s.tokens, token, s.self, s.funder, to, amount, t, a);
      NetAppend(s.log, e, t, a);
    }
    TransferFromBalances(s.tokens, token, s.self, s.funder, to, amount, 0, 0);
  }

  lemma ExecuteOnce(s: State, batchId: Word, ref: Word, token: Address, to: Address, amount: nat)
    requires PayoutsOnce(s) && Execute(s, batchId, ref, token, to, amount).Ok?
    ensures PayoutsOnce(Execute(s, batchId, ref, token, to, amount).state)
  {
    var s' := Execute(s, batchId, ref, token, to, amount).state;
    var n := |s.log|;
    assert s'.log[n].PayoutExecuted? && s'.log == s.log + [s'.log[n]];
    assert forall k :: 0 <= k < n ==> s'.log[k] == s.log[k];
    forall id
      ensures id in s'.payoutExecuted <==> exists k :: 0 <= k < |s'.log| && s'.log[k].PayoutExecuted? && s'.log[k].payoutId == id
    {
      if id in s.payoutExecuted {
        var k :| 0 <= k < n && s.log[k].PayoutExecuted? && s.log[k].payoutId == id;
        assert s'.log[k] == s.log[k];
      }
    }
    forall i | 0 <= i < n && s'.log[i].PayoutExecuted?
      ensures s'.log[i].payoutId != s'.log[n].payoutId
    {
      assert s.log[i] == s'.log[i];
    }
  }

  lemma ExecuteKeepsLegInv(tokens: Tokens, s: State, batchId: Word, ref: Word, token: Address, to: Address, amount: nat)
    requires LegInv(tokens, s) && Execute(s, batchId, ref, token, to, amount).Ok?
    requires batchId == ZERO || exists b, i: nat :: batchId == BatchIdOf(b, token) && ref == LegRef(b, i) && batchId in s.batchExecuted
    ensures LegInv(tokens, Execute(s, batchId, ref, token, to, amount).state)
  {
    ExecuteConserves(tokens, s, batchId, ref, token, to, amount);
    ExecuteOnce(s, batchId, ref, token, to, amount);
    var s' := Execute(s, batchId, ref, token, to, amount).state;
    var e := s'.log[|s.log|];
    if batchId != ZERO {
      var b, i: nat :| batchId == BatchIdOf(b, token) && ref == LegRef(b, i) && batchId in s.batchExecuted;
      assert IsLegOf(e, b, i);
    }
    assert PayoutBound(e, s'.batchExecuted);
  }

  // ---- The legs of a batch -------------------------------------------------

  /** After `n` legs: the log grew by those legs only, all under this batch. */
  ghost predicate LegsShape(s: State, p: Progress, batchId: Word, amounts: seq<nat>, n: nat)
    requires p.Going? && n <= |amounts|
  {
    && p.state == s.(payoutExecuted := p.state.payoutExecuted, tokens := p.state.tokens, log := p.state.log)
    && p.total == Sum(amounts[..n])
    && |p.state.log| == |s.log| + n && p.state.log[..|s.log|] == s.log
    && (forall k :: |s.log| <= k < |p.state.log| ==> p.state.log[k].PayoutExecuted? && p.state.log[k].legOf == batchId)
    && LegAmounts(p.state.log, batchId) == LegAmounts(s.log, batchId) + amounts[..n]
    && (forall b :: b != batchId ==> LegAmounts(p.state.log, b) == LegAmounts(s.log, b))
  }

  lemma NextLegShape(s: State, p: Progress, batchRef: Word, token: Address, recipients: seq<Address>, amounts: seq<nat>, n: nat)
    requires n < |recipients| == |amounts| && p.Going? && LegsShape(s, p, BatchIdOf(batchRef, token), amounts, n)
    requires NextLeg(p.state, p.total, batchRef, token, recipients[n], amounts[n], n).Going?
    ensures LegsShape(s, NextLeg(p.state, p.total, batchRef, token, recipients[n], amounts[n], n), BatchIdOf(batchRef, token), amounts, n + 1)
  {
    var q := NextLeg(p.state, p.total, batchRef, token, recipients[n], amounts[n], n);
    var e := q.state.log[|p.state.log|];
    assert q.state.log == p.state.log + [e];
    assert amounts[..n + 1] == amounts[..n] + [amounts[n]];
    forall b {
      LegAmountsAppend(p.state.log, e, b);
    }
  }

  lemma {:induction false} LegsKeepInv(
    tokens: Tokens, s: State, batchRef: Word, token: Address, recipients: seq<Address>, amounts: seq<nat>, n: nat)
    requires n <= |recipients| == |amounts| && LegInv(tokens, s) && BatchIdOf(batchRef, token) in s.batchExecuted
    requires Legs(s, batchRef, token, recipients, amounts, n).Going?
    ensures var p := Legs(s, batchRef, token, recipients, amounts, n);
            LegInv(tokens, p.state) && LegsShape(s, p, BatchIdOf(batchRef, token), amounts, n)
  {
    if n > 0 {
      LegsKeepInv(tokens, s, batchRef, token, recipients, amounts, n - 1);
      var p := Legs(s, batchRef, token, recipients, amounts, n - 1);
      ExecuteKeepsLegInv(tokens, p.state, BatchIdOf(batchRef, token), LegRef(batchRef, n - 1), token, recipients[n - 1], amounts[n - 1]);
      NextLegShape(s, p, batchRef, token, recipients, amounts, n - 1);
    } else {
      assert amounts[..0] == [];
    }
  }

  /** A fresh batch id has no legs yet: every leg in the log belongs to a consumed one. */
  lemma FreshBatchHasNoLegs(s: State, batchId: Word)
    requires AllBound(s) && batchId != ZERO && batchId !in s.batchExecuted
    ensures LegAmounts(s.log, batchId) == []
  {
    forall k | 0 <= k < |s.log| && s.log[k].PayoutExecuted?
      ensures s.log[k].legOf != batchId
    {
      assert PayoutBound(s.log[k], s.batchExecuted);
    }
    NoLegs(s.log, batchId);
  }

  lemma BatchKeepsInv(tokens: Tokens, s: State, caller: Address, batchRef: Word, token: Address, recipients: seq<Address>, amounts: seq<nat>)
    requires Inv(tokens, s) && PayoutBatch(s, caller, batchRef, token, recipients, amounts).Ok?
    ensures Inv(tokens, PayoutBatch(s, caller, batchRef, token, recipients, amounts).state)
  {
    var s' := PayoutBatch(s, caller, batchRef, token, recipients, amounts).state;
    var batchId, start, n := BatchIdOf(batchRef, token), Opened(s, batchRef, token), |recipients|;
    OpenedLegInv(tokens, s, batchRef, token);
    LegsKeepInv(tokens, start, batchRef, token, recipients, amounts, n);
    var p := Legs(start, batchRef, token, recipients, amounts, n);
    assert amounts[..n] == amounts;
    FreshBatchHasNoLegs(s, batchId);
    ClosedPayouts(tokens, p.state, s'.log[|p.state.log|]);
    ClosedBatches(s, p, s', batchId);
    ClosedTotals(s, p, s', batchId, amounts);
  }

  lemma OpenedLegInv(tokens: Tokens, s: State, batchRef: Word, token: Address)
    requires LegInv(tokens, s)
    ensures LegInv(tokens, Opened(s, batchRef, token))
  {
    var s' := Opened(s, batchRef, token);
    forall k | 0 <= k < |s'.log| && s'.log[k].PayoutExecuted?
      ensures PayoutBound(s'.log[k], s'.batchExecuted)
    {
      assert PayoutBound(s.log[k], s.batchExecuted);
    }
  }

  /** Logging something that moves no tokens keeps the payouts in order. */
  lemma ClosedPayouts(tokens: Tokens, s: State, e: Event)
    requires LegInv(tokens, s) && !e.PayoutExecuted? && !e.Elsewhere?
    ensures LegInv(tokens, s.(log := s.log + [e]))
  {
    var s' := s.(log := s.log + [e]);
    forall t, a
      ensures Balance(s'.tokens, t, a) == Balance(tokens, t, a) + Net(s'.log, t, a)
    {
      NetAppend(s.log, e, t, a);
    }
    assert forall k :: 0 <= k < |s'.log| && s'.log[k].PayoutExecuted? ==> k < |s.log| && s'.log[k] == s.log[k];
    assert forall k :: 0 <= k < |s.log| ==> s'.log[k] == s.log[k];
  }

  lemma ClosedBatches(s: State, p: Progress, s': State, batchId: Word)
    requires BatchesOnce(s) && batchId !in s.batchExecuted && p.Going?
    requires |s.log| <= |p.state.log| && p.state.log[..|s.log|] == s.log
    requires forall k :: |s.log| <= k < |p.state.log| ==> p.state.log[k].PayoutExecuted?
    requires |s'.log| == |p.state.log| + 1 && s'.log[..|p.state.log|] == p.state.log
    requires s'.log[|p.state.log|].BatchExecuted? && s'.log[|p.state.log|].batchId == batchId
    requires s'.batchExecuted == s.batchExecuted + {batchId}
    ensures BatchesOnce(s')
  {
    var n := |p.state.log|;
    forall k | 0 <= k < n && s'.log[k].BatchExecuted?
      ensures k < |s.log| && s'.log[k] == s.log[k]
    {
      assert s'.log[k] == p.state.log[k];
    }
    assert forall k :: 0 <= k < |s.log| ==> s'.log[k] == s.log[k];
    forall id
      ensures id in s'.batchExecuted <==> exists k :: 0 <= k < |s'.log| && s'.log[k].BatchExecuted? && s'.log[k].batchId == id
    {
      if id in s.batchExecuted {
        var k :| 0 <= k < |s.log| && s.log[k].BatchExecuted? && s.log[k].batchId == id;
        assert s'.log[k] == s.log[k];
      }
    }
  }

  lemma ClosedTotals(s: State, p: Progress, s': State, batchId: Word, amounts: seq<nat>)
    requires TotalsMatch(s) && BatchesOnce(s) && batchId !in s.batchExecuted && LegAmounts(s.log, batchId) == []
    requires p.Going? && p.total == Sum(amounts) && |s.log| <= |p.state.log| && p.state.log[..|s.log|] == s.log
    requires forall k :: |s.log| <= k < |p.state.log| ==> p.state.log[k].PayoutExecuted?
    requires LegAmounts(p.state.log, batchId) == amounts
    requires forall b :: b != batchId ==> LegAmounts(p.state.log, b) == LegAmounts(s.log, b)
    requires |s'.log| == |p.state.log| + 1 && s'.log[..|p.state.log|] == p.state.log
    requires var e := s'.log[|p.state.log|];
             e.BatchExecuted? && e.batchId == batchId == BatchIdOf(e.batchRef, e.batchToken) && e.total == p.total && e.count == |amounts|
    ensures TotalsMatch(s')
  {
    var n := |p.state.log|;
    var e := s'.log[n];
    assert s'.log == p.state.log + [e];
    forall k | 0 <= k < |s'.log| && s'.log[k].BatchExecuted?
      ensures s'.log[k].batchId == BatchIdOf(s'.log[k].batchRef, s'.log[k].batchToken)
      ensures Sum(LegAmounts(s'.log, s'.log[k].batchId)) == s'.log[k].total
      ensures |LegAmounts(s'.log, s'.log[k].batchId)| == s'.log[k].count
    {
      LegAmountsAppend(p.state.log, e, s'.log[k].batchId);
      if k < n {
        assert s'.log[k] == p.state.log[k] && k < |s.log| && p.state.log[k] == s.log[k];
        assert s.log[k].batchId in s.batchExecuted;
      }
    }
  }

  // ---- Every call, every run -----------------------------------------------

  lemma BatchRecordsStay(s: State, s': State, e: Event)
    requires BatchesOnce(s) && TotalsMatch(s) && s'.log == s.log + [e] && s'.batchExecuted == s.batchExecuted
    requires !e.BatchExecuted? && (e.PayoutExecuted? ==> e.legOf == ZERO)
    ensures BatchesOnce(s') && TotalsMatch(s')
  {
    assert forall k :: 0 <= k < |s'.log| && s'.log[k].BatchExecuted? ==> k < |s.log| && s'.log[k] == s.log[k];
    assert forall k :: 0 <= k < |s.log| ==> s'.log[k] == s.log[k];
    forall k | 0 <= k < |s'.log| && s'.log[k].BatchExecuted?
      ensures LegAmounts(s'.log, s'.log[k].batchId) == LegAmounts(s.log, s.log[k].batchId)
    {
      LegAmountsAppend(s.log, e, s.log[k].batchId);
    }
  }

  lemma PayoutRecordsStay(s: State, s': State, e: Event)
    requires PayoutsOnce(s) && AllBound(s) && s'.log == s.log + [e] && !e.PayoutExecuted?
    requires s'.payoutExecuted == s.payoutExecuted && s'.batchExecuted == s.batchExecuted
    ensures PayoutsOnce(s') && AllBound(s')
  {
    assert forall k :: 0 <= k < |s'.log| && s'.log[k].PayoutExecuted? ==> k < |s.log| && s'.log[k] == s.log[k];
    assert forall k :: 0 <= k < |s.log| ==> s'.log[k] == s.log[k];
  }

  lemma PayoutKeepsInv(tokens: Tokens, s: State, caller: Address, ref: Word, token: Address, to: Address, amount: nat)
    requires Inv(tokens, s) && Payout(s, caller, ref, token, to, amount).Ok?
    ensures Inv(tokens, Payout(s, caller, ref, token, to, amount).state)
  {
    var s' := Payout(s, caller, ref, token, to, amount).state;
    ExecuteKeepsLegInv(tokens, s, ZERO, ref, token, to, amount);
    BatchRecordsStay(s, s', s'.log[|s.log|]);
  }

  /** Admin calls and approvals log one harmless event or none and move no tokens. */
  lemma AdminKeepsInv(tokens: Tokens, s: State, s': State, e: Event)
    requires Inv(tokens, s) && !e.PayoutExecuted? && !e.Elsewhere? && !e.BatchExecuted?
    requires s' == s.(funder := s'.funder, operators := s'.operators, supportedTokens := s'.supportedTokens, log := s.log + [e])
    ensures Inv(tokens, s')
  {
    ClosedPayouts(tokens, s, e);
    BatchRecordsStay(s, s', e);
  }

  lemma TransferKeepsInv(tokens: Tokens, s: State, caller: Address, token: Address, to: Address, amount: nat)
    requires Inv(tokens, s) && Invoke(s, caller, DoTransfer(token, to, amount)).Ok?
    ensures Inv(tokens, Invoke(s, caller, DoTransfer(token, to, amount)).state)
  {
    var s' := Invoke(s, caller, DoTransfer(token, to, amount)).state;
    forall t, a
      ensures Balance(s'.tokens, t, a) == Balance(s.tokens, t, a) + EventDelta(Elsewhere(token, caller, to, amount), t, a)
    {
      MovedBalances(s.tokens, token, caller, to, amount, t, a);
    }
    assert s'.tokens.allowances == s.tokens.allowances;
    ElsewhereKeepsInv(tokens, s, s', token, caller, to, amount);
  }

  lemma TransferFromKeepsInv(tokens: Tokens, s: State, caller: Address, token: Address, holder: Address, to: Address, amount: nat)
    requires Inv(tokens, s) && Invoke(s, caller, DoTransferFrom(token, holder, to, amount)).Ok?
    ensures Inv(tokens, Invoke(s, caller, DoTransferFrom(token, holder, to, amount)).state)
  {
    var s' := Invoke(s, caller, DoTransferFrom(token, holder, to, amount)).state;
    forall t, a
      ensures Balance(s'.tokens, t, a) == Balance(s.tokens, t, a) + EventDelta(Elsewhere(token, holder, to, amount), t, a)
      ensures Bounded(s'.tokens)
    {
      TransferFromBalances(s.tokens, token, caller, holder, to, amount, t, a);
    }
    assert Bounded(s'.tokens) by { TransferFromBalances(s.tokens, token, caller, holder, to, amount, 0, 0); }
    ElsewhereKeepsInv(tokens, s, s', token, holder, to, amount);
  }

  lemma ElsewhereKeepsInv(tokens: Tokens, s: State, s': State, token: Address, from: Address, to: Address, amount: nat)
    requires Inv(tokens, s) && Bounded(s'.tokens) && s' == s.(tokens := s'.tokens, log := s.log + [Elsewhere(token, from, to, amount)])
    requires forall t, a :: Balance(s'.tokens, t, a) == Balance(s.tokens, t, a) + EventDelta(Elsewhere(token, from, to, amount), t, a)
    ensures Inv(tokens, s')
  {
    var e := Elsewhere(token, from, to, amount);
    BatchRecordsStay(s, s', e);
    PayoutRecordsStay(s, s', e);
    forall t, a
      ensures Balance(s'.tokens, t, a) == Balance(tokens, t, a) + Net(s'.log, t, a)
    {
      NetAppend(s.log, e, t, a);
    }
  }

  lemma CallKeepsInv(tokens: Tokens, s: State, caller: Address, c: Call)
    requires Inv(tokens, s)
    ensures Inv(tokens, Transact(s, caller, c))
  {
    if Invoke(s, caller, c).Ok? {
      var s' := Transact(s, caller, c);
      match c
      case DoSetFunder(f) => AdminKeepsInv(tokens, s, s', FunderUpdated(s.funder, f));
      case DoSetOperator(o, allowed) => AdminKeepsInv(tokens, s, s', OperatorUpdated(o, allowed));
      case DoSetTokenSupported(t, supported) => AdminKeepsInv(tokens, s, s', TokenSupportUpdated(t, supported));
      case DoPayout(ref, token, to, amount) => PayoutKeepsInv(tokens, s, caller, ref, token, to, amount);
      case DoPayoutBatch(ref, token, recipients, amounts) => BatchKeepsInv(tokens, s, caller, ref, token, recipients, amounts);
      case DoTransfer(token, to, amount) => TransferKeepsInv(tokens, s, caller, token, to, amount);
      case DoTransferFrom(token, holder, to, amount) => TransferFromKeepsInv(tokens, s, caller, token, holder, to, amount);
      case _ =>
        assert s'.log == s.log && s'.payoutExecuted == s.payoutExecuted && s'.batchExecuted == s.batchExecuted;
        assert forall t, a :: Balance(s'.tokens, t, a) == Balance(s.tokens, t, a);
    }
  }

  /** Over every run from deployment: each payout id and each batch id takes effect
      at most once and exactly when the log says so, each account's balance moves by
      exactly what the log says, and each batch's total is the sum of its legs. */
  lemma {:induction false} EveryRunIsAccountedFor(s: State, calls: seq<(Address, Call)>)
    requires Deployed(s)
    ensures Inv(s.tokens, Run(s, calls))
  {
    if |calls| == 0 {
      assert s.log[..0] == [] && forall t, a :: Net(s.log, t, a) == 0;
    } else {
      var n := |calls| - 1;
      EveryRunIsAccountedFor(s, calls[..n]);
      CallKeepsInv(s.tokens, Run(s, calls[..n]), calls[n].0, calls[n].1);
    }
  }
}
