/** Exactly when a batch goes through, so that checking the total up front suffices. */
module VaultBatches {
  import opened Common
  import opened Keccak
  import opened Erc20
  import opened SettlementVault
  import opened VaultTheorems

  function LegId(batchRef: Word, token: Address, recipients: seq<Address>, amounts: seq<nat>, i: nat): Word
    requires i < |recipients| == |amounts|
  {
    ComputePayoutId(LegRef(batchRef, i), token, recipients[i], amounts[i])
  }

  predicate LegReady(s: State, batchRef: Word, token: Address, recipients: seq<Address>, amounts: seq<nat>, i: nat)
    requires i < |recipients| == |amounts|
  {
    recipients[i] != 0 && amounts[i] > 0 && LegId(batchRef, token, recipients, amounts, i) !in s.payoutExecuted
  }

  /** What leaves the funder over the first `n` legs; a leg paid to the funder
      itself moves nothing out. */
  function Outflow(funder: Address, recipients: seq<Address>, amounts: seq<nat>, n: nat): nat
    requires n <= |recipients| == |amounts|
  {
    if n == 0 then 0
    else Outflow(funder, recipients, amounts, n - 1) + if recipients[n - 1] == funder then 0 else amounts[n - 1]
  }

  /** The allowance covers the sum, and each leg is covered when its turn comes. */
  predicate Funded(s: State, token: Address, recipients: seq<Address>, amounts: seq<nat>, n: nat)
    requires n <= |recipients| == |amounts|
  {
    && Sum(amounts[..n]) <= AllowanceOf(s.tokens, token, s.funder, s.self)
    && forall k :: 0 <= k < n ==>
         Outflow(s.funder, recipients, amounts, k) + amounts[k] <= Balance(s.tokens, token, s.funder)
  }

  /** The exact state the first `n` legs leave behind. */
  ghost predicate After(s: State, p: Progress, batchRef: Word, token: Address, recipients: seq<Address>, amounts: seq<nat>, n: nat)
    requires n <= |recipients| == |amounts| && p.Going?
  {
    var allowance := AllowanceOf(s.tokens, token, s.funder, s.self);
    && p.state.self == s.self && p.state.funder == s.funder && p.total == Sum(amounts[..n]) <= MAX_UINT
    && Balance(p.state.tokens, token, s.funder) as int
       == Balance(s.tokens, token, s.funder) - Outflow(s.funder, recipients, amounts, n)
    && AllowanceOf(p.state.tokens, token, s.funder, s.self) as int
       == (if allowance == MAX_UINT then allowance as int else allowance - Sum(amounts[..n]))
    && (forall i :: 0 <= i < n ==> LegId(batchRef, token, recipients, amounts, i) in p.state.payoutExecuted)
    && (forall id :: id in p.state.payoutExecuted ==>
          id in s.payoutExecuted || exists i :: 0 <= i < n && id == LegId(batchRef, token, recipients, amounts, i))
    && s.payoutExecuted <= p.state.payoutExecuted
  }

  /** Legs of one batch have pairwise distinct ids, even with equal recipients and amounts. */
  lemma LegIdsDistinct(batchRef: Word, token: Address, recipients: seq<Address>, amounts: seq<nat>, i: nat, j: nat)
    requires i < j < |recipients| == |amounts|
    ensures LegId(batchRef, token, recipients, amounts, i) != LegId(batchRef, token, recipients, amounts, j)
  {
    assert LegRef(batchRef, i).preimage[1] == Num(i) && LegRef(batchRef, j).preimage[1] == Num(j);
    assert LegId(batchRef, token, recipients, amounts, i).preimage[0] == LegRef(batchRef, i);
    assert LegId(batchRef, token, recipients, amounts, j).preimage[0] == LegRef(batchRef, j);
  }

  lemma SpentAllowance(s: Tokens, token: Address, owner: Address, spender: Address, to: Address, amount: nat)
    requires TransferFrom(s, token, spender, owner, to, amount).Some?
    ensures AllowanceOf(TransferFrom(s, token, spender, owner, to, amount).value, token, owner, spender) as int
         == var a := AllowanceOf(s, token, owner, spender); if a == MAX_UINT then a as int else a - amount
  {
  }

  /** Whether one more leg goes through, in terms of the state before the batch. */
  lemma NextLegGoesIff(s: State, p: Progress, batchRef: Word, token: Address, recipients: seq<Address>, amounts: seq<nat>, n: nat)
    requires n < |recipients| == |amounts| && p.Going? && After(s, p, batchRef, token, recipients, amounts, n)
    requires Bounded(s.tokens)
    ensures NextLeg(p.state, p.total, batchRef, token, recipients[n], amounts[n], n).Going? <==>
            && LegReady(s, batchRef, token, recipients, amounts, n)
            && Sum(amounts[..n + 1]) <= AllowanceOf(s.tokens, token, s.funder, s.self)
            && Outflow(s.funder, recipients, amounts, n) + amounts[n] <= Balance(s.tokens, token, s.funder)
  {
    var id := LegId(batchRef, token, recipients, amounts, n);
    assert amounts[..n + 1][..n] == amounts[..n];
    assert id in p.state.payoutExecuted <==> id in s.payoutExecuted by {
      forall i | 0 <= i < n
        ensures id != LegId(batchRef, token, recipients, amounts, i)
      {
        LegIdsDistinct(batchRef, token, recipients, amounts, i, n);
      }
    }
    AllowanceBounded(s.tokens, token, s.funder, s.self);
    NextLegGoes(p.state, p.total, batchRef, token, recipients[n], amounts[n], n);
  }

  lemma AllowanceBounded(s: Tokens, token: Address, owner: Address, spender: Address)
    requires Bounded(s)
    ensures AllowanceOf(s, token, owner, spender) <= MAX_UINT
  {
  }

  lemma NextLegGoes(s: State, total: nat, batchRef: Word, token: Address, to: Address, amount: nat, i: nat)
    ensures NextLeg(s, total, batchRef, token, to, amount, i).Going? <==>
            && to != 0 && amount > 0 && ComputePayoutId(LegRef(batchRef, i), token, to, amount) !in s.payoutExecuted
            && amount <= AllowanceOf(s.tokens, token, s.funder, s.self) && amount <= Balance(s.tokens, token, s.funder)
            && total + amount <= MAX_UINT
  {
    if amount <= AllowanceOf(s.tokens, token, s.funder, s.self) {
      assert Balance(Spent(s.tokens, token, s.funder, s.self, amount), token, s.funder) == Balance(s.tokens, token, s.funder);
    }
  }

  lemma NextLegAfter(s: State, p: Progress, batchRef: Word, token: Address, recipients: seq<Address>, amounts: seq<nat>, n: nat)
    requires n < |recipients| == |amounts| && p.Going? && After(s, p, batchRef, token, recipients, amounts, n)
    requires Bounded(s.tokens) && NextLeg(p.state, p.total, batchRef, token, recipients[n], amounts[n], n).Going?
    ensures After(s, NextLeg(p.state, p.total, batchRef, token, recipients[n], amounts[n], n), batchRef, token, recipients, amounts, n + 1)
  {
    var q := NextLeg(p.state, p.total, batchRef, token, recipients[n], amounts[n], n);
    AllowanceBounded(s.tokens, token, s.funder, s.self);
    assert amounts[..n + 1][..n] == amounts[..n];
    TransferFromBalances(p.state.tokens, token, s.self, s.funder, recipients[n], amounts[n], token, s.funder);
    SpentAllowance(p.state.tokens, token, s.funder, s.self, recipients[n], amounts[n]);
    assert q.state.payoutExecuted == p.state.payoutExecuted + {LegId(batchRef, token, recipients, amounts, n)};
  }

  /** The first `n` legs are well formed and unused, and the funder covers them. */
  ghost predicate Passes(s: State, batchRef: Word, token: Address, recipients: seq<Address>, amounts: seq<nat>, n: nat)
    requires n <= |recipients| == |amounts|
  {
    && (forall i :: 0 <= i < n ==> LegReady(s, batchRef, token, recipients, amounts, i))
    && Funded(s, token, recipients, amounts, n)
  }

  lemma PassesStep(s: State, batchRef: Word, token: Address, recipients: seq<Address>, amounts: seq<nat>, n: nat)
    requires n < |recipients| == |amounts|
    ensures Passes(s, batchRef, token, recipients, amounts, n + 1) <==>
            && Passes(s, batchRef, token, recipients, amounts, n)
            && LegReady(s, batchRef, token, recipients, amounts, n)
            && Sum(amounts[..n + 1]) <= AllowanceOf(s.tokens, token, s.funder, s.self)
            && Outflow(s.funder, recipients, amounts, n) + amounts[n] <= Balance(s.tokens, token, s.funder)
  {
    assert amounts[..n + 1][..n] == amounts[..n];
  }

  /** One round of the loop, from whatever the rounds before left. */
  lemma OneMoreLegGoesIff(s: State, p: Progress, batchRef: Word, token: Address, recipients: seq<Address>, amounts: seq<nat>, n: nat)
    requires n < |recipients| == |amounts| && Bounded(s.tokens)
    requires p.Going? <==> Passes(s, batchRef, token, recipients, amounts, n)
    requires p.Going? ==> After(s, p, batchRef, token, recipients, amounts, n)
    ensures var q := if p.Stopped? then p else NextLeg(p.state, p.total, batchRef, token, recipients[n], amounts[n], n);
            && (q.Going? <==> Passes(s, batchRef, token, recipients, amounts, n + 1))
            && (q.Going? ==> After(s, q, batchRef, token, recipients, amounts, n + 1))
  {
    PassesStep(s, batchRef, token, recipients, amounts, n);
    if p.Going? {
      NextLegGoesIff(s, p, batchRef, token, recipients, amounts, n);
      if NextLeg(p.state, p.total, batchRef, token, recipients[n], amounts[n], n).Going? {
        NextLegAfter(s, p, batchRef, token, recipients, amounts, n);
      }
    }
  }

  lemma {:induction false} LegsGoIff(s: State, batchRef: Word, token: Address, recipients: seq<Address>, amounts: seq<nat>, n: nat)
    requires n <= |recipients| == |amounts| && Bounded(s.tokens)
    ensures var p := Legs(s, batchRef, token, recipients, amounts, n);
            && (p.Going? <==> Passes(s, batchRef, token, recipients, amounts, n))
            && (p.Going? ==> After(s, p, batchRef, token, recipients, amounts, n))
  {
    if n == 0 {
      assert amounts[..0] == [];
    } else {
      LegsGoIff(s, batchRef, token, recipients, amounts, n - 1);
      OneMoreLegGoesIff(s, Legs(s, batchRef, token, recipients, amounts, n - 1), batchRef, token, recipients, amounts, n - 1);
    }
  }

  lemma PassesAlike(s: State, s': State, batchRef: Word, token: Address, recipients: seq<Address>, amounts: seq<nat>)
    requires |recipients| == |amounts|
    requires s.payoutExecuted == s'.payoutExecuted && s.tokens == s'.tokens && s.funder == s'.funder && s.self == s'.self
    requires Passes(s, batchRef, token, recipients, amounts, |recipients|)
    ensures Passes(s', batchRef, token, recipients, amounts, |recipients|)
  {
    forall i | 0 <= i < |recipients|
      ensures LegReady(s', batchRef, token, recipients, amounts, i)
    {
      assert LegReady(s, batchRef, token, recipients, amounts, i);
    }
  }

  /** A batch succeeds if and only if it passes the entry checks, every leg is well
      formed and unused, and the funder's allowance and balance cover the legs. */
  lemma BatchSucceedsIff(s: State, caller: Address, batchRef: Word, token: Address, recipients: seq<Address>, amounts: seq<nat>)
    requires Bounded(s.tokens)
    ensures PayoutBatch(s, caller, batchRef, token, recipients, amounts).Ok? <==>
            && BatchRefusal(s, caller, batchRef, token, recipients, amounts).None?
            && Passes(s, batchRef, token, recipients, amounts, |recipients|)
  {
    if BatchRefusal(s, caller, batchRef, token, recipients, amounts).None? {
      var start := Opened(s, batchRef, token);
      LegsGoIff(start, batchRef, token, recipients, amounts, |recipients|);
      if Passes(start, batchRef, token, recipients, amounts, |recipients|) {
        PassesAlike(start, s, batchRef, token, recipients, amounts);
      } else if Passes(s, batchRef, token, recipients, amounts, |recipients|) {
        PassesAlike(s, start, batchRef, token, recipients, amounts);
      }
    }
  }

  lemma {:induction false} OutflowWithinSum(funder: Address, recipients: seq<Address>, amounts: seq<nat>, k: nat, n: nat)
    requires k <= n <= |recipients| == |amounts|
    ensures Outflow(funder, recipients, amounts, k) <= Sum(amounts[..k]) <= Sum(amounts[..n])
    decreases n
  {
    if n > 0 {
      assert amounts[..n][..n - 1] == amounts[..n - 1];
      OutflowWithinSum(funder, recipients, amounts, if k < n then k else n - 1, n - 1);
    }
  }

  lemma CoveredSumIsFunded(s: State, token: Address, recipients: seq<Address>, amounts: seq<nat>)
    requires |recipients| == |amounts|
    requires Sum(amounts) <= Balance(s.tokens, token, s.funder) && Sum(amounts) <= AllowanceOf(s.tokens, token, s.funder, s.self)
    ensures Funded(s, token, recipients, amounts, |recipients|)
  {
    var n := |amounts|;
    assert amounts[..n] == amounts;
    forall k | 0 <= k < n
      ensures Outflow(s.funder, recipients, amounts, k) + amounts[k] <= Sum(amounts)
    {
      OutflowWithinSum(s.funder, recipients, amounts, k, n);
      OutflowWithinSum(s.funder, recipients, amounts, k + 1, n);
      assert amounts[..k + 1][..k] == amounts[..k];
    }
  }

  lemma BoundLeg(e: Event, batches: set<Word>, batchRef: Word, token: Address, recipients: seq<Address>, amounts: seq<nat>, i: nat)
    requires i < |recipients| == |amounts| && e.PayoutExecuted? && PayoutBound(e, batches)
    requires e.payoutId == LegId(batchRef, token, recipients, amounts, i)
    ensures e.payoutRef == LegRef(batchRef, i)
    ensures e.legOf == ZERO || BatchIdOf(batchRef, token) in batches
  {
    assert e.payoutId.preimage[0] == e.payoutRef && e.payoutId.preimage[1] == Num(e.token);
    if e.legOf != ZERO {
      var ref, j: nat :| IsLegOf(e, ref, j) && e.legOf in batches;
      assert LegRef(ref, j).preimage[0] == ref && LegRef(batchRef, i).preimage[0] == batchRef;
    }
  }

  /** A leg of a batch that was never executed is unused unless a single payout
      was made under that very leg reference. */
  lemma FreshLegIsUnused(tokens: Tokens, s: State, batchRef: Word, token: Address, recipients: seq<Address>, amounts: seq<nat>, i: nat)
    requires Inv(tokens, s) && i < |recipients| == |amounts| && BatchIdOf(batchRef, token) !in s.batchExecuted
    requires forall k :: 0 <= k < |s.log| && s.log[k].PayoutExecuted? && s.log[k].legOf == ZERO ==> s.log[k].payoutRef != LegRef(batchRef, i)
    ensures LegId(batchRef, token, recipients, amounts, i) !in s.payoutExecuted
  {
    forall k | 0 <= k < |s.log| && s.log[k].PayoutExecuted?
      ensures s.log[k].payoutId != LegId(batchRef, token, recipients, amounts, i)
    {
      assert PayoutBound(s.log[k], s.batchExecuted);
      if s.log[k].payoutId == LegId(batchRef, token, recipients, amounts, i) {
        BoundLeg(s.log[k], s.batchExecuted, batchRef, token, recipients, amounts, i);
      }
    }
  }

  /** In any run, a batch under a fresh reference, with nonzero recipients and
      amounts, whose leg references no single payout used, and whose sum the
      funder's balance and allowance cover, never reverts. */
  lemma CoveredFreshBatchNeverReverts(
    s0: State, calls: seq<(Address, Call)>, caller: Address, batchRef: Word, token: Address, recipients: seq<Address>, amounts: seq<nat>)
    requires Deployed(s0)
    requires var s := Run(s0, calls);
             && BatchRefusal(s, caller, batchRef, token, recipients, amounts).None?
             && (forall i :: 0 <= i < |recipients| ==> recipients[i] != 0 && amounts[i] > 0)
             && (forall i, k :: 0 <= i < |recipients| && 0 <= k < |s.log| && s.log[k].PayoutExecuted? && s.log[k].legOf == ZERO ==>
                   s.log[k].payoutRef != LegRef(batchRef, i))
             && Sum(amounts) <= Balance(s.tokens, token, s.funder)
             && Sum(amounts) <= AllowanceOf(s.tokens, token, s.funder, s.self)
    ensures PayoutBatch(Run(s0, calls), caller, batchRef, token, recipients, amounts).Ok?
  {
    var s := Run(s0, calls);
    EveryRunIsAccountedFor(s0, calls);
    forall i | 0 <= i < |recipients|
      ensures LegReady(s, batchRef, token, recipients, amounts, i)
    {
      FreshLegIsUnused(s0.tokens, s, batchRef, token, recipients, amounts, i);
    }
    CoveredSumIsFunded(s, token, recipients, amounts);
    BatchSucceedsIff(s, caller, batchRef, token, recipients, amounts);
  }
}
