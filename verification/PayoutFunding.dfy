/** The treasury and allowance checks before the network: what each decides, and that
    every transaction has passed them. */
module PayoutFunding {
  import opened Common
  import opened PayoutLedger
  import opened PayoutProtocol
  import opened PayoutSafety
  import opened PayoutTheorems
  import opened PayoutOwnership

  // ---- One check -----------------------------------------------------------

  /** The legs a task holds, as its rows have them: whole job, one asset. */
  lemma LegsAreRows(cfg: Config, es: seq<Event>, tid: TaskId)
    requires var s := Reached(cfg, es); tid in s.tasks && s.tasks[tid].Auth? && !s.tasks[tid].phase.Claiming?
    ensures var (s, t) := (Reached(cfg, es), Reached(cfg, es).tasks[tid]);
            && LegIds(t.legs) == t.job.ids && |t.legs| == |t.job.ids| > 0
            && (forall k :: 0 <= k < |t.job.ids| ==> t.job.ids[k] in s.rows && t.legs[k].rec.fixed == s.rows[t.job.ids[k]].fixed)
            && LegAmounts(t.legs) == AmountsOf(s.rows, t.job.ids) && t.job.total == Sum(AmountsOf(s.rows, t.job.ids))
            && (t.job.mode.Single? ==> |t.job.ids| == 1)
  {
    RunKeepsOwnInv(cfg, es);
    var (s, t) := (Reached(cfg, es), Reached(cfg, es).tasks[tid]);
    assert LocalOk(s.rows, s.subs, t) && Tidy(t);
    LegIdsAreJobIds(s.rows, t.job, t.legs);
  }

  /** Told what the treasury holds, a single authorization goes on exactly when that is at
      least the stored amount of its payout; below it, and only then, it turns to
      releasing the payout as a conflict. */
  lemma TreasuryBalanceDecides(cfg: Config, es: seq<Event>, tid: TaskId, held: nat, now: Time)
    requires var s := Reached(cfg, es); tid in s.tasks && s.tasks[tid].Auth? && s.tasks[tid].phase.Balance? && s.tasks[tid].job.mode.Single?
    ensures var (s, t) := (Reached(cfg, es), Reached(cfg, es).tasks[tid]);
            && |t.job.ids| == 1 && t.job.ids[0] in s.rows
            && var (id, s') := (t.job.ids[0], Apply(cfg, s, Step(tid, Amount(held, now))));
            && s'.rows == s.rows && s'.subs == s.subs
            && (held >= s.rows[id].fixed.amountAtomic <==>
                  s'.tasks[tid] == t.(phase := if cfg.vaultConfigured then Allowance else Writing))
            && (held < s.rows[id].fixed.amountAtomic <==>
                  s'.tasks[tid].Releasing? && s'.tasks[tid].pending == {id} && s'.tasks[tid].reason.Some?)
  {
    LegsAreRows(cfg, es, tid);
    var (s, t) := (Reached(cfg, es), Reached(cfg, es).tasks[tid]);
    assert LegIds(t.legs) == [t.job.ids[0]];
  }

  /** Told what the vault may draw, an authorization goes on to the network exactly when
      that covers all its legs; otherwise it turns to releasing every one of them. */
  lemma AllowanceDecides(cfg: Config, es: seq<Event>, tid: TaskId, allowed: nat, now: Time)
    requires var s := Reached(cfg, es); tid in s.tasks && s.tasks[tid].Auth? && s.tasks[tid].phase.Allowance?
    ensures var (s, t) := (Reached(cfg, es), Reached(cfg, es).tasks[tid]);
            && (forall k :: 0 <= k < |t.job.ids| ==> t.job.ids[k] in s.rows)
            && var (need, s') := (Sum(AmountsOf(s.rows, t.job.ids)), Apply(cfg, s, Step(tid, Amount(allowed, now))));
            && s'.rows == s.rows && s'.subs == s.subs
            && (allowed >= need <==> s'.tasks[tid] == t.(phase := Writing))
            && (allowed < need <==>
                  s'.tasks[tid].Releasing? && s'.tasks[tid].pending == Elems(t.job.ids) && s'.tasks[tid].reason.Some?)
  {
    LegsAreRows(cfg, es, tid);
  }

  /** Told what the treasury holds, a batch starts claiming exactly when that covers the
      sum of the stored amounts of all its payouts; otherwise it ends, with nothing claimed. */
  lemma BatchBalanceDecides(cfg: Config, es: seq<Event>, tid: TaskId, held: nat, now: Time)
    requires var s := Reached(cfg, es); tid in s.tasks && s.tasks[tid].BatchBalance?
    ensures var (s, t) := (Reached(cfg, es), Reached(cfg, es).tasks[tid]);
            var s' := Apply(cfg, s, Step(tid, Amount(held, now)));
            && (forall k :: 0 <= k < |t.job.ids| ==> t.job.ids[k] in s.rows)
            && s'.rows == s.rows && s'.subs == s.subs
            && (held >= Sum(AmountsOf(s.rows, t.job.ids)) <==> s'.tasks[tid] == Auth(t.job.(now := now), [], Claiming))
            && (held < Sum(AmountsOf(s.rows, t.job.ids)) <==> s'.tasks[tid] == Done)
  {
    ReachedInv(cfg, es);
    var s := Reached(cfg, es);
    assert LocalOk(s.rows, s.subs, s.tasks[tid]);
  }

  // ---- Over runs -----------------------------------------------------------

  /** The task was told of a treasury balance of at least `need` before it went on. */
  ghost predicate ToldBalanceAt(cfg: Config, es: seq<Event>, tid: TaskId, need: nat, n: nat)
    requires n < |es|
  {
    var s := Reached(cfg, es[..n]);
    && es[n].Step? && es[n].tid == tid && es[n].input.Amount? && es[n].input.amount >= need
    && tid in s.tasks && (s.tasks[tid].BatchBalance? || (s.tasks[tid].Auth? && s.tasks[tid].phase.Balance?))
  }

  ghost predicate ToldAllowanceAt(cfg: Config, es: seq<Event>, tid: TaskId, need: nat, n: nat)
    requires n < |es|
  {
    var s := Reached(cfg, es[..n]);
    && es[n].Step? && es[n].tid == tid && es[n].input.Amount? && es[n].input.amount >= need
    && tid in s.tasks && s.tasks[tid].Auth? && s.tasks[tid].phase.Allowance?
  }

  ghost predicate ToldBalance(cfg: Config, es: seq<Event>, tid: TaskId, need: nat) {
    exists n :: 0 <= n < |es| && ToldBalanceAt(cfg, es, tid, need, n)
  }

  ghost predicate ToldAllowance(cfg: Config, es: seq<Event>, tid: TaskId, need: nat) {
    exists n :: 0 <= n < |es| && ToldAllowanceAt(cfg, es, tid, need, n)
  }

  lemma ToldLater(cfg: Config, es: seq<Event>, tid: TaskId, need: nat)
    requires |es| > 0
    ensures ToldBalance(cfg, es[..|es| - 1], tid, need) ==> ToldBalance(cfg, es, tid, need)
    ensures ToldAllowance(cfg, es[..|es| - 1], tid, need) ==> ToldAllowance(cfg, es, tid, need)
  {
    var b := es[..|es| - 1];
    forall n | 0 <= n < |b|
      ensures ToldBalanceAt(cfg, b, tid, need, n) ==> ToldBalanceAt(cfg, es, tid, need, n)
      ensures ToldAllowanceAt(cfg, b, tid, need, n) ==> ToldAllowanceAt(cfg, es, tid, need, n)
    {
      assert b[..n] == es[..n] && b[n] == es[n];
    }
  }

  /** The checks a task has behind it. */
  predicate PastBalance(t: Task) {
    t.Auth? && (t.job.mode.Batch? || !(t.phase.Claiming? || t.phase.Auditing? || t.phase.Balance?))
  }

  predicate PastAllowance(cfg: Config, t: Task) {
    t.Auth? && cfg.vaultConfigured && (t.phase.Writing? || t.phase.Receipt? || t.phase.Recording?)
  }

  ghost predicate Funded(cfg: Config, es: seq<Event>, tid: TaskId, t: Task) {
    && (PastBalance(t) ==> ToldBalance(cfg, es, tid, t.job.total))
    && (PastAllowance(cfg, t) ==> ToldAllowance(cfg, es, tid, t.job.total))
  }

  /** A task gets past a check only by being told enough. */
  lemma AuthPasses(cfg: Config, tid: TaskId, rows: Rows, subs: seq<Submission>, t: Task, i: Input)
    requires t.Auth? && LocalOk(rows, subs, t) && Tidy(t)
    ensures var f := AuthStep(cfg, tid, rows, t, i);
            f.task.Auth? ==>
              && f.task.job == t.job
              && (PastBalance(f.task) && !PastBalance(t) ==> t.phase.Balance? && i.Amount? && i.amount >= t.job.total)
              && (PastAllowance(cfg, f.task) && !PastAllowance(cfg, t) ==> t.phase.Allowance? && i.Amount? && i.amount >= t.job.total)
  {
    AuthKeepsJob(cfg, tid, rows, t, i);
    if t.phase.Balance? || t.phase.Allowance? {
      CheckPasses(cfg, tid, rows, subs, t, i);
    }
  }

  lemma CheckPasses(cfg: Config, tid: TaskId, rows: Rows, subs: seq<Submission>, t: Task, i: Input)
    requires t.Auth? && LocalOk(rows, subs, t) && Tidy(t) && (t.phase.Balance? || t.phase.Allowance?)
    ensures var f := SendStep(cfg, tid, rows, t, i);
            f.task.Auth? ==>
              && (t.phase.Balance? && t.job.mode.Single? && f.task != t ==> i.Amount? && i.amount >= t.job.total)
              && (t.phase.Allowance? && f.task != t ==> i.Amount? && i.amount >= t.job.total)
  {
    LegIdsAreJobIds(rows, t.job, t.legs);
    if t.job.mode.Single? {
      var amounts := AmountsOf(rows, t.job.ids);
      assert amounts[..0] == [] && Sum(amounts) == amounts[0];
    }
  }

  lemma OtherPasses(cfg: Config, tid: TaskId, rows: Rows, t: Task, i: Input)
    requires !t.Auth?
    ensures var f := TaskStep(cfg, tid, rows, t, i);
            f.task.Auth? ==>
              && !PastAllowance(cfg, f.task)
              && (PastBalance(f.task) ==> t.BatchBalance? && i.Amount? && i.amount >= f.task.job.total)
  {
  }

  lemma {:induction false} TasksAreFunded(cfg: Config, es: seq<Event>, tid: TaskId)
    requires tid in Reached(cfg, es).tasks
    ensures Funded(cfg, es, tid, Reached(cfg, es).tasks[tid])
  {
    if |es| > 0 {
      var (b, e) := (es[..|es| - 1], es[|es| - 1]);
      var (s, t') := (Reached(cfg, b), Reached(cfg, es).tasks[tid]);
      if tid in s.tasks {
        TasksAreFunded(cfg, b, tid);
        if t'.Auth? {
          ToldLater(cfg, es, tid, t'.job.total);
        }
        if e.Step? && e.tid == tid {
          StepIsFunded(cfg, es, tid);
        }
      } else {
        assert !t'.Auth?;
      }
    }
  }

  lemma StepIsFunded(cfg: Config, es: seq<Event>, tid: TaskId)
    requires |es| > 0 && es[|es| - 1].Step? && es[|es| - 1].tid == tid && tid in Reached(cfg, es[..|es| - 1]).tasks
    requires Funded(cfg, es[..|es| - 1], tid, Reached(cfg, es[..|es| - 1]).tasks[tid])
    ensures Funded(cfg, es, tid, Reached(cfg, es).tasks[tid])
  {
    var (b, i) := (es[..|es| - 1], es[|es| - 1].input);
    var s := Reached(cfg, b);
    var (t, t') := (s.tasks[tid], Reached(cfg, es).tasks[tid]);
    if t'.Auth? {
      ToldLater(cfg, es, tid, t'.job.total);
      RunKeepsOwnInv(cfg, b);
      assert LocalOk(s.rows, s.subs, t) && Tidy(t);
      var n := |es| - 1;
      if t.Auth? {
        AuthPasses(cfg, tid, s.rows, s.subs, t, i);
        assert t.phase.Balance? && i.Amount? && i.amount >= t.job.total ==> ToldBalanceAt(cfg, es, tid, t'.job.total, n);
        assert t.phase.Allowance? && i.Amount? && i.amount >= t.job.total ==> ToldAllowanceAt(cfg, es, tid, t'.job.total, n);
      } else {
        OtherPasses(cfg, tid, s.rows, t, i);
        assert t.BatchBalance? && i.Amount? && i.amount >= t'.job.total ==> ToldBalanceAt(cfg, es, tid, t'.job.total, n);
      }
    }
  }

  ghost predicate Covered(cfg: Config, es: seq<Event>, tid: TaskId, need: nat) {
    ToldBalance(cfg, es, tid, need) && (cfg.vaultConfigured ==> ToldAllowance(cfg, es, tid, need))
  }

  lemma NewSubmissionIsFunded(cfg: Config, es: seq<Event>, tid: TaskId, i: Input, k: nat)
    requires var s := Reached(cfg, es); tid in s.tasks && k < |TaskStep(cfg, tid, s.rows, s.tasks[tid], i).sent|
    ensures var s := Reached(cfg, es);
            var sub := TaskStep(cfg, tid, s.rows, s.tasks[tid], i).sent[k];
            sub.task == tid && Covered(cfg, es, tid, sub.job.total)
  {
    var s := Reached(cfg, es);
    OnlyAuthSends(cfg, tid, s.rows, s.tasks[tid], i);
    OnlyWritingSends(cfg, tid, s.rows, s.tasks[tid], i);
    TasksAreFunded(cfg, es, tid);
  }

  lemma {:induction false} SubmissionsAreFunded(cfg: Config, es: seq<Event>, k: nat)
    requires k < |Reached(cfg, es).subs|
    ensures var sub := Reached(cfg, es).subs[k]; Covered(cfg, es, sub.task, sub.job.total)
  {
    if |es| > 0 {
      var (b, e) := (es[..|es| - 1], es[|es| - 1]);
      var (s, sub) := (Reached(cfg, b), Reached(cfg, es).subs[k]);
      NewSubmission(cfg, s, e, k);
      if k < |s.subs| {
        SubmissionsAreFunded(cfg, b, k);
      } else {
        NewSubmissionIsFunded(cfg, b, e.tid, e.input, k - |s.subs|);
      }
      assert Covered(cfg, b, sub.task, sub.job.total);
      ToldLater(cfg, es, sub.task, sub.job.total);
    }
  }

  /** Every transaction was preceded, in its own request, by a report that the treasury
      holds at least what it pays, and through the vault by a report that the
      allowance covers it. */
  lemma EverySubmissionWasCovered(cfg: Config, es: seq<Event>, k: nat)
    requires k < |Reached(cfg, es).subs|
    ensures var sub := Reached(cfg, es).subs[k];
            && ToldBalance(cfg, es, sub.task, Sum(sub.amounts))
            && (cfg.vaultConfigured ==> ToldAllowance(cfg, es, sub.task, Sum(sub.amounts)))
  {
    SubmissionsAreFunded(cfg, es, k);
    SubmissionIsTheWholeRequest(cfg, es, k);
  }
}
