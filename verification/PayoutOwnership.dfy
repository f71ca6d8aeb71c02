/** Who answers for an authorized payout, and exactly when nobody does. */
module PayoutOwnership {
  import opened Common
  import opened PayoutLedger
  import opened PayoutProtocol
  import opened PayoutSafety
  import opened PayoutTheorems

  predicate Authd(rows: Rows, id: Id) {
    id in rows && rows[id].status == Authorized
  }

  /** The task still has a write to make for this leg. */
  ghost predicate Owns(t: Task, id: Id) {
    if t.Auth? then (if t.phase.Recording? then id in t.phase.rec + t.phase.fail else id in LegIds(t.legs))
    else (t.Releasing? || t.Failing?) && id in t.pending
  }

  // ---- Invariant -----------------------------------------------------------

  /** A claiming task is still short of legs, and a single one has one id. */
  ghost predicate Tidy(t: Task) {
    && (t.BatchBalance? ==> t.job.mode.Batch? && |t.job.ids| > 0)
    && (t.Auth? ==> (t.job.mode.Single? ==> |t.job.ids| == 1) && (t.phase.Claiming? ==> |t.legs| < |t.job.ids|))
  }

  /** As long as nothing has been caught, a sent leg is recorded or still authorized
      with its record write to come. */
  ghost predicate Pledged(rows: Rows, t: Task) {
    && (t.Auth? && t.phase.Receipt? ==> forall id :: id in LegIds(t.legs) ==> Authd(rows, id))
    && (t.Auth? && t.phase.Recording? && !t.phase.caught ==>
          && t.phase.fail == {}
          && forall id :: id in LegIds(t.legs) ==>
               if id in t.phase.rec then Authd(rows, id) else id in rows && rows[id].transactionHash.Some?)
  }

  /** No two tasks have sent the same leg. */
  ghost predicate SentApart(tasks: map<TaskId, Task>) {
    forall t, u, id :: t in tasks && u in tasks && t != u && id in Sent(tasks[t]) ==> id !in Sent(tasks[u])
  }

  ghost predicate OwnInv(s: State) {
    && Inv(s) && SentApart(s.tasks)
    && forall t :: t in s.tasks ==> Tidy(s.tasks[t]) && Pledged(s.rows, s.tasks[t])
  }

  // ---- Where a step writes -------------------------------------------------

  lemma AuthWritesOwn(cfg: Config, tid: TaskId, rows: Rows, subs: seq<Submission>, t: Task, i: Input, id: Id)
    requires t.Auth? && LocalOk(rows, subs, t) && Changed(rows, AuthStep(cfg, tid, rows, t, i).rows, id) && Authd(rows, id)
    ensures id in Sent(t)
  {
    if t.phase.Recording? {
      RecordWritesOwnRow(rows, t, i, id);
    } else if !t.phase.Claiming? {
      SendWritesNoRow(cfg, tid, rows, t, i);
    }
  }

  lemma OtherWritesNothingAuthorized(rows: Rows, subs: seq<Submission>, t: Task, i: Input, id: Id)
    requires LocalOk(rows, subs, t) && Authd(rows, id) && RowOk(rows, subs, id)
    ensures t.CreateInsert? || t.CreateFind? ==> !Changed(rows, CreateStep(rows, t, i).rows, id)
    ensures t.RecRead? || t.RecChain? || t.RecWrite? ==> !Changed(rows, ReconcileStep(rows, t, i).rows, id)
    ensures t.AuthRead? || t.AuthReread? || t.BatchRead? || t.BatchBalance? ==> !Changed(rows, ReadStep(rows, t, i).rows, id)
  {
  }

  /** Only the task that holds or has sent an authorized leg writes it. */
  lemma AuthorizedIsWrittenByItsTask(cfg: Config, tid: TaskId, rows: Rows, subs: seq<Submission>, t: Task, i: Input, id: Id)
    requires LocalOk(rows, subs, t) && Authd(rows, id) && RowOk(rows, subs, id)
    requires Changed(rows, TaskStep(cfg, tid, rows, t, i).rows, id)
    ensures id in Held(t) + Sent(t)
  {
    if t.Auth? {
      AuthWritesOwn(cfg, tid, rows, subs, t, i, id);
    } else if t.Releasing? || t.Failing? {
      SettleWritesOwnRow(rows, t, i, id);
    } else {
      OtherWritesNothingAuthorized(rows, subs, t, i, id);
    }
  }

  lemma SentComesFromHeld(cfg: Config, tid: TaskId, rows: Rows, t: Task, i: Input, id: Id)
    requires id in Sent(TaskStep(cfg, tid, rows, t, i).task)
    ensures id in Sent(t) + Held(t)
  {
    if t.Auth? {
      AuthSendsHeld(cfg, tid, rows, t, i, id);
    }
  }

  lemma AuthSendsHeld(cfg: Config, tid: TaskId, rows: Rows, t: Task, i: Input, id: Id)
    requires t.Auth? && id in Sent(AuthStep(cfg, tid, rows, t, i).task)
    ensures id in Sent(t) + Held(t)
  {
  }

  // ---- Keeping it ----------------------------------------------------------

  lemma AuthIsTidy(cfg: Config, tid: TaskId, rows: Rows, t: Task, i: Input)
    requires Tidy(t) && t.Auth?
    ensures Tidy(AuthStep(cfg, tid, rows, t, i).task)
  {
  }

  lemma StepIsTidy(cfg: Config, tid: TaskId, rows: Rows, t: Task, i: Input)
    requires Tidy(t)
    ensures Tidy(TaskStep(cfg, tid, rows, t, i).task)
  {
    if t.Auth? {
      AuthIsTidy(cfg, tid, rows, t, i);
    }
  }

  lemma SendPledges(cfg: Config, tid: TaskId, rows: Rows, subs: seq<Submission>, t: Task, i: Input)
    requires t.Auth? && !t.phase.Recording? && HoldsOk(rows, subs, t) && Pledged(rows, t)
    ensures var f := AuthStep(cfg, tid, rows, t, i); Pledged(f.rows, f.task)
  {
  }

  lemma RecordPledges(rows: Rows, t: Task, i: Input)
    requires t.Auth? && t.phase.Recording? && Pledged(rows, t)
    ensures var f := RecordStep(rows, t, i); Pledged(f.rows, f.task)
  {
  }

  lemma StepPledges(cfg: Config, tid: TaskId, rows: Rows, subs: seq<Submission>, t: Task, i: Input)
    requires HoldsOk(rows, subs, t) && Pledged(rows, t)
    ensures var f := TaskStep(cfg, tid, rows, t, i); Pledged(f.rows, f.task)
  {
    if t.Auth? && t.phase.Recording? {
      RecordPledges(rows, t, i);
    } else if t.Auth? {
      SendPledges(cfg, tid, rows, subs, t, i);
    }
  }

  lemma OthersStayPledged(cfg: Config, s: State, tid: TaskId, i: Input, u: TaskId)
    requires OwnInv(s) && tid in s.tasks && u in s.tasks && u != tid
    ensures Pledged(TaskStep(cfg, tid, s.rows, s.tasks[tid], i).rows, s.tasks[u])
    ensures forall id :: id in Sent(TaskStep(cfg, tid, s.rows, s.tasks[tid], i).task) ==> id !in Sent(s.tasks[u])
  {
    var (t, v) := (s.tasks[tid], s.tasks[u]);
    var f := TaskStep(cfg, tid, s.rows, t, i);
    assert LocalOk(s.rows, s.subs, t) && HoldsOk(s.rows, s.subs, t) && HoldsOk(s.rows, s.subs, v);
    StepKeepsInv(cfg, s, tid, i);
    forall id | id in Sent(v)
      ensures Authd(s.rows, id) ==> Authd(f.rows, id)
      ensures id !in Sent(f.task)
    {
      if id in Sent(f.task) {
        SentComesFromHeld(cfg, tid, s.rows, t, i, id);
      }
      if Authd(s.rows, id) && Changed(s.rows, f.rows, id) {
        assert RowOk(s.rows, s.subs, id);
        AuthorizedIsWrittenByItsTask(cfg, tid, s.rows, s.subs, t, i, id);
      }
    }
  }

  lemma StepKeepsOwnInv(cfg: Config, s: State, tid: TaskId, i: Input)
    requires OwnInv(s) && tid in s.tasks
    ensures OwnInv(Take(s, tid, TaskStep(cfg, tid, s.rows, s.tasks[tid], i)))
  {
    var t := s.tasks[tid];
    var f := TaskStep(cfg, tid, s.rows, t, i);
    assert HoldsOk(s.rows, s.subs, t);
    StepKeepsInv(cfg, s, tid, i);
    StepIsTidy(cfg, tid, s.rows, t, i);
    StepPledges(cfg, tid, s.rows, s.subs, t, i);
    forall u | u in s.tasks && u != tid
      ensures Pledged(f.rows, s.tasks[u]) && forall id :: id in Sent(f.task) ==> id !in Sent(s.tasks[u])
    {
      OthersStayPledged(cfg, s, tid, i, u);
    }
    NewSentApart(s.tasks, tid, f.task);
  }

  lemma NewSentApart(tasks: map<TaskId, Task>, tid: TaskId, t: Task)
    requires SentApart(tasks) && forall u :: u in tasks && u != tid ==> forall id :: id in Sent(t) ==> id !in Sent(tasks[u])
    ensures SentApart(tasks[tid := t])
  {
  }

  lemma StartedIsTidy(cfg: Config, rows: Rows, e: Event)
    requires !e.Step? && Started(cfg, e).Some?
    ensures var t := Started(cfg, e).value; Tidy(t) && Pledged(rows, t) && Sent(t) == {} && forall id :: !Owns(t, id)
  {
  }

  lemma NewTaskKeepsOwnInv(s: State, tid: TaskId, t: Task)
    requires OwnInv(s) && tid !in s.tasks && Tidy(t) && Pledged(s.rows, t) && Sent(t) == {} && Inv(s.(tasks := s.tasks[tid := t]))
    ensures OwnInv(s.(tasks := s.tasks[tid := t]))
  {
    NewSentApart(s.tasks, tid, t);
  }

  lemma StartKeepsOwnInv(cfg: Config, s: State, e: Event)
    requires OwnInv(s) && !e.Step?
    ensures OwnInv(Apply(cfg, s, e))
  {
    StartEventKeepsInv(cfg, s, e);
    if e.tid !in s.tasks && Started(cfg, e).Some? {
      var t := Started(cfg, e).value;
      StartedIsTidy(cfg, s.rows, e);
      assert Apply(cfg, s, e) == s.(tasks := s.tasks[e.tid := t]);
      NewTaskKeepsOwnInv(s, e.tid, t);
    } else {
      assert Apply(cfg, s, e) == s;
    }
  }

  lemma {:induction false} RunKeepsOwnInv(cfg: Config, es: seq<Event>)
    ensures OwnInv(Reached(cfg, es))
  {
    if |es| > 0 {
      var (s, e) := (Reached(cfg, es[..|es| - 1]), es[|es| - 1]);
      RunKeepsOwnInv(cfg, es[..|es| - 1]);
      if e.Step? && e.tid in s.tasks {
        StepKeepsOwnInv(cfg, s, e.tid, e.input);
      } else if !e.Step? {
        StartKeepsOwnInv(cfg, s, e);
      }
    }
  }

  // ---- Stranding a leg -----------------------------------------------------

  /** The steps after which an authorized leg has nobody left to write it: a database
      error in the claim loop (for the legs claimed so far, and for a claim that took
      effect behind the error), an audit that throws after the claims, and a release
      or fail write, or a last record write after something was caught, that errs
      before it takes effect. */
  ghost predicate Strands(rows: Rows, t: Task, i: Input, id: Id) {
    || (t.Auth? && t.phase.Claiming? && |t.legs| < |t.job.ids| && i.Go? && !i.fault.Clean?
        && (id in LegIds(t.legs)
            || (i.fault.ErrorAfter? && id == t.job.ids[|t.legs|] && id in rows && rows[id].status == Prepared)))
    || (t.Auth? && t.phase.Auditing? && i.Throw? && id in LegIds(t.legs))
    || (t.Auth? && t.phase.Recording? && t.phase.caught && Authd(rows, id)
        && ((i == LegWrite(id, ErrorBefore) && id in t.phase.rec - t.phase.fail)
            || (i == FailWrite(id, ErrorBefore) && id in t.phase.fail - t.phase.rec)))
    || (t.Releasing? && i == LegWrite(id, ErrorBefore) && id in t.pending)
    || (t.Failing? && i == FailWrite(id, ErrorBefore) && id in t.pending && Authd(rows, id))
  }

  /** What one task step does to the ownership of one leg. */
  ghost predicate Hands(rows: Rows, t: Task, i: Input, f: Effect, id: Id) {
    && (Authd(rows, id) && !Owns(t, id) ==> Authd(f.rows, id) && !Owns(f.task, id))
    && (Authd(rows, id) && !Owns(t, id) ==> !Strands(rows, t, i, id))
    && (Owns(t, id) || !Authd(rows, id) ==>
          (Authd(f.rows, id) && !Owns(f.task, id) <==> Strands(rows, t, i, id)))
  }

  lemma ClaimHands(rows: Rows, subs: seq<Submission>, t: Task, i: Input, id: Id)
    requires t.Auth? && t.phase.Claiming? && |t.legs| < |t.job.ids| && Tidy(t) && LocalOk(rows, subs, t) && HoldsOk(rows, subs, t)
    ensures Hands(rows, t, i, ClaimStep(rows, t, i), id)
  {
    var f := ClaimStep(rows, t, i);
    if f.task.Auth? && f.task != t {
      assert LegIds(f.task.legs) == LegIds(t.legs) + [t.job.ids[|t.legs|]];
    }
  }

  lemma SendHands(cfg: Config, tid: TaskId, rows: Rows, subs: seq<Submission>, t: Task, i: Input, id: Id)
    requires t.Auth? && !t.phase.Claiming? && !t.phase.Recording? && LocalOk(rows, subs, t) && HoldsOk(rows, subs, t) && Pledged(rows, t)
    ensures Hands(rows, t, i, AuthStep(cfg, tid, rows, t, i), id)
  {
  }

  lemma RecordHands(rows: Rows, subs: seq<Submission>, t: Task, i: Input, id: Id)
    requires t.Auth? && t.phase.Recording? && LocalOk(rows, subs, t) && Pledged(rows, t) && (id in rows ==> RowOk(rows, subs, id))
    ensures Hands(rows, t, i, RecordStep(rows, t, i), id)
  {
    if i.LegWrite? && i.id in t.phase.rec {
      RecordWriteHands(rows, subs, t, i, id);
    } else if i.FailWrite? && i.id in t.phase.fail {
      FailWriteHands(rows, subs, t, i, id);
    } else {
      CatchHands(rows, subs, t, i, id);
    }
  }

  lemma RecordWriteHands(rows: Rows, subs: seq<Submission>, t: Task, i: Input, id: Id)
    requires t.Auth? && t.phase.Recording? && LocalOk(rows, subs, t) && Pledged(rows, t) && (id in rows ==> RowOk(rows, subs, id))
    requires i.LegWrite? && i.id in t.phase.rec
    ensures Hands(rows, t, i, RecordStep(rows, t, i), id)
  {
  }

  lemma FailWriteHands(rows: Rows, subs: seq<Submission>, t: Task, i: Input, id: Id)
    requires t.Auth? && t.phase.Recording? && LocalOk(rows, subs, t) && Pledged(rows, t) && (id in rows ==> RowOk(rows, subs, id))
    requires i.FailWrite? && i.id in t.phase.fail
    ensures Hands(rows, t, i, RecordStep(rows, t, i), id)
  {
  }

  lemma CatchHands(rows: Rows, subs: seq<Submission>, t: Task, i: Input, id: Id)
    requires t.Auth? && t.phase.Recording? && LocalOk(rows, subs, t) && Pledged(rows, t) && (id in rows ==> RowOk(rows, subs, id))
    requires !(i.LegWrite? && i.id in t.phase.rec) && !(i.FailWrite? && i.id in t.phase.fail)
    ensures Hands(rows, t, i, RecordStep(rows, t, i), id)
  {
  }

  lemma SettleHands(rows: Rows, subs: seq<Submission>, t: Task, i: Input, id: Id)
    requires (t.Releasing? || t.Failing?) && HoldsOk(rows, subs, t)
    ensures Hands(rows, t, i, SettleStep(rows, t, i), id)
  {
  }

  lemma ReconcileHands(rows: Rows, subs: seq<Submission>, t: Task, i: Input, id: Id)
    requires (t.RecRead? || t.RecChain? || t.RecWrite?) && LocalOk(rows, subs, t) && (id in rows ==> RowOk(rows, subs, id))
    ensures Hands(rows, t, i, ReconcileStep(rows, t, i), id)
  {
  }

  lemma ReadHands(rows: Rows, t: Task, i: Input, id: Id)
    requires t.AuthRead? || t.AuthReread? || t.BatchRead? || t.BatchBalance?
    ensures Hands(rows, t, i, ReadStep(rows, t, i), id)
  {
  }

  lemma OtherHands(cfg: Config, tid: TaskId, rows: Rows, subs: seq<Submission>, t: Task, i: Input, id: Id)
    requires !t.Auth? && !t.Releasing? && !t.Failing? && LocalOk(rows, subs, t) && (id in rows ==> RowOk(rows, subs, id))
    ensures Hands(rows, t, i, TaskStep(cfg, tid, rows, t, i), id)
  {
    if t.RecRead? || t.RecChain? || t.RecWrite? {
      ReconcileHands(rows, subs, t, i, id);
    } else if t.AuthRead? || t.AuthReread? || t.BatchRead? || t.BatchBalance? {
      ReadHands(rows, t, i, id);
    }
  }

  lemma StepHands(cfg: Config, s: State, tid: TaskId, i: Input, id: Id)
    requires OwnInv(s) && tid in s.tasks
    ensures Hands(s.rows, s.tasks[tid], i, TaskStep(cfg, tid, s.rows, s.tasks[tid], i), id)
  {
    var t := s.tasks[tid];
    assert LocalOk(s.rows, s.subs, t) && HoldsOk(s.rows, s.subs, t) && Tidy(t) && Pledged(s.rows, t);
    assert id in s.rows ==> RowOk(s.rows, s.subs, id);
    if t.Auth? && t.phase.Claiming? {
      ClaimHands(s.rows, s.subs, t, i, id);
    } else if t.Auth? && t.phase.Recording? {
      RecordHands(s.rows, s.subs, t, i, id);
    } else if t.Auth? {
      SendHands(cfg, tid, s.rows, s.subs, t, i, id);
    } else if t.Releasing? || t.Failing? {
      SettleHands(s.rows, s.subs, t, i, id);
    } else {
      OtherHands(cfg, tid, s.rows, s.subs, t, i, id);
    }
  }

  // ---- Over runs -----------------------------------------------------------

  ghost predicate Owned(tasks: map<TaskId, Task>, id: Id) {
    exists t :: t in tasks && Owns(tasks[t], id)
  }

  /** Authorized, with no request left that would ever move it. */
  ghost predicate Stranded(s: State, id: Id) {
    Authd(s.rows, id) && !Owned(s.tasks, id)
  }

  ghost predicate EventStrands(s: State, e: Event, id: Id) {
    e.Step? && e.tid in s.tasks && Strands(s.rows, s.tasks[e.tid], e.input, id)
  }

  lemma OwnersAreAlone(s: State, t: TaskId, u: TaskId, id: Id)
    requires OwnInv(s) && t in s.tasks && u in s.tasks && Owns(s.tasks[t], id) && Owns(s.tasks[u], id)
    ensures t == u && id in s.rows && s.rows[id].status != Prepared
  {
    OwnerHoldsOrSent(s, t, id);
    OwnerHoldsOrSent(s, u, id);
  }

  lemma OwnerHoldsOrSent(s: State, t: TaskId, id: Id)
    requires OwnInv(s) && t in s.tasks && Owns(s.tasks[t], id)
    ensures id in Held(s.tasks[t]) + Sent(s.tasks[t])
    ensures id in s.rows && s.rows[id].status != Prepared
  {
    assert LocalOk(s.rows, s.subs, s.tasks[t]) && HoldsOk(s.rows, s.subs, s.tasks[t]);
    assert id in Held(s.tasks[t]) + Sent(s.tasks[t]);
    assert RowOk(s.rows, s.subs, id);
  }

  lemma StepStrandsIff(cfg: Config, s: State, tid: TaskId, i: Input, id: Id)
    requires OwnInv(s) && tid in s.tasks
    ensures Stranded(Apply(cfg, s, Step(tid, i)), id) <==> Stranded(s, id) || Strands(s.rows, s.tasks[tid], i, id)
  {
    var t := s.tasks[tid];
    var f := TaskStep(cfg, tid, s.rows, t, i);
    StepHands(cfg, s, tid, i, id);
    OwnedAfter(s.tasks, tid, f.task, id);
    assert Apply(cfg, s, Step(tid, i)) == Take(s, tid, f);
    if u :| u in s.tasks && u != tid && Owns(s.tasks[u], id) {
      OwnersAreAlone(s, u, u, id);
      if Owns(t, id) {
        OwnersAreAlone(s, u, tid, id);
      }
      OwnedElsewhere(s, tid, u, i, id);
    }
  }

  lemma OwnedAfter(tasks: map<TaskId, Task>, tid: TaskId, t: Task, id: Id)
    requires tid in tasks
    ensures Owned(tasks[tid := t], id) <==> Owns(t, id) || exists u :: u in tasks && u != tid && Owns(tasks[u], id)
    ensures Owned(tasks, id) <==> Owns(tasks[tid], id) || exists u :: u in tasks && u != tid && Owns(tasks[u], id)
  {
    var tasks' := tasks[tid := t];
    assert tasks'[tid] == t && forall u :: u in tasks && u != tid ==> tasks'[u] == tasks[u];
    if u :| u in tasks && u != tid && Owns(tasks[u], id) {
      assert Owns(tasks'[u], id);
    }
  }

  /** A leg another task owns is not one this task can strand. */
  lemma OwnedElsewhere(s: State, tid: TaskId, u: TaskId, i: Input, id: Id)
    requires OwnInv(s) && tid in s.tasks && u in s.tasks && u != tid && Owns(s.tasks[u], id) && !Owns(s.tasks[tid], id)
    ensures !Strands(s.rows, s.tasks[tid], i, id)
  {
    OwnersAreAlone(s, u, u, id);
  }

  ghost predicate Struck(cfg: Config, es: seq<Event>, id: Id) {
    exists n :: 0 <= n < |es| && StruckAt(cfg, es, id, n)
  }

  ghost predicate StruckAt(cfg: Config, es: seq<Event>, id: Id, n: nat)
    requires n < |es|
  {
    EventStrands(Reached(cfg, es[..n]), es[n], id)
  }

  lemma StruckSplit(cfg: Config, es: seq<Event>, id: Id)
    requires |es| > 0
    ensures Struck(cfg, es, id) <==> Struck(cfg, es[..|es| - 1], id) || StruckAt(cfg, es, id, |es| - 1)
  {
    var b := es[..|es| - 1];
    forall n | 0 <= n < |b|
      ensures StruckAt(cfg, b, id, n) <==> StruckAt(cfg, es, id, n)
    {
      assert b[..n] == es[..n];
    }
  }

  /** In every interleaving, an authorized payout has a request that still answers for
      it, except exactly when one of the stranding events has struck it; and then it
      stays authorized for good. */
  lemma {:induction false} StrandedIff(cfg: Config, es: seq<Event>, id: Id)
    ensures Stranded(Reached(cfg, es), id) <==> Struck(cfg, es, id)
  {
    if |es| > 0 {
      var (s, e) := (Reached(cfg, es[..|es| - 1]), es[|es| - 1]);
      StrandedIff(cfg, es[..|es| - 1], id);
      StruckSplit(cfg, es, id);
      RunKeepsOwnInv(cfg, es[..|es| - 1]);
      if e.Step? && e.tid in s.tasks {
        StepStrandsIff(cfg, s, e.tid, e.input, id);
      } else {
        OwnersUnmoved(cfg, s, e, id);
      }
    }
  }

  lemma OwnersUnmoved(cfg: Config, s: State, e: Event, id: Id)
    requires !(e.Step? && e.tid in s.tasks)
    ensures Stranded(Apply(cfg, s, e), id) <==> Stranded(s, id)
  {
    var s' := Apply(cfg, s, e);
    if !e.Step? && e.tid !in s.tasks && Started(cfg, e).Some? {
      StartedIsTidy(cfg, s.rows, e);
      assert s'.tasks == s.tasks[e.tid := Started(cfg, e).value];
      assert forall t :: t in s.tasks ==> s'.tasks[t] == s.tasks[t];
    }
  }

  /** No statement fails, and no audit throws after a claim. */
  ghost predicate Smooth(s: State, e: Event) {
    e.Step? ==>
      && (e.input.Go? || e.input.LegWrite? || e.input.FailWrite? ==> e.input.fault.Clean?)
      && (e.tid in s.tasks && s.tasks[e.tid].Auth? && s.tasks[e.tid].phase.Auditing? ==> !e.input.Throw?)
  }

  /** Batches are all-or-nothing in smooth runs: no leg is left behind authorized. Every
      authorized payout still has its request at work, so once no request has a leg
      to write every payout is prepared, broadcasted, confirmed or failed. */
  lemma SmoothRunsLeaveNothingBehind(cfg: Config, es: seq<Event>, id: Id)
    requires forall n :: 0 <= n < |es| ==> Smooth(Reached(cfg, es[..n]), es[n])
    ensures var s := Reached(cfg, es); Authd(s.rows, id) ==> Owned(s.tasks, id)
  {
    StrandedIff(cfg, es, id);
    forall n | 0 <= n < |es|
      ensures !StruckAt(cfg, es, id, n)
    {
      assert Smooth(Reached(cfg, es[..n]), es[n]);
    }
  }
}
