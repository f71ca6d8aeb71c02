/** What single decisions of the payout requests mean, in terms of rows and answers. */
module PayoutMeaning {
  import opened Common
  import opened PayoutLedger
  import opened PayoutProtocol
  import opened PayoutSafety
  import opened PayoutTheorems
  import opened PayoutOwnership

  // ---- Creation ------------------------------------------------------------

  /** createPayout starts exactly for a positive amount within the asset's maximum. */
  lemma CreationStartsIff(cfg: Config, s: State, tid: TaskId, fixed: Fixed, execute: bool)
    requires tid !in s.tasks
    ensures var s' := Apply(cfg, s, StartCreate(tid, fixed, execute));
            && (tid in s'.tasks <==> fixed.amountAtomic > 0 && (fixed.asset in cfg.maxPayout ==> fixed.amountAtomic <= cfg.maxPayout[fixed.asset]))
            && (tid in s'.tasks ==> s'.tasks[tid] == CreateInsert(fixed, execute))
            && s'.rows == s.rows && s'.subs == s.subs
  {
  }

  /** A batch starts exactly when a vault is configured and some payout is named. */
  lemma BatchStartsIff(cfg: Config, s: State, tid: TaskId, ids: seq<Id>, ctx: Option<string>)
    requires tid !in s.tasks
    ensures var s' := Apply(cfg, s, StartBatch(tid, ids, ctx));
            && (tid in s'.tasks <==> cfg.vaultConfigured && |ids| > 0)
            && (tid in s'.tasks ==> s'.tasks[tid] == BatchRead(ids, Dedup(ids), ctx, map[]))
  {
  }

  predicate WithinLimits(cfg: Config, fixed: Fixed) {
    fixed.amountAtomic > 0 && (fixed.asset in cfg.maxPayout ==> fixed.amountAtomic <= cfg.maxPayout[fixed.asset])
  }

  ghost predicate Limited(cfg: Config, s: State) {
    && (forall id :: id in s.rows ==> WithinLimits(cfg, s.rows[id].fixed))
    && (forall t :: t in s.tasks && s.tasks[t].CreateInsert? ==> WithinLimits(cfg, s.tasks[t].fixed))
  }

  lemma StepStaysLimited(cfg: Config, tid: TaskId, rows: Rows, t: Task, i: Input, id: Id)
    requires t.CreateInsert? ==> WithinLimits(cfg, t.fixed)
    requires Evolves(rows, TaskStep(cfg, tid, rows, t, i).rows) && (id in rows ==> WithinLimits(cfg, rows[id].fixed))
    ensures var f := TaskStep(cfg, tid, rows, t, i);
            && (id in f.rows ==> WithinLimits(cfg, f.rows[id].fixed))
            && (f.task.CreateInsert? ==> f.task == t)
  {
    if t.Auth? {
      AuthKeepsJob(cfg, tid, rows, t, i);
    }
    if !t.CreateInsert? {
      OnlyCreateAddsRows(cfg, tid, rows, t, i);
    }
  }

  lemma {:induction false} RunsStayLimited(cfg: Config, es: seq<Event>)
    ensures Limited(cfg, Reached(cfg, es))
  {
    if |es| > 0 {
      var (s, e) := (Reached(cfg, es[..|es| - 1]), es[|es| - 1]);
      RunsStayLimited(cfg, es[..|es| - 1]);
      if e.Step? && e.tid in s.tasks {
        LastEventEvolves(cfg, es);
        forall id
          ensures id in Reached(cfg, es).rows ==> WithinLimits(cfg, Reached(cfg, es).rows[id].fixed)
        {
          StepStaysLimited(cfg, e.tid, s.rows, s.tasks[e.tid], e.input, id);
        }
        StepStaysLimited(cfg, e.tid, s.rows, s.tasks[e.tid], e.input, 0);
      }
    }
  }

  /** Every stored payout has a positive amount within the configured maximum. */
  lemma StoredPayoutsAreWithinLimits(cfg: Config, es: seq<Event>, id: Id)
    requires id in Reached(cfg, es).rows
    ensures var fixed := Reached(cfg, es).rows[id].fixed;
            fixed.amountAtomic > 0 && (fixed.asset in cfg.maxPayout ==> fixed.amountAtomic <= cfg.maxPayout[fixed.asset])
  {
    RunsStayLimited(cfg, es);
  }

  /** An insert stores the record exactly when its client has no payout under that
      external id; with immediate execution, and only then, an authorization follows. */
  lemma InsertStoresIff(cfg: Config, s: State, tid: TaskId, id: Id)
    requires tid in s.tasks && s.tasks[tid].CreateInsert? && id !in s.rows
    ensures var (t, s') := (s.tasks[tid], Apply(cfg, s, Step(tid, NewId(id, Clean))));
            && (id in s'.rows <==> forall k :: k in s.rows && t.fixed.clientId.Some? ==>
                  !(s.rows[k].fixed.clientId == t.fixed.clientId && s.rows[k].fixed.externalId == t.fixed.externalId))
            && (id in s'.rows ==>
                  && s'.rows == s.rows[id := Payout(t.fixed, Prepared, None, None, None, None, None)]
                  && (t.execute <==> s'.tasks[tid] == AuthRead(id, t.fixed.clientId)))
            && (id !in s'.rows ==> s'.rows == s.rows)
  {
  }

  // ---- Who may act on what -------------------------------------------------

  /** The row is there, and belongs to the client the request is limited to, if any. */
  predicate Belongs(rows: Rows, id: Id, ctx: Option<string>) {
    id in rows && (ctx == None || rows[id].fixed.clientId == ctx)
  }

  /** A single authorization goes on to its claim exactly for a payout of its client that
      is neither broadcasted nor confirmed. */
  lemma AuthorizationGoesOnIff(cfg: Config, s: State, tid: TaskId, now: Time)
    requires tid in s.tasks && s.tasks[tid].AuthRead?
    ensures var (t, s') := (s.tasks[tid], Apply(cfg, s, Step(tid, Go(Clean, now))));
            && (s'.tasks[tid].Auth? <==> Belongs(s.rows, t.id, t.ctx) && s.rows[t.id].status != Broadcasted && s.rows[t.id].status != Confirmed)
            && (s'.tasks[tid].Auth? ==> s'.tasks[tid].job.ids == [t.id] && s'.tasks[tid].job.now == now && s'.tasks[tid].phase.Claiming?)
            && s'.rows == s.rows && s'.subs == s.subs
  {
  }

  /** A reconcile asks the chain exactly for a payout of its client that has a hash. */
  lemma ReconcileAsksIff(cfg: Config, s: State, tid: TaskId, i: Input)
    requires tid in s.tasks && s.tasks[tid].RecRead?
    ensures var (t, s') := (s.tasks[tid], Apply(cfg, s, Step(tid, i)));
            && (s'.tasks[tid].RecChain? <==> Belongs(s.rows, t.id, t.ctx) && s.rows[t.id].transactionHash.Some?)
            && (s'.tasks[tid].RecChain? ==> s'.tasks[tid] == RecChain(t.id, s.rows[t.id]))
            && s'.rows == s.rows && s'.subs == s.subs
  {
  }

  /** A batch that has read its last leg goes on to the treasury exactly when that leg
      belongs to its client, and all legs are prepared and of one asset. */
  lemma BatchGoesOnIff(cfg: Config, s: State, tid: TaskId, id: Id)
    requires tid in s.tasks && s.tasks[tid].BatchRead? && id in s.tasks[tid].ids
    requires forall k :: 0 <= k < |s.tasks[tid].ids| && s.tasks[tid].ids[k] != id ==> s.tasks[tid].ids[k] in s.tasks[tid].got
    ensures var (t, s') := (s.tasks[tid], Apply(cfg, s, Step(tid, ReadLeg(id))));
            && (s'.tasks[tid].BatchBalance? <==>
                  && Belongs(s.rows, id, t.ctx)
                  && var got := t.got[id := s.rows[id]];
                     forall k :: 0 <= k < |t.ids| ==> got[t.ids[k]].status == Prepared && got[t.ids[k]].fixed.asset == got[t.ids[0]].fixed.asset)
            && (!s'.tasks[tid].BatchBalance? ==> s'.tasks[tid] == Done)
            && s'.rows == s.rows && s'.subs == s.subs
  {
  }

  /** An authorization and a reconcile start for the payout and the client asked for. */
  lemma RequestsStartAsAsked(cfg: Config, s: State, tid: TaskId, id: Id, ctx: Option<string>)
    requires tid !in s.tasks
    ensures Apply(cfg, s, StartAuthorize(tid, id, ctx)) == s.(tasks := s.tasks[tid := AuthRead(id, ctx)])
    ensures Apply(cfg, s, StartReconcile(tid, id, ctx)) == s.(tasks := s.tasks[tid := RecRead(id, ctx)])
  {
  }

  /** A claim takes effect exactly on a prepared row, and writes its status and time; the
      last one takes a request on to its audit. A single claim that comes too late reads
      the payout again, a batch goes on to release what it has. */
  lemma ClaimTakesEffectIff(cfg: Config, s: State, tid: TaskId, now: Time)
    requires tid in s.tasks && s.tasks[tid].Auth? && s.tasks[tid].phase.Claiming? && |s.tasks[tid].legs| < |s.tasks[tid].job.ids|
    ensures var (t, id) := (s.tasks[tid], s.tasks[tid].job.ids[|s.tasks[tid].legs|]);
            var s' := Apply(cfg, s, Step(tid, Go(Clean, now)));
            var won := id in s.rows && s.rows[id].status == Prepared;
            && (won ==> s'.rows == s.rows[id := s.rows[id].(status := Authorized, authorizedAt := Some(t.job.now))]
                        && s'.tasks[tid].Auth? && s'.tasks[tid].job == t.job && LegIds(s'.tasks[tid].legs) == LegIds(t.legs) + [id]
                        && (s'.tasks[tid].phase == if |t.legs| + 1 == |t.job.ids| then Auditing else Claiming))
            && (!won ==> s'.rows == s.rows
                         && s'.tasks[tid] == if t.job.mode.Single? then AuthReread(id, t.job.ctx) else Releasing(Elems(LegIds(t.legs)), None))
            && s'.subs == s.subs
  {
    assert s.subs + [] == s.subs;
  }

  // ---- Isolation over runs -------------------------------------------------

  ghost predicate AskedUnder(es: seq<Event>, tid: TaskId, ctx: Option<string>) {
    exists k :: 0 <= k < |es| && es[k].tid == tid
                && ((es[k].StartAuthorize? && es[k].ctx == ctx) || (es[k].StartBatch? && es[k].ctx == ctx)
                    || (es[k].StartCreate? && es[k].fixed.clientId == ctx))
  }

  ghost predicate JobWithin(es: seq<Event>, rows: Rows, tid: TaskId, job: Job) {
    AskedUnder(es, tid, job.ctx) && forall k :: 0 <= k < |job.ids| ==> Belongs(rows, job.ids[k], job.ctx)
  }

  ghost predicate Within(es: seq<Event>, rows: Rows, tid: TaskId, t: Task) {
    && (t.CreateInsert? ==> AskedUnder(es, tid, t.fixed.clientId))
    && (t.AuthRead? ==> AskedUnder(es, tid, t.ctx))
    && (t.BatchRead? ==> AskedUnder(es, tid, t.ctx) && forall id :: id in t.got ==> Belongs(rows, id, t.ctx))
    && (t.BatchBalance? || t.Auth? ==> JobWithin(es, rows, tid, t.job))
  }

  lemma BelongsLater(rows: Rows, rows': Rows)
    requires Evolves(rows, rows')
    ensures forall id, ctx :: Belongs(rows, id, ctx) ==> Belongs(rows', id, ctx)
  {
  }

  lemma AskedUnderLater(es: seq<Event>, e: Event, tid: TaskId)
    ensures forall ctx :: AskedUnder(es, tid, ctx) ==> AskedUnder(es + [e], tid, ctx)
  {
    assert forall k :: 0 <= k < |es| ==> (es + [e])[k] == es[k];
  }

  lemma WithinLater(es: seq<Event>, e: Event, rows: Rows, rows': Rows, tid: TaskId, t: Task)
    requires Within(es, rows, tid, t) && Evolves(rows, rows')
    ensures Within(es + [e], rows', tid, t)
  {
    BelongsLater(rows, rows');
    AskedUnderLater(es, e, tid);
  }

  lemma ReadStaysWithin(es: seq<Event>, tid: TaskId, rows: Rows, t: Task, i: Input)
    requires (t.AuthRead? || t.AuthReread? || t.BatchRead? || t.BatchBalance?) && Within(es, rows, tid, t)
    ensures Within(es, rows, tid, ReadStep(rows, t, i).task)
  {
  }

  lemma StepStaysWithin(cfg: Config, es: seq<Event>, tid: TaskId, rows: Rows, t: Task, i: Input)
    requires Within(es, rows, tid, t) && Evolves(rows, TaskStep(cfg, tid, rows, t, i).rows)
    ensures var f := TaskStep(cfg, tid, rows, t, i); Within(es, f.rows, tid, f.task)
  {
    var f := TaskStep(cfg, tid, rows, t, i);
    BelongsLater(rows, f.rows);
    if t.Auth? {
      AuthKeepsJob(cfg, tid, rows, t, i);
    } else if t.AuthRead? || t.AuthReread? || t.BatchRead? || t.BatchBalance? {
      ReadStaysWithin(es, tid, rows, t, i);
    } else if !t.CreateInsert? && !t.CreateFind? {
      SettleKeepsKind(rows, t, i);
    }
  }

  lemma {:induction false} TasksStayWithin(cfg: Config, es: seq<Event>, tid: TaskId)
    requires tid in Reached(cfg, es).tasks
    ensures Within(es, Reached(cfg, es).rows, tid, Reached(cfg, es).tasks[tid])
  {
    if |es| > 0 {
      var (b, e) := (es[..|es| - 1], es[|es| - 1]);
      var (s, s') := (Reached(cfg, b), Reached(cfg, es));
      assert es == b + [e];
      LastEventEvolves(cfg, es);
      if tid in s.tasks {
        TasksStayWithin(cfg, b, tid);
        WithinLater(b, e, s.rows, s.rows, tid, s.tasks[tid]);
        if e.Step? && e.tid == tid {
          StepStaysWithin(cfg, es, tid, s.rows, s.tasks[tid], e.input);
        } else {
          WithinLater(b, e, s.rows, s'.rows, tid, s.tasks[tid]);
        }
      } else {
        assert es[|es| - 1].tid == tid;
      }
    }
  }

  /** A request limited to a client never pays anybody else's payout: every payout of a
      transaction belongs to the client its request was made for. */
  lemma {:induction false} SubmissionsStayWithinTheClient(cfg: Config, es: seq<Event>, k: nat)
    requires k < |Reached(cfg, es).subs|
    ensures var (s, sub) := (Reached(cfg, es), Reached(cfg, es).subs[k]); JobWithin(es, s.rows, sub.task, sub.job)
  {
    if |es| > 0 {
      var (b, e) := (es[..|es| - 1], es[|es| - 1]);
      var (s, sub) := (Reached(cfg, b), Reached(cfg, es).subs[k]);
      assert es == b + [e];
      NewSubmission(cfg, s, e, k);
      if k < |s.subs| {
        SubmissionsStayWithinTheClient(cfg, b, k);
      } else {
        OnlyAuthSends(cfg, e.tid, s.rows, s.tasks[e.tid], e.input);
        AuthKeepsJob(cfg, e.tid, s.rows, s.tasks[e.tid], e.input);
        TasksStayWithin(cfg, b, e.tid);
      }
      LastEventEvolves(cfg, es);
      BelongsLater(s.rows, Reached(cfg, es).rows);
      AskedUnderLater(b, e, sub.task);
    }
  }

  // ---- After the send ------------------------------------------------------

  /** The network takes the transaction of a task exactly when its write succeeds, or
      errs after the network took it; either way one transaction with its legs. */
  lemma WriteSubmitsIff(cfg: Config, s: State, tid: TaskId, i: Input)
    requires tid in s.tasks && s.tasks[tid].Auth? && s.tasks[tid].phase.Writing? && |s.tasks[tid].legs| > 0
    ensures var (t, s') := (s.tasks[tid], Apply(cfg, s, Step(tid, i)));
            && (s'.subs != s.subs <==> i.Wrote? || (i.WriteError? && i.reached))
            && (i.Wrote? ==> s'.tasks[tid] == t.(phase := Receipt(i.hash)))
            && (i.WriteError? ==> s'.tasks[tid] == Failing(Elems(LegIds(t.legs)), i.reached))
            && s'.rows == s.rows
  {
    assert s.subs + [] == s.subs;
  }

  /** An error on the way, other than a shortfall, fails the legs; before the claim was
      audited it ends the request instead. */
  lemma ErrorsOnTheWayFail(cfg: Config, s: State, tid: TaskId)
    requires tid in s.tasks && s.tasks[tid].Auth? && |s.tasks[tid].legs| > 0
    ensures var (t, s') := (s.tasks[tid], Apply(cfg, s, Step(tid, Throw)));
            && (t.phase.Auditing? ==> s'.tasks[tid] == Done)
            && (t.phase.Balance? || t.phase.Allowance? ==> s'.tasks[tid] == Failing(Elems(LegIds(t.legs)), false))
            && (t.phase.Receipt? && cfg.waitForReceipt ==> s'.tasks[tid] == Failing(Elems(LegIds(t.legs)), true))
  {
  }

  /** A sent transaction counts as confirmed exactly when the service waits for receipts
      and the receipt is a success; without waiting it is broadcasted. */
  lemma ReceiptDecides(cfg: Config, s: State, tid: TaskId, i: Input)
    requires tid in s.tasks && s.tasks[tid].Auth? && s.tasks[tid].phase.Receipt? && |s.tasks[tid].legs| > 0
    requires if cfg.waitForReceipt then i.Mined? else i.Go?
    ensures var (t, s') := (s.tasks[tid], Apply(cfg, s, Step(tid, i)));
            s'.tasks[tid] == t.(phase := Recording(t.phase.hash, cfg.waitForReceipt && i.success, Elems(LegIds(t.legs)), {}, false))
  {
  }

  /** The record of a leg, on the row it finds authorized. */
  lemma RecordWritesLeg(cfg: Config, s: State, tid: TaskId, id: Id)
    requires tid in s.tasks && s.tasks[tid].Auth? && s.tasks[tid].phase.Recording? && id in s.tasks[tid].phase.rec
    requires id in s.rows && s.rows[id].status == Authorized
    ensures var (t, s') := (s.tasks[tid], Apply(cfg, s, Step(tid, LegWrite(id, Clean))));
            s'.rows == s.rows[id := Payout(s.rows[id].fixed, if t.phase.confirmed then Confirmed else Broadcasted, Some(t.phase.hash), None,
                                           s.rows[id].authorizedAt, Some(t.job.now), if t.phase.confirmed then Some(t.job.now) else None)]
  {
  }

  /** What reaches the catch block after a send: the first record write that errs, or an
      error after all were written. Either way every leg is to be failed, once. */
  lemma LateErrorsFailEveryLeg(cfg: Config, s: State, tid: TaskId, i: Input)
    requires tid in s.tasks && s.tasks[tid].Auth? && s.tasks[tid].phase.Recording? && !s.tasks[tid].phase.caught
    requires (i.LegWrite? && i.id in s.tasks[tid].phase.rec && !i.fault.Clean?) || (i.Throw? && s.tasks[tid].phase.rec == {})
    ensures var (t, t') := (s.tasks[tid], Apply(cfg, s, Step(tid, i)).tasks[tid]);
            && t'.Auth? && t'.phase.Recording? && t'.phase.caught && t'.phase.fail == Elems(LegIds(t.legs))
            && t'.phase.rec == if i.LegWrite? then t.phase.rec - {i.id} else {}
  {
  }

  /** Releasing puts an authorized leg back to prepared, keeps the rest, and writes the
      reason of a conflict; failing keeps all but status and reason. */
  lemma SettlingWritesLeg(cfg: Config, s: State, tid: TaskId, id: Id)
    requires tid in s.tasks && (s.tasks[tid].Releasing? || s.tasks[tid].Failing?) && id in s.tasks[tid].pending
    requires id in s.rows && s.rows[id].status == Authorized
    ensures var (t, p) := (s.tasks[tid], s.rows[id]);
            var s' := Apply(cfg, s, Step(tid, if t.Releasing? then LegWrite(id, Clean) else FailWrite(id, Clean)));
            && (t.Releasing? && t.reason.None? ==> s'.rows == s.rows[id := p.(status := Prepared)])
            && (t.Releasing? && t.reason.Some? ==> s'.rows == s.rows[id := p.(status := Prepared, failureReason := t.reason)])
            && (t.Failing? ==> id in s'.rows && s'.rows[id].failureReason.Some?
                               && s'.rows == s.rows[id := p.(status := Failed, failureReason := s'.rows[id].failureReason)])
  {
  }

  // ---- Reconciliation ------------------------------------------------------

  /** reconcileTransaction: no receipt means pending; a success is final from the
      configured number of blocks on. */
  datatype TxReceipt = TxReceipt(success: bool, block: nat)

  function ReconcileTransaction(receipt: Option<TxReceipt>, latest: nat, minConfirmations: nat): TxStatus {
    if receipt.None? then TxPending
    else
      var confirmations := if latest > receipt.value.block then latest - receipt.value.block else 0;
      if !receipt.value.success then TxReverted else TxSuccess(confirmations >= minConfirmations)
  }

  /** What a reconcile stores, from its snapshot and the receipt it is given: failed on a
      revert; confirmed, now and without a reason, once the success is deep enough; the
      snapshot's own status, time and reason otherwise. Nothing else moves. */
  lemma ReconcileStores(cfg: Config, s: State, tid: TaskId, receipt: Option<TxReceipt>, latest: nat, minConfirmations: nat, now: Time, later: Time)
    requires tid in s.tasks && s.tasks[tid].RecChain? && s.tasks[tid].id in s.rows
    ensures var (id, snap, p) := (s.tasks[tid].id, s.tasks[tid].snap, s.rows[s.tasks[tid].id]);
            var s' := Apply(cfg, Apply(cfg, s, Step(tid, Chain(ReconcileTransaction(receipt, latest, minConfirmations), now))),
                            Step(tid, Go(Clean, later)));
            var reverted := receipt.Some? && !receipt.value.success;
            var final := receipt.Some? && receipt.value.success
                         && (minConfirmations == 0 || receipt.value.block + minConfirmations <= latest);
            s'.rows == s.rows[id := p.(
              status := if reverted then Failed else if final then Confirmed else snap.status,
              confirmedAt := if final then Some(now) else snap.confirmedAt,
              failureReason := if reverted then Some("Transaction reverted on-chain.") else if final then None else snap.failureReason)]
  {
    var c := Chain(ReconcileTransaction(receipt, latest, minConfirmations), now);
    assert Apply(cfg, s, Step(tid, c)) == s.(tasks := s.tasks[tid := Reconciled(s.tasks[tid].id, s.tasks[tid].snap, c.tx, now)],
                                            subs := s.subs + []);
  }

  // ---- Columns that follow the status --------------------------------------

  predicate Consistent(status: Status, confirmedAt: Option<Time>, reason: Option<string>) {
    && (status == Confirmed ==> confirmedAt.Some?)
    && (status in {Broadcasted, Confirmed} ==> reason.None?)
    && (status == Failed ==> reason.Some?)
  }

  predicate RowConsistent(p: Payout) {
    && Consistent(p.status, p.confirmedAt, p.failureReason)
    && (p.status != Prepared ==> p.authorizedAt.Some?)
    && (p.transactionHash.Some? ==> p.broadcastedAt.Some? && p.authorizedAt.Some?)
  }

  predicate TaskConsistent(t: Task) {
    && (t.RecChain? ==> Consistent(t.snap.status, t.snap.confirmedAt, t.snap.failureReason))
    && (t.RecWrite? ==> Consistent(t.status, t.confirmedAt, t.failureReason))
  }

  lemma AuthIsConsistent(cfg: Config, tid: TaskId, rows: Rows, t: Task, i: Input, id: Id)
    requires t.Auth? && (id in rows ==> RowConsistent(rows[id]))
    ensures var f := AuthStep(cfg, tid, rows, t, i); (id in f.rows ==> RowConsistent(f.rows[id])) && TaskConsistent(f.task)
  {
    AuthKeepsJob(cfg, tid, rows, t, i);
    if t.phase.Recording? {
      RecordIsConsistent(rows, t, i, id);
    } else if !t.phase.Claiming? {
      SendWritesNoRow(cfg, tid, rows, t, i);
    }
  }

  lemma RecordIsConsistent(rows: Rows, t: Task, i: Input, id: Id)
    requires t.Auth? && t.phase.Recording? && (id in rows ==> RowConsistent(rows[id]))
    ensures var f := RecordStep(rows, t, i); id in f.rows ==> RowConsistent(f.rows[id])
  {
  }

  lemma StepIsConsistent(cfg: Config, tid: TaskId, rows: Rows, subs: seq<Submission>, t: Task, i: Input, id: Id)
    requires TaskConsistent(t) && LocalOk(rows, subs, t) && (id in rows ==> RowConsistent(rows[id])) && (t.RecRead? && t.id in rows ==> RowConsistent(rows[t.id]))
    ensures var f := TaskStep(cfg, tid, rows, t, i); (id in f.rows ==> RowConsistent(f.rows[id])) && TaskConsistent(f.task)
  {
    if t.Auth? {
      AuthIsConsistent(cfg, tid, rows, t, i, id);
    }
  }

  ghost predicate AllConsistent(s: State) {
    (forall id :: id in s.rows ==> RowConsistent(s.rows[id])) && forall t :: t in s.tasks ==> TaskConsistent(s.tasks[t])
  }

  lemma {:induction false} RunsAreConsistent(cfg: Config, es: seq<Event>)
    ensures AllConsistent(Reached(cfg, es))
  {
    if |es| > 0 {
      var (s, e) := (Reached(cfg, es[..|es| - 1]), es[|es| - 1]);
      RunsAreConsistent(cfg, es[..|es| - 1]);
      ReachedInv(cfg, es[..|es| - 1]);
      if e.Step? && e.tid in s.tasks {
        TakeIsConsistent(cfg, s, e.tid, e.input);
      }
    }
  }

  lemma TakeIsConsistent(cfg: Config, s: State, tid: TaskId, i: Input)
    requires AllConsistent(s) && tid in s.tasks && LocalOk(s.rows, s.subs, s.tasks[tid])
    ensures AllConsistent(Take(s, tid, TaskStep(cfg, tid, s.rows, s.tasks[tid], i)))
  {
    var f := TaskStep(cfg, tid, s.rows, s.tasks[tid], i);
    forall id
      ensures id in f.rows ==> RowConsistent(f.rows[id])
      ensures TaskConsistent(f.task)
    {
      StepIsConsistent(cfg, tid, s.rows, s.subs, s.tasks[tid], i, id);
    }
  }

  /** In every interleaving the times and the reason of a payout follow its status, stale
      writes included: confirmed has its time, sent has its broadcast time and no reason,
      failed has a reason, and anything but prepared has its authorization time. */
  lemma ColumnsFollowStatus(cfg: Config, es: seq<Event>, id: Id)
    requires id in Reached(cfg, es).rows
    ensures var p := Reached(cfg, es).rows[id];
            && (p.status == Confirmed ==> p.confirmedAt.Some? && p.broadcastedAt.Some?)
            && (p.status in {Broadcasted, Confirmed} ==> p.broadcastedAt.Some? && p.failureReason.None?)
            && (p.status == Failed ==> p.failureReason.Some?)
            && (p.status != Prepared ==> p.authorizedAt.Some?)
  {
    RunsAreConsistent(cfg, es);
    EachPayoutIsSubmittedAtMostOnce(cfg, es, id);
  }
}
