/** What single decisions on a pay-in mean, in terms of its row and the answers given. */
module PayInMeaning {
  import opened Common
  import opened ChainScan
  import opened PayInLedger
  import opened PayInProtocol
  import opened PayInSerial
  import opened PayInSweeps
  import ScanMeaning

  // ---- Reconciles ----------------------------------------------------------

  /** A reconcile goes on to the chain exactly when it does not find the pay-in confirmed. */
  lemma ReconcileGoesOnIff(cfg: Config, s: State, tid: TaskId, i: Input)
    requires tid in s.tasks && s.tasks[tid].RecRead?
    ensures var s' := Apply(cfg, s, Step(tid, i));
            && (s'.tasks[tid] == RecHead(s.row) <==> s.row.status != Confirmed)
            && (s'.tasks[tid] == Done <==> s.row.status == Confirmed)
            && s'.row == s.row && s'.outbox == s.outbox
  {
    assert s.outbox + [] == s.outbox;
  }

  /** What its write stores, in terms of its snapshot and of what it found: the transfers,
      their total, its head, the status they call for; the first detection and the first
      confirmation get their time, later ones keep it; nothing else moves. */
  lemma ReconcileStores(cfg: Config, s: State, tid: TaskId, now: Time)
    requires tid in s.tasks && s.tasks[tid].RecWrite? && s.tasks[tid].snap.terms.expectedAtomic > 0
    ensures var (t, row) := (s.tasks[tid], Apply(cfg, s, Step(tid, Go(Clean, now))).row);
            && ScanMeaning.StatusFits(row.status, Total(t.transfers), t.snap.terms.expectedAtomic, AllDeep(cfg, t.transfers, t.head),
                                      t.snap.terms.expiresAt.Some? && t.snap.terms.expiresAt.value < t.now)
            && row == s.row.(
                 status := row.status, receivedAtomic := Total(t.transfers), transfers := t.transfers, lastScanned := Some(t.head),
                 detectedAt := if t.transfers != [] && t.snap.detectedAt.None? then Some(t.now) else t.snap.detectedAt,
                 confirmedAt := if row.status == Confirmed && t.snap.confirmedAt.None? then Some(t.now) else t.snap.confirmedAt)
  {
    StatusSaysWhatWasPaid(cfg, s.tasks[tid].snap.terms, s.tasks[tid].transfers, s.tasks[tid].head, s.tasks[tid].now);
  }

  /** And the webhooks it goes on to: `detected` for a first detection, then `confirmed`
      for a first confirmation. */
  lemma ReconcileNotifies(cfg: Config, s: State, tid: TaskId, now: Time)
    requires tid in s.tasks && s.tasks[tid].RecWrite?
    ensures var (t, s') := (s.tasks[tid], Apply(cfg, s, Step(tid, Go(Clean, now))));
            && s'.tasks[tid].Notify? && s'.outbox == s.outbox
            && s'.tasks[tid].hooks == (if t.transfers != [] && t.snap.detectedAt.None? then [DetectedHook] else [])
                                      + (if s'.row.status == Confirmed && t.snap.confirmedAt.None? then [ConfirmedHook] else [])
  {
    assert s.outbox + [] == s.outbox;
  }

  // ---- Acceptances ---------------------------------------------------------

  /** An acceptance takes effect exactly on an underpaid or overpaid pay-in: it is
      confirmed and accepted now, keeps an earlier confirmation time its request had
      read, and goes on to the `confirmed` webhook. Otherwise nothing changes. */
  lemma AcceptanceTakesEffectIff(cfg: Config, s: State, tid: TaskId, now: Time)
    requires tid in s.tasks && s.tasks[tid].AccWrite?
    ensures var (t, s') := (s.tasks[tid], Apply(cfg, s, Step(tid, Go(Clean, now))));
            && (s'.tasks[tid] == Notify(false, [ConfirmedHook]) <==> s.row.status == Underpaid || s.row.status == Overpaid)
            && (s.row.status == Underpaid || s.row.status == Overpaid ==>
                  s'.row == s.row.(status := Confirmed, acceptedAt := Some(now),
                                   confirmedAt := if t.snap.confirmedAt == None then Some(now) else t.snap.confirmedAt))
            && (s.row.status != Underpaid && s.row.status != Overpaid ==> s'.row == s.row && s'.tasks[tid] == Done)
            && s'.outbox == s.outbox
  {
    assert s.outbox + [] == s.outbox;
  }

  // ---- Webhooks ------------------------------------------------------------

  /** After its audit a request enqueues its next webhook exactly when the pay-in has a
      client and the enqueue does not fail. */
  lemma WebhookIsEnqueuedIff(cfg: Config, s: State, tid: TaskId, fault: Fault, now: Time)
    requires tid in s.tasks && s.tasks[tid].Notify? && s.tasks[tid].audited && s.tasks[tid].hooks != []
    ensures var (t, s') := (s.tasks[tid], Apply(cfg, s, Step(tid, Go(fault, now))));
            && (s'.outbox == s.outbox + [t.hooks[0]] <==> s.row.terms.clientId.Some? && !fault.ErrorBefore?)
            && (s'.outbox == s.outbox <==> s.row.terms.clientId.None? || fault.ErrorBefore?)
            && s'.tasks[tid] == Notify(true, t.hooks[1..]) && s'.row == s.row
  {
    var more := if s.row.terms.clientId.None? || fault.ErrorBefore? then [] else [s.tasks[tid].hooks[0]];
    assert |s.outbox + more| == |s.outbox| + |more| && s.outbox + [] == s.outbox;
  }

  /** A failed audit ends the request with its webhooks unsent. */
  lemma FailedAuditSendsNothing(cfg: Config, s: State, tid: TaskId, fault: Fault, now: Time)
    requires tid in s.tasks && s.tasks[tid].Notify? && !s.tasks[tid].audited
    ensures var s' := Apply(cfg, s, Step(tid, Go(fault, now)));
            && s'.outbox == s.outbox && s'.row == s.row
            && s'.tasks[tid] == if fault.Clean? then Notify(true, s.tasks[tid].hooks) else Done
  {
    assert s.outbox + [] == s.outbox;
  }

  /** A pay-in without a client never has a webhook, in any run. */
  lemma {:induction false} NoClientNoWebhook(cfg: Config, s: State, es: seq<Event>)
    requires Initial(s) && s.row.terms.clientId.None?
    ensures Exec(cfg, s, es).outbox == []
  {
    if |es| > 0 {
      NoClientNoWebhook(cfg, s, es[..|es| - 1]);
      TermsStay(cfg, s, es[..|es| - 1]);
    }
  }

  // ---- Sweeps --------------------------------------------------------------

  /** A sweep request: a router pay-in is only marked as needing none, a recorded sweep is
      left alone, and anything else goes on to the chain. */
  lemma SweepGoesOnIff(cfg: Config, s: State, tid: TaskId, i: Input)
    requires tid in s.tasks && s.tasks[tid].SweepRead?
    ensures var s' := Apply(cfg, s, Step(tid, i));
            && (s'.tasks[tid] == SweepSkip <==> s.row.terms.mode == PaymentRouterMode)
            && (s'.tasks[tid] == Done <==> s.row.terms.mode == DerivedAddress && (s.row.sweepStatus == SweepBroadcasted || s.row.sweepStatus == SweepConfirmed))
            && (s'.tasks[tid] == SweepSend <==> s.row.terms.mode == DerivedAddress && s.row.sweepStatus != SweepBroadcasted && s.row.sweepStatus != SweepConfirmed)
            && s'.row == s.row
  {
  }

  /** Sent, its result goes to the row if the sweep is still pending or failed by then: the
      hash, the amount and the time of the transfer, confirmed exactly when its receipt
      was a success, and no failure. Not sent, the request turns to recording a failure. */
  lemma SweepResultIsStored(cfg: Config, s: State, tid: TaskId, hash: TxHash, amount: nat, confirmed: bool, at: Time, now: Time)
    requires tid in s.tasks && s.tasks[tid].SweepSend?
    ensures var s' := Apply(cfg, Apply(cfg, s, Step(tid, Swept(hash, amount, confirmed, at))), Step(tid, Go(Clean, now)));
            s'.row == if s.row.sweepStatus == SweepPending || s.row.sweepStatus == SweepFailed
                      then s.row.(sweepStatus := if confirmed then SweepConfirmed else SweepBroadcasted, sweepHash := Some(hash),
                                  sweptAtomic := amount, sweptAt := Some(at), sweepFailure := None)
                      else s.row
    ensures forall reached :: Apply(cfg, s, Step(tid, SendError(reached))).tasks[tid] == SweepFail
                              && Apply(cfg, s, Step(tid, SendError(reached))).row == s.row
  {
  }

  /** A sweep whose record write or audit fails goes on to recording a failure. */
  lemma SweepErrorsGoOnToFailure(cfg: Config, s: State, tid: TaskId, fault: Fault, now: Time)
    requires tid in s.tasks
    ensures s.tasks[tid].SweepWrite? ==>
              Apply(cfg, s, Step(tid, Go(fault, now))).tasks[tid] == if fault.Clean? then SweepAudit else SweepFail
    ensures s.tasks[tid].SweepAudit? ==>
              && Apply(cfg, s, Step(tid, Throw)).tasks[tid] == SweepFail && Apply(cfg, s, Step(tid, Go(Clean, now))).tasks[tid] == Done
              && Apply(cfg, s, Step(tid, Throw)).row == s.row
  {
  }

  /** A failure is recorded, with a reason, exactly on a sweep that is pending or failed;
      the skip of a router pay-in marks it as not required. */
  lemma SweepFailureIsStored(cfg: Config, s: State, tid: TaskId, now: Time)
    requires tid in s.tasks && (s.tasks[tid].SweepFail? || s.tasks[tid].SweepSkip?)
    ensures var (t, row) := (s.tasks[tid], Apply(cfg, s, Step(tid, Go(Clean, now))).row);
            && (t.SweepFail? && (s.row.sweepStatus == SweepPending || s.row.sweepStatus == SweepFailed) ==>
                  row.sweepFailure.Some? && row == s.row.(sweepStatus := SweepFailed, sweepFailure := row.sweepFailure))
            && (t.SweepFail? && s.row.sweepStatus != SweepPending && s.row.sweepStatus != SweepFailed ==> row == s.row)
            && (t.SweepSkip? ==> row == s.row.(sweepStatus := NotRequired, sweepFailure := None))
  {
  }

  /** The chain told some sweep request this result. */
  ghost predicate ToldSweep(es: seq<Event>, status: SweepStatus, hash: Option<TxHash>, amount: nat, at: Option<Time>) {
    exists k :: 0 <= k < |es| && es[k].Step? && es[k].input.Swept?
                && hash == Some(es[k].input.hash) && amount == es[k].input.amount && at == Some(es[k].input.at)
                && (status == SweepConfirmed <==> es[k].input.confirmed) && (status == SweepBroadcasted <==> !es[k].input.confirmed)
  }

  ghost predicate Reported(es: seq<Event>, d: PayInPatch) {
    && d.sweepStatus.Some? && d.sweepHash.Some? && d.sweptAtomic.Some? && d.sweptAt.Some?
    && ToldSweep(es, d.sweepStatus.value, d.sweepHash.value, d.sweptAtomic.value, d.sweptAt.value)
  }

  ghost predicate RowReported(es: seq<Event>, p: PayIn) {
    IsSwept(p) ==> ToldSweep(es, p.sweepStatus, p.sweepHash, p.sweptAtomic, p.sweptAt)
  }

  lemma ToldLater(es: seq<Event>, e: Event)
    ensures forall st, h, a, at :: ToldSweep(es, st, h, a, at) ==> ToldSweep(es + [e], st, h, a, at)
  {
    assert forall k :: 0 <= k < |es| ==> (es + [e])[k] == es[k];
  }

  lemma StepIsReported(cfg: Config, es: seq<Event>, s: State, tid: TaskId, t: Task, i: Input)
    requires |es| > 0 && es[|es| - 1] == Step(tid, i)
    requires RowReported(es, s.row) && (t.SweepWrite? ==> Reported(es, t.d)) && SweepInv(s) && SweepTaskOk(s.row, t)
    ensures var f := TaskStep(cfg, s, t, i); RowReported(es, f.row) && (f.task.SweepWrite? ==> Reported(es, f.task.d))
  {
    if t.RecRead? || t.RecHead? || t.RecScan? || t.RecWrite? {
      ReconcileTouchesNoSweep(cfg, s, t, i);
    } else if t.SweepSend? || t.SweepWrite? || t.SweepRead? || t.SweepAudit? || t.SweepFail? || t.SweepSkip? {
      SweepIsReported(es, s, tid, t, i);
    }
  }

  lemma SweepIsReported(es: seq<Event>, s: State, tid: TaskId, t: Task, i: Input)
    requires |es| > 0 && es[|es| - 1] == Step(tid, i)
    requires t.SweepRead? || t.SweepSend? || t.SweepWrite? || t.SweepAudit? || t.SweepFail? || t.SweepSkip?
    requires RowReported(es, s.row) && (t.SweepWrite? ==> Reported(es, t.d))
    ensures var f := SweepStep(s, t, i); RowReported(es, f.row) && (f.task.SweepWrite? ==> Reported(es, f.task.d))
  {
    if t.SweepSend? && i.Swept? {
      assert es[|es| - 1].input == i;
    }
  }

  lemma {:induction false} RunsAreReported(cfg: Config, s: State, es: seq<Event>)
    requires Initial(s)
    ensures var s' := Exec(cfg, s, es);
            RowReported(es, s'.row) && forall t :: t in s'.tasks && s'.tasks[t].SweepWrite? ==> Reported(es, s'.tasks[t].d)
  {
    if |es| > 0 {
      var (b, e) := (es[..|es| - 1], es[|es| - 1]);
      var s1 := Exec(cfg, s, b);
      assert es == b + [e];
      RunsAreReported(cfg, s, b);
      RunKeepsSweepInv(cfg, s, b);
      ToldLater(b, e);
      if e.Step? && e.tid in s1.tasks {
        StepIsReported(cfg, es, s1, e.tid, s1.tasks[e.tid], e.input);
      }
    }
  }

  /** In every interleaving a recorded sweep is one the chain reported: its hash, amount and
      time come from one report, and it is confirmed exactly when that report said so. */
  lemma RecordedSweepWasReported(cfg: Config, s: State, es: seq<Event>)
    requires Initial(s) && IsSwept(Exec(cfg, s, es).row)
    ensures var p := Exec(cfg, s, es).row;
            exists k :: 0 <= k < |es| && es[k].Step? && es[k].input.Swept?
                        && p.sweepHash == Some(es[k].input.hash) && p.sweptAtomic == es[k].input.amount && p.sweptAt == Some(es[k].input.at)
                        && (p.sweepStatus == SweepConfirmed <==> es[k].input.confirmed)
  {
    RunsAreReported(cfg, s, es);
    var p := Exec(cfg, s, es).row;
    var k :| 0 <= k < |es| && es[k].Step? && es[k].input.Swept?
             && p.sweepHash == Some(es[k].input.hash) && p.sweptAtomic == es[k].input.amount && p.sweptAt == Some(es[k].input.at)
             && (p.sweepStatus == SweepConfirmed <==> es[k].input.confirmed);
  }

  // ---- Times ---------------------------------------------------------------

  /** In every interleaving, a pay-in with transfers has its detection time, and a
      confirmed one its confirmation time. */
  lemma {:induction false} TimesFollowStatus(cfg: Config, s: State, es: seq<Event>)
    requires Initial(s)
    ensures var p := Exec(cfg, s, es).row;
            (p.transfers != [] ==> p.detectedAt.Some?) && (p.status == Confirmed ==> p.confirmedAt.Some?)
  {
    if |es| > 0 {
      TimesFollowStatus(cfg, s, es[..|es| - 1]);
      RunKeepsSweepInv(cfg, s, es[..|es| - 1]);
      var (s1, e) := (Exec(cfg, s, es[..|es| - 1]), es[|es| - 1]);
      if e.Step? && e.tid in s1.tasks {
        StepKeepsTimes(cfg, s1, s1.tasks[e.tid], e.input);
      }
    }
  }

  lemma StepKeepsTimes(cfg: Config, s: State, t: Task, i: Input)
    requires SweepTaskOk(s.row, t) && (s.row.transfers != [] ==> s.row.detectedAt.Some?) && (s.row.status == Confirmed ==> s.row.confirmedAt.Some?)
    ensures var p := TaskStep(cfg, s, t, i).row;
            (p.transfers != [] ==> p.detectedAt.Some?) && (p.status == Confirmed ==> p.confirmedAt.Some?)
  {
  }

  // ---- Scanning ------------------------------------------------------------

  /** A scan resumes 30 blocks before the first unread one, but never before startBlock;
      from block 0 it looks back from the head instead. */
  lemma ScanStartsAt(cfg: Config, p: PayIn, head: nat)
    ensures var start := p.terms.startBlock;
            var from := if p.lastScanned.Some? && p.lastScanned.value + 1 > start + 30 then p.lastScanned.value + 1 - 30 else start;
            ScanStart(cfg, p, head) == if from > 0 then from else if head > cfg.lookback then head - cfg.lookback else 0
  {
  }

  /** A page holds at most 2,000 blocks, and only the last one fewer. */
  lemma PagesAreBounded(cfg: Config, s: State, tid: TaskId, now: Time)
    requires tid in s.tasks && s.tasks[tid].RecScan? && s.tasks[tid].next <= s.tasks[tid].head
    ensures var (t, t') := (s.tasks[tid], Apply(cfg, s, Step(tid, Go(Clean, now))).tasks[tid]);
            t'.RecScan? && t.next < t'.next <= t.next + 2_000 && t'.next <= t.head + 1 && (t'.next < t.next + 2_000 ==> t'.next == t.head + 1)
  {
  }
}
