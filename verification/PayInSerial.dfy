/** Pay-in operations one at a time: a reconcile agrees with a full scan, confirmed
    is absorbing, and the webhooks come once and in order. */
module PayInSerial {
  import opened Common
  import opened ChainScan
  import opened PayInLedger
  import opened PayInProtocol
  import opened PayInScan

  // ---- The classification does not depend on order -------------------------

  lemma TotalRemove(ts: seq<Transfer>, i: nat)
    requires i < |ts|
    ensures Total(ts) == Total(ts[..i] + ts[i + 1..]) + ts[i].amountAtomic
  {
    var a := Amounts(ts);
    SumRemove(a, i);
    assert Amounts(ts[..i] + ts[i + 1..]) == a[..i] + a[i + 1..];
  }

  lemma {:induction false} TotalOfPermutation(a: seq<Transfer>, b: seq<Transfer>)
    requires multiset(a) == multiset(b)
    ensures Total(a) == Total(b)
    decreases |a|
  {
    if |a| == 0 {
      assert |multiset(b)| == 0;
    } else {
      var n := |a| - 1;
      assert a[n] in multiset(b);
      var i :| 0 <= i < |b| && b[i] == a[n];
      TotalRemove(a, n);
      TotalRemove(b, i);
      MultisetRemove(a, n);
      MultisetRemove(b, i);
      assert a[..n] + a[n + 1..] == a[..n];
      PermutationTail(a[..n], b[..i] + b[i + 1..], a[n], a, b);
      TotalOfPermutation(a[..n], b[..i] + b[i + 1..]);
    }
  }

  lemma {:induction false} LatestBounds(ts: seq<Transfer>)
    ensures forall t :: t in ts ==> t.block <= Latest(ts)
    ensures ts != [] ==> exists t :: t in ts && t.block == Latest(ts)
  {
    if |ts| > 0 {
      var n := |ts| - 1;
      assert ts == ts[..n] + [ts[n]];
      LatestBounds(ts[..n]);
      assert ts[n] in ts;
    }
  }

  /** Enough confirmations means every transfer, not just the latest, lies at least
      max(1, minConfirmations) blocks below the head. */
  lemma EnoughMeansEveryTransferDeep(cfg: Config, ts: seq<Transfer>, head: nat)
    ensures EnoughConfirmations(cfg, ts, head) <==>
            ts != [] && forall t :: t in ts ==> t.block + (if cfg.minConfirmations > 1 then cfg.minConfirmations else 1) <= head
  {
    LatestBounds(ts);
  }

  lemma ClassifyOfPermutation(cfg: Config, t: Terms, a: seq<Transfer>, b: seq<Transfer>, head: nat, now: Time)
    requires multiset(a) == multiset(b)
    ensures Classify(cfg, t, a, head, now) == Classify(cfg, t, b, head, now) && Total(a) == Total(b)
  {
    TotalOfPermutation(a, b);
    assert forall x :: x in a <==> x in multiset(a);
    assert forall x :: x in b <==> x in multiset(b);
    assert |a| == |multiset(a)| == |multiset(b)| == |b|;
    EnoughMeansEveryTransferDeep(cfg, a, head);
    EnoughMeansEveryTransferDeep(cfg, b, head);
  }

  predicate AllDeep(cfg: Config, ts: seq<Transfer>, head: nat) {
    forall t :: t in ts ==> t.block + (if cfg.minConfirmations > 1 then cfg.minConfirmations else 1) <= head
  }

  /** What each status says about the payments: the six cases exclude each other and
      leave nothing out. */
  lemma StatusSaysWhatWasPaid(cfg: Config, t: Terms, ts: seq<Transfer>, head: nat, now: Time)
    requires t.expectedAtomic > 0
    ensures var (s, paid) := (Classify(cfg, t, ts, head, now), Total(ts));
            && (s == Pending <==> paid == 0 && !IsExpired(t, now))
            && (s == Expired <==> paid == 0 && IsExpired(t, now))
            && (s == Underpaid <==> 0 < paid < t.expectedAtomic)
            && (s == Overpaid <==> t.expectedAtomic < paid)
            && (s == Confirmed <==> paid == t.expectedAtomic && AllDeep(cfg, ts, head))
            && (s == Detected <==> paid == t.expectedAtomic && !AllDeep(cfg, ts, head))
  {
    EnoughMeansEveryTransferDeep(cfg, ts, head);
  }

  // ---- Serialised runs -----------------------------------------------------

  /** A request starts only when no other request on the pay-in is under way. */
  ghost predicate SerialEvent(s: State, e: Event) {
    e.Start? ==> forall t :: t in s.tasks ==> s.tasks[t] == Done
  }

  ghost predicate Serial(cfg: Config, s: State, es: seq<Event>) {
    |es| == 0 || (Serial(cfg, s, es[..|es| - 1]) && SerialEvent(Exec(cfg, s, es[..|es| - 1]), es[|es| - 1]))
  }

  /** The webhooks a row's state calls for. */
  function Due(p: PayIn): seq<Hook> {
    if p.detectedAt.Some? then (if p.status == Confirmed then [DetectedHook, ConfirmedHook] else [DetectedHook])
    else if p.status == Confirmed then [ConfirmedHook] else []
  }

  /** At most once each, detected first, and only what has happened. */
  ghost predicate Orderly(p: PayIn, hooks: seq<Hook>) {
    && hooks in {[], [DetectedHook], [ConfirmedHook], [DetectedHook, ConfirmedHook]}
    && (DetectedHook in hooks ==> p.detectedAt.Some?)
    && (ConfirmedHook in hooks ==> p.status == Confirmed)
  }

  /** What was enqueued, with what the request under way still has to enqueue. */
  ghost predicate HooksOk(p: PayIn, outbox: seq<Hook>, pending: seq<Hook>, lost: bool) {
    && Orderly(p, Both(outbox, pending))
    && (!lost ==> Both(outbox, pending) == Due(p))
  }

  function Both(a: seq<Hook>, b: seq<Hook>): (r: seq<Hook>)
    ensures r == a + b
  {
    if b == [] then a else a + b
  }

  ghost predicate RowOk(p: PayIn) {
    && p.terms.expectedAtomic > 0
    && (p.confirmedAt.Some? <==> p.status == Confirmed)
    && (p.detectedAt.Some? <==> p.transfers != [])
    && (p.status in {Underpaid, Overpaid, Detected, Confirmed} ==> p.transfers != [])
  }

  ghost predicate Live(s: State, t: TaskId) {
    t in s.tasks && s.tasks[t] != Done
  }

  /** The request under way works on the row as it is. */
  ghost predicate FreshOk(p: PayIn, t: Task) {
    && (t.RecHead? || t.RecScan? || t.RecWrite? ==> t.snap == p && p.status != Confirmed)
    && (t.RecWrite? ==> (p.transfers != [] ==> t.transfers != []))
    && (t.AccWrite? ==> t.snap == p)
    && (t.SweepWrite? ==> t.d == NoPatch.(sweepStatus := t.d.sweepStatus, sweepHash := t.d.sweepHash, sweptAtomic := t.d.sweptAtomic,
                                          sweptAt := t.d.sweptAt, sweepFailure := t.d.sweepFailure))
  }

  ghost predicate SInv(s: State) {
    && RowOk(s.row) && s.row.terms.clientId.Some?
    && (forall t, u :: Live(s, t) && Live(s, u) ==> t == u)
    && (forall t :: Live(s, t) ==> FreshOk(s.row, s.tasks[t]))
    && (forall t :: Live(s, t) && s.tasks[t].Notify? ==> HooksOk(s.row, s.outbox, s.tasks[t].hooks, s.lost))
    && ((forall t :: Live(s, t) ==> !s.tasks[t].Notify?) ==> HooksOk(s.row, s.outbox, [], s.lost))
  }

  /** What one step of the only live request does. */
  ghost predicate StepOk(s: State, t: Task, f: Effect) {
    var (outbox, lost) := (Both(s.outbox, f.enqueued), s.lost || f.lost);
    && RowOk(f.row) && f.row.terms == s.row.terms
    && (f.task != Done ==> FreshOk(f.row, f.task))
    && HooksOk(f.row, outbox, if f.task.Notify? then f.task.hooks else [], lost)
    && (s.row.status == Confirmed ==> f.row.status == Confirmed)
  }

  lemma MergedNonEmpty(all: seq<Transfer>)
    requires all != []
    ensures Merged(all) != []
  {
    MergedKeepsLast(all);
    assert LastOfItsKey(all, all[|all| - 1]);
  }

  lemma EmptyHasNoTotal(ts: seq<Transfer>)
    requires ts == []
    ensures Total(ts) == 0
  {
  }

  lemma ReadStepOk(cfg: Config, s: State, t: Task, i: Input)
    requires RowOk(s.row) && FreshOk(s.row, t) && HooksOk(s.row, s.outbox, [], s.lost)
    requires t.RecRead? || t.RecHead? || t.RecScan?
    ensures StepOk(s, t, ReconcileStep(cfg, s, t, i))
  {
    if t.RecScan? && s.row.transfers != [] {
      MergedNonEmpty(s.row.transfers + t.found);
    }
  }

  lemma ReconciledRowOk(cfg: Config, p: PayIn, head: nat, ts: seq<Transfer>, now: Time)
    requires RowOk(p) && p.status != Confirmed && (p.transfers != [] ==> ts != [])
    ensures var p' := Patched(p, ReconcilePatch(cfg, p, head, ts, now));
            RowOk(p') && p'.terms == p.terms && Due(p') == Due(p) + ReconcileHooks(cfg, p, head, ts, now)
  {
    if ts == [] {
      EmptyHasNoTotal(ts);
    }
  }

  lemma HooksGrow(p: PayIn, p': PayIn, outbox: seq<Hook>, more: seq<Hook>, lost: bool)
    requires HooksOk(p, outbox, [], lost) && p.status != Confirmed && Due(p') == Due(p) + more
    requires p'.status == Confirmed ==> p'.detectedAt.Some?
    ensures HooksOk(p', outbox, more, lost)
  {
    assert ConfirmedHook in [ConfirmedHook] && ConfirmedHook in [DetectedHook, ConfirmedHook] && DetectedHook in [DetectedHook];
    assert outbox in {[], [DetectedHook]};
    if p.detectedAt.Some? {
      assert Due(p) == [DetectedHook] && more == Due(p')[1..];
    } else {
      assert Due(p) == [] && more == Due(p') && outbox == [];
    }
    assert Due(p') in {[], [DetectedHook], [DetectedHook, ConfirmedHook]};
    assert [DetectedHook] + [ConfirmedHook] == [DetectedHook, ConfirmedHook];
    var r := Both(outbox, more);
    if outbox == [] {
      assert r == more;
      assert more in {[], [DetectedHook], [ConfirmedHook], [DetectedHook, ConfirmedHook]};
    } else {
      assert p.detectedAt.Some? && more in {[], [ConfirmedHook]};
      assert r in {[DetectedHook], [DetectedHook, ConfirmedHook]};
    }
    assert DetectedHook in r ==> p'.detectedAt.Some?;
    assert ConfirmedHook in r ==> p'.status == Confirmed;
  }

  lemma WriteStepOk(cfg: Config, s: State, t: Task, i: Input)
    requires RowOk(s.row) && FreshOk(s.row, t) && HooksOk(s.row, s.outbox, [], s.lost) && t.RecWrite?
    ensures StepOk(s, t, ReconcileStep(cfg, s, t, i))
  {
    var f := ReconcileStep(cfg, s, t, i);
    if i.Go? && !i.fault.ErrorBefore? {
      var hooks := ReconcileHooks(cfg, t.snap, t.head, t.transfers, t.now);
      ReconciledRowOk(cfg, s.row, t.head, t.transfers, t.now);
      HooksGrow(s.row, f.row, s.outbox, hooks, s.lost);
      assert s.outbox + [] == s.outbox;
      DropHooks(f.row, s.outbox, hooks, s.lost);
    }
  }

  /** Losing pending hooks leaves the rest orderly. */
  lemma DropHooks(p: PayIn, outbox: seq<Hook>, pending: seq<Hook>, lost: bool)
    requires HooksOk(p, outbox, pending, lost)
    ensures HooksOk(p, outbox, [], true) && (pending == [] ==> HooksOk(p, outbox, [], lost))
  {
    assert outbox + [] == outbox;
    assert outbox == (outbox + pending)[..|outbox|];
    assert forall h :: h in outbox ==> h in outbox + pending;
    var full := outbox + pending;
    assert full[..0] == [] && (|full| > 0 ==> full[..1] == [full[0]]) && full[..|full|] == full;
    assert |full| <= 2;
  }

  lemma AcceptStepOk(s: State, t: Task, i: Input)
    requires RowOk(s.row) && FreshOk(s.row, t) && HooksOk(s.row, s.outbox, [], s.lost) && (t.AccRead? || t.AccWrite?)
    ensures StepOk(s, t, AcceptStep(s, t, i))
  {
    var f := AcceptStep(s, t, i);
    if t.AccWrite? && i.Go? && !i.fault.ErrorBefore? && Allows(ACCEPTABLE, s.row) {
      assert Due(f.row) == Due(s.row) + [ConfirmedHook];
      HooksGrow(s.row, f.row, s.outbox, [ConfirmedHook], s.lost);
      assert s.outbox + [] == s.outbox;
      DropHooks(f.row, s.outbox, [ConfirmedHook], s.lost);
    }
  }

  lemma NotifyStepOk(s: State, t: Task, i: Input)
    requires RowOk(s.row) && s.row.terms.clientId.Some? && t.Notify? && HooksOk(s.row, s.outbox, t.hooks, s.lost)
    ensures StepOk(s, t, NotifyStep(s, t, i))
  {
    if i.Go? && t.audited && t.hooks != [] {
      EnqueueStepOk(s, t, i);
    } else {
      assert s.outbox + [] == s.outbox;
      DropHooks(s.row, s.outbox, t.hooks, s.lost);
    }
  }

  lemma EnqueueStepOk(s: State, t: Task, i: Input)
    requires RowOk(s.row) && s.row.terms.clientId.Some? && t.Notify? && HooksOk(s.row, s.outbox, t.hooks, s.lost)
    requires i.Go? && t.audited && t.hooks != []
    ensures StepOk(s, t, NotifyStep(s, t, i))
  {
    if i.fault.ErrorBefore? {
      assert s.outbox + [] == s.outbox;
      DropHooks(s.row, s.outbox, t.hooks, s.lost);
      SkipHook(s.row, s.outbox, t.hooks);
    } else {
      assert s.outbox + t.hooks == s.outbox + [t.hooks[0]] + t.hooks[1..];
    }
  }

  lemma SkipHook(p: PayIn, outbox: seq<Hook>, pending: seq<Hook>)
    requires Orderly(p, outbox + pending) && pending != []
    ensures Orderly(p, outbox + pending[1..])
  {
    var (full, rest) := (outbox + pending, outbox + pending[1..]);
    assert forall h :: h in rest ==> h in full;
    assert |full| <= 2 && |rest| == |full| - 1;
    assert |full| == 2 ==> rest == [full[0]] || rest == [full[1]];
    assert |full| == 1 ==> rest == [];
  }

  /** A sweep step touches the sweep columns only. */
  lemma SweepTouchesSweepColumns(s: State, t: Task, i: Input)
    requires FreshOk(s.row, t)
    requires t.SweepRead? || t.SweepSend? || t.SweepWrite? || t.SweepAudit? || t.SweepFail? || t.SweepSkip?
    ensures var f := SweepStep(s, t, i);
            && f.enqueued == [] && !f.lost && !f.task.Notify? && FreshOk(f.row, f.task)
            && f.row == s.row.(sweepStatus := f.row.sweepStatus, sweepHash := f.row.sweepHash, sweptAtomic := f.row.sweptAtomic,
                               sweptAt := f.row.sweptAt, sweepFailure := f.row.sweepFailure)
  {
  }

  lemma SweepStepOk(s: State, t: Task, i: Input)
    requires RowOk(s.row) && FreshOk(s.row, t) && HooksOk(s.row, s.outbox, [], s.lost)
    requires t.SweepRead? || t.SweepSend? || t.SweepWrite? || t.SweepAudit? || t.SweepFail? || t.SweepSkip?
    ensures StepOk(s, t, SweepStep(s, t, i))
  {
    SweepTouchesSweepColumns(s, t, i);
  }

  lemma LiveStepOk(cfg: Config, s: State, t: Task, i: Input)
    requires RowOk(s.row) && s.row.terms.clientId.Some? && t != Done && FreshOk(s.row, t)
    requires HooksOk(s.row, s.outbox, if t.Notify? then t.hooks else [], s.lost)
    ensures StepOk(s, t, TaskStep(cfg, s, t, i))
  {
    assert s.outbox + [] == s.outbox;
    if t.RecWrite? {
      WriteStepOk(cfg, s, t, i);
    } else if t.RecRead? || t.RecHead? || t.RecScan? {
      ReadStepOk(cfg, s, t, i);
    } else if t.AccRead? || t.AccWrite? {
      AcceptStepOk(s, t, i);
    } else if t.Notify? {
      NotifyStepOk(s, t, i);
    } else {
      SweepStepOk(s, t, i);
    }
  }

  lemma StepKeepsSInv(cfg: Config, s: State, tid: TaskId, i: Input)
    requires SInv(s) && Live(s, tid)
    ensures SInv(Apply(cfg, s, Step(tid, i)))
    ensures s.row.status == Confirmed ==> Apply(cfg, s, Step(tid, i)).row.status == Confirmed
  {
    var s', t := Apply(cfg, s, Step(tid, i)), s.tasks[tid];
    assert FreshOk(s.row, t);
    assert !t.Notify? ==> forall u :: Live(s, u) ==> !s.tasks[u].Notify?;
    LiveStepOk(cfg, s, t, i);
    var f := TaskStep(cfg, s, t, i);
    assert s'.outbox == Both(s.outbox, f.enqueued) && s'.tasks[tid] == f.task;
    assert f.task.Notify? ==> Live(s', tid);
    forall u | Live(s', u)
      ensures u == tid
    {
      if u != tid {
        assert Live(s, u);
      }
    }
  }

  lemma EventKeepsSInv(cfg: Config, s: State, e: Event)
    requires SInv(s) && SerialEvent(s, e)
    ensures SInv(Apply(cfg, s, e))
    ensures s.row.status == Confirmed ==> Apply(cfg, s, e).row.status == Confirmed
  {
    var s' := Apply(cfg, s, e);
    if e.Step? && Live(s, e.tid) {
      StepKeepsSInv(cfg, s, e.tid, e.input);
    } else if e.Step? {
      assert s.outbox + [] == s.outbox;
      assert e.tid in s.tasks ==> s'.tasks == s.tasks;
    } else if e.Start? && e.tid !in s.tasks {
      assert forall u :: Live(s', u) ==> u == e.tid;
    } else {
      assert forall u :: Live(s', u) <==> Live(s, u);
    }
  }

  /** In every serialised run of reconciles, acceptances and sweeps on a pay-in that
      belongs to a client: what is enqueued is at most `detected` then `confirmed`,
      each once and only after it happened; and unless an audit, enqueue or database
      failure lost one, the enqueued sequence is a prefix of exactly those. */
  lemma {:induction false} WebhooksComeOnceAndInOrder(cfg: Config, s: State, es: seq<Event>)
    requires Initial(s) && s.row.terms.clientId.Some? && Serial(cfg, s, es)
    ensures var s' := Exec(cfg, s, es);
            && SInv(s')
            && s'.outbox in {[], [DetectedHook], [ConfirmedHook], [DetectedHook, ConfirmedHook]}
            && (!s'.lost ==> s'.outbox <= Due(s'.row) <= [DetectedHook, ConfirmedHook])
  {
    if |es| == 0 {
      assert s.outbox + [] == [];
    } else {
      WebhooksComeOnceAndInOrder(cfg, s, es[..|es| - 1]);
      EventKeepsSInv(cfg, Exec(cfg, s, es[..|es| - 1]), es[|es| - 1]);
    }
    OutboxOk(Exec(cfg, s, es));
  }

  lemma OutboxOk(s: State)
    requires SInv(s)
    ensures s.outbox in {[], [DetectedHook], [ConfirmedHook], [DetectedHook, ConfirmedHook]}
    ensures !s.lost ==> s.outbox <= Due(s.row) <= [DetectedHook, ConfirmedHook]
  {
    assert s.row.status == Confirmed ==> s.row.detectedAt.Some?;
    assert Due(s.row) <= [DetectedHook, ConfirmedHook];
    if t :| Live(s, t) && s.tasks[t].Notify? {
      DropHooks(s.row, s.outbox, s.tasks[t].hooks, s.lost);
      assert s.outbox <= s.outbox + s.tasks[t].hooks;
    }
    assert s.outbox + [] == s.outbox;
  }
}
