/** Serialised and with a head that never goes back, each reconcile stores what one
    full scan from startBlock to its head would give. */
module PayInFullScan {
  import opened Common
  import opened ChainScan
  import opened PayInLedger
  import opened PayInProtocol
  import opened PayInScan
  import opened PayInSerial

  /** A head reported to a reconcile is not behind what was scanned before, nor
      behind the block the pay-in was created at. */
  ghost predicate MonotoneEvent(s: State, e: Event) {
    e.Step? && e.tid in s.tasks && s.tasks[e.tid].RecHead? && e.input.Head? ==>
      s.row.terms.startBlock <= e.input.head && (s.row.lastScanned.Some? ==> s.row.lastScanned.value <= e.input.head)
  }

  ghost predicate Orderly(cfg: Config, s: State, es: seq<Event>) {
    || |es| == 0
    || var (s', e) := (Exec(cfg, s, es[..|es| - 1]), es[|es| - 1]);
       Orderly(cfg, s, es[..|es| - 1]) && SerialEvent(s', e) && MonotoneEvent(s', e)
  }

  /** How far the row has been scanned. */
  function Cursor(p: PayIn): int {
    if p.lastScanned.Some? then p.lastScanned.value else p.terms.startBlock - 1
  }

  ghost predicate TaskFresh(s: State, t: Task) {
    && (t.RecHead? || t.RecScan? || t.RecWrite? ==> t.snap == s.row)
    && (t.RecScan? ==> Cursor(s.row) <= t.head)
    && (t.RecWrite? ==> Covers(s.logs, s.head, s.row.terms, t.transfers, t.head))
  }

  ghost predicate MInv(s: State) {
    && Inv(s)
    && (forall t, u :: Live(s, t) && Live(s, u) ==> t == u)
    && Covers(s.logs, s.head, s.row.terms, s.row.transfers, Cursor(s.row))
    && (forall t :: t in s.tasks ==> TaskFresh(s, s.tasks[t]))
  }

  lemma MineKeepsMInv(s: State, block: seq<Log>)
    requires MInv(s) && Appendable(s.logs, s.head, block)
    ensures MInv(s.(logs := s.logs + block, head := s.head + 1))
  {
    var s' := s.(logs := s.logs + block, head := s.head + 1);
    MineKeepsInv(s, block);
    CoversLater(s.logs, s.head, block, s.row.terms, s.row.transfers, Cursor(s.row));
    forall t | t in s'.tasks
      ensures TaskFresh(s', s'.tasks[t])
    {
      assert TaskFresh(s, s.tasks[t]);
      if s.tasks[t].RecWrite? {
        CoversLater(s.logs, s.head, block, s.row.terms, s.tasks[t].transfers, s.tasks[t].head);
      }
    }
    assert forall t :: Live(s', t) <==> Live(s, t);
  }

  lemma FreshScanCovers(s: State, t: Task)
    requires Inv(s) && t.RecScan? && TaskOk(s, t) && TaskFresh(s, t) && t.next > t.head
    requires Covers(s.logs, s.head, s.row.terms, s.row.transfers, Cursor(s.row))
    ensures Covers(s.logs, s.head, s.row.terms, Merged(t.snap.transfers + t.found), t.head)
  {
    var from :| ScannedFrom(s, t.snap, t.head, t.next, t.found, from);
    MergeCovers(s.logs, s.head, s.row.terms, s.row.transfers, Cursor(s.row), from, t.head);
  }

  ghost predicate StepFresh(s: State, f: Effect) {
    && f.row.terms == s.row.terms
    && Covers(s.logs, s.head, s.row.terms, f.row.transfers, Cursor(f.row))
    && TaskFresh(s.(row := f.row), f.task)
  }

  lemma ReconcileStepFresh(cfg: Config, s: State, t: Task, i: Input)
    requires Inv(s) && TaskOk(s, t) && TaskFresh(s, t) && Covers(s.logs, s.head, s.row.terms, s.row.transfers, Cursor(s.row))
    requires t.RecRead? || t.RecHead? || t.RecScan? || t.RecWrite?
    requires t.RecHead? && i.Head? ==> Cursor(s.row) <= i.head
    ensures StepFresh(s, ReconcileStep(cfg, s, t, i))
  {
    if t.RecScan? && t.next > t.head {
      FreshScanCovers(s, t);
    }
  }

  lemma OtherStepFresh(cfg: Config, s: State, t: Task, i: Input)
    requires TaskOk(s, t) && Covers(s.logs, s.head, s.row.terms, s.row.transfers, Cursor(s.row))
    requires !(t.RecRead? || t.RecHead? || t.RecScan? || t.RecWrite?)
    ensures StepFresh(s, TaskStep(cfg, s, t, i))
  {
    OtherStepOk(cfg, s, t, i);
    StartsNoScan(cfg, s, t, i);
  }

  lemma StartsNoScan(cfg: Config, s: State, t: Task, i: Input)
    requires !(t.RecRead? || t.RecHead? || t.RecScan? || t.RecWrite?)
    ensures var t' := TaskStep(cfg, s, t, i).task; !t'.RecHead? && !t'.RecScan? && !t'.RecWrite?
  {
  }

  /** What the live request's step leaves: an exact row and a fresh task. */
  lemma LiveStepFresh(cfg: Config, s: State, tid: TaskId, i: Input)
    requires MInv(s) && Live(s, tid) && MonotoneEvent(s, Step(tid, i))
    ensures StepFresh(s, TaskStep(cfg, s, s.tasks[tid], i))
  {
    var t := s.tasks[tid];
    if t.RecRead? || t.RecHead? || t.RecScan? || t.RecWrite? {
      ReconcileStepFresh(cfg, s, t, i);
    } else {
      OtherStepFresh(cfg, s, t, i);
    }
  }

  lemma LiveStepKeepsMInv(cfg: Config, s: State, tid: TaskId, i: Input)
    requires MInv(s) && Live(s, tid) && MonotoneEvent(s, Step(tid, i)) && Inv(Apply(cfg, s, Step(tid, i)))
    ensures MInv(Apply(cfg, s, Step(tid, i)))
  {
    var s' := Apply(cfg, s, Step(tid, i));
    LiveStepFresh(cfg, s, tid, i);
    forall u | u in s'.tasks
      ensures TaskFresh(s', s'.tasks[u]) && (Live(s', u) ==> u == tid)
    {
      if u != tid {
        assert s'.tasks[u] == s.tasks[u];
        assert !Live(s, u);
      }
    }
  }

  lemma StartKeepsMInv(cfg: Config, s: State, tid: TaskId, op: Operation)
    requires MInv(s) && SerialEvent(s, Start(tid, op)) && Inv(Apply(cfg, s, Start(tid, op)))
    ensures MInv(Apply(cfg, s, Start(tid, op)))
  {
    var s' := Apply(cfg, s, Start(tid, op));
    if tid !in s.tasks {
      assert forall u :: Live(s', u) ==> u == tid;
      assert forall u :: u in s.tasks ==> TaskFresh(s, s.tasks[u]) && TaskFresh(s', s.tasks[u]);
    }
  }

  lemma EventKeepsMInv(cfg: Config, s: State, e: Event)
    requires MInv(s) && SerialEvent(s, e) && MonotoneEvent(s, e) && HeadFits(cfg, s, e)
    ensures MInv(Apply(cfg, s, e))
  {
    var s' := Apply(cfg, s, e);
    EventKeepsInv(cfg, s, e);
    if e.Mine? {
      if Appendable(s.logs, s.head, e.block) {
        MineKeepsMInv(s, e.block);
      }
    } else if e.Start? {
      StartKeepsMInv(cfg, s, e.tid, e.op);
    } else if e.Step? && Live(s, e.tid) {
      LiveStepKeepsMInv(cfg, s, e.tid, e.input);
    } else if e.Step? && e.tid in s.tasks {
      assert s.outbox + [] == s.outbox;
      assert s'.tasks == s.tasks && s' == s;
    }
  }

  lemma {:induction false} OrderlyRunsStayExact(cfg: Config, s: State, es: seq<Event>)
    requires Initial(s) && ReadsEverything(cfg, s, es) && Orderly(cfg, s, es)
    ensures MInv(Exec(cfg, s, es)) && Exec(cfg, s, es).row.terms == s.row.terms
  {
    if |es| == 0 {
      InitialInv(s);
      NothingBetween(Matching(s.logs, s.row.terms.watch), s.row.terms.startBlock, s.row.terms.startBlock - 1);
    } else {
      OrderlyRunsStayExact(cfg, s, es[..|es| - 1]);
      LastEventFits(cfg, s, es);
      EventKeepsMInv(cfg, Exec(cfg, s, es[..|es| - 1]), es[|es| - 1]);
      EventKeepsInv(cfg, Exec(cfg, s, es[..|es| - 1]), es[|es| - 1]);
    }
  }

  /** What one unpaginated, undeduplicated scan of the whole life of the pay-in gives. */
  function FullScan(logs: seq<Log>, t: Terms, head: nat): seq<Transfer> {
    Between(Matching(logs, t.watch), t.startBlock, head)
  }

  lemma {:induction false} BetweenNoDup(ts: seq<Transfer>, a: nat, b: int)
    requires NoDup(ts)
    ensures NoDup(Between(ts, a, b))
  {
    if |ts| > 0 {
      var n := |ts| - 1;
      BetweenNoDup(ts[..n], a, b);
      BetweenElems(ts[..n], a, b);
      assert forall i :: 0 <= i < n ==> ts[i] == ts[..n][i];
      assert ts[n] !in ts[..n];
    }
  }

  lemma CoveredIsFullScan(logs: seq<Log>, head: nat, t: Terms, ts: seq<Transfer>, h: nat)
    requires ChainOk(logs, head) && Covers(logs, head, t, ts, h)
    ensures multiset(ts) == multiset(FullScan(logs, t, h))
  {
    MatchingKeys(logs, head, t.watch);
    BetweenNoDup(Matching(logs, t.watch), t.startBlock, h);
    assert Elems(ts) == Elems(FullScan(logs, t, h));
    NoDupSameElems(ts, FullScan(logs, t, h));
  }

  /** In every serialised run with non-decreasing heads, the write of a reconcile
      stores the total and the status that classifying one full scan from startBlock
      to its head gives; and it confirms only on the exact sum, with every transfer
      at least max(1, minConfirmations) blocks below the head. */
  lemma ReconcileAgreesWithFullScan(cfg: Config, s: State, es: seq<Event>, tid: TaskId, now: Time)
    requires Initial(s) && ReadsEverything(cfg, s, es) && Orderly(cfg, s, es)
    requires tid in Exec(cfg, s, es).tasks && Exec(cfg, s, es).tasks[tid].RecWrite?
    ensures var (s1, t) := (Exec(cfg, s, es), Exec(cfg, s, es).tasks[tid]);
            var row := Apply(cfg, s1, Step(tid, Go(Clean, now))).row;
            var full := FullScan(s1.logs, s.row.terms, t.head);
            && row.receivedAtomic == Total(full) && row.lastScanned == Some(t.head)
            && multiset(row.transfers) == multiset(full)
            && row.status == Classify(cfg, s.row.terms, full, t.head, t.now)
            && (row.status == Confirmed ==>
                  && Total(full) == s.row.terms.expectedAtomic
                  && forall x :: x in full ==>
                       x.block + (if cfg.minConfirmations > 1 then cfg.minConfirmations else 1) <= t.head)
  {
    OrderlyRunsStayExact(cfg, s, es);
    var s1 := Exec(cfg, s, es);
    var t := s1.tasks[tid];
    assert TaskFresh(s1, t);
    var full := FullScan(s1.logs, s.row.terms, t.head);
    CoveredIsFullScan(s1.logs, s1.head, s.row.terms, t.transfers, t.head);
    ClassifyOfPermutation(cfg, s.row.terms, t.transfers, full, t.head, t.now);
    EnoughMeansEveryTransferDeep(cfg, full, t.head);
  }
}
