/** When a confirmed pay-in stays confirmed. */
module PayInAbsorption {
  import opened Common
  import opened ChainScan
  import opened PayInLedger
  import opened PayInProtocol
  import PayInScan
  import PayInSerial
  import PayInSweeps

  /** Whether a reconcile that found these transfers up to `head` confirms. The time
      only tells expired from pending. */
  predicate Confirms(cfg: Config, t: Terms, ts: seq<Transfer>, head: nat) {
    Classify(cfg, t, ts, head, 0) == Confirmed
  }

  lemma TimeDoesNotMatter(cfg: Config, t: Terms, ts: seq<Transfer>, head: nat, now: Time)
    ensures Classify(cfg, t, ts, head, now) == Confirmed <==> Confirms(cfg, t, ts, head)
  {
  }

  /** The transfers a scan under way will end with, which the chain has already settled. */
  function Verdict(s: State, t: Task): seq<Transfer>
    requires t.RecScan?
  {
    Merged(t.snap.transfers + (t.found + Between(Matching(s.logs, t.snap.terms.watch), t.next, t.head)))
  }

  /** The task will not take a confirmation back: it is no reconcile between its read and
      its head, and one past that is going to write `confirmed` itself. */
  ghost predicate Harmless(cfg: Config, s: State, t: Task) {
    && !t.RecHead?
    && (t.RecScan? ==> Confirms(cfg, t.snap.terms, Verdict(s, t), t.head))
    && (t.RecWrite? ==> Confirms(cfg, t.snap.terms, t.transfers, t.head))
  }

  ghost predicate Firm(cfg: Config, s: State) {
    s.row.status == Confirmed && forall t :: t in s.tasks ==> Harmless(cfg, s, s.tasks[t])
  }

  /** What holds of every reachable task: heads come from the chain, and a sweep write
      carries no status. */
  ghost predicate SaneTask(head: nat, t: Task) {
    (t.RecScan? ==> t.head <= head) && (t.SweepWrite? ==> t.d.status.None?)
  }

  ghost predicate Sane(s: State) {
    ChainOk(s.logs, s.head) && forall t :: t in s.tasks ==> SaneTask(s.head, s.tasks[t])
  }

  lemma StepIsSane(cfg: Config, s: State, t: Task, i: Input)
    requires SaneTask(s.head, t)
    ensures SaneTask(s.head, TaskStep(cfg, s, t, i).task)
  {
  }

  lemma EventIsSane(cfg: Config, s: State, e: Event)
    requires Sane(s)
    ensures Sane(Apply(cfg, s, e))
  {
    if e.Mine? && Appendable(s.logs, s.head, e.block) {
      PayInScan.MineKeepsChain(s.logs, s.head, e.block);
    } else if e.Step? && e.tid in s.tasks {
      StepIsSane(cfg, s, s.tasks[e.tid], e.input);
    }
  }

  lemma {:induction false} RunsAreSane(cfg: Config, s: State, es: seq<Event>)
    requires Sane(s)
    ensures Sane(Exec(cfg, s, es))
  {
    if |es| > 0 {
      RunsAreSane(cfg, s, es[..|es| - 1]);
      EventIsSane(cfg, Exec(cfg, s, es[..|es| - 1]), es[|es| - 1]);
    }
  }

  // ---- A scan's verdict ----------------------------------------------------

  function PageEnd(next: nat, head: nat): nat {
    if next + PAGE_BLOCKS - 1 < head then next + PAGE_BLOCKS - 1 else head
  }

  lemma PageKeepsVerdict(s: State, t: Task)
    requires ChainOk(s.logs, s.head) && t.RecScan? && t.next <= t.head
    ensures var to := PageEnd(t.next, t.head);
            Verdict(s, t) == Verdict(s, t.(next := to + 1, found := t.found + Between(Matching(s.logs, t.snap.terms.watch), t.next, to)))
  {
    var (m, to) := (Matching(s.logs, t.snap.terms.watch), PageEnd(t.next, t.head));
    PayInScan.MatchingInOrder(s.logs, t.snap.terms.watch);
    BetweenSplit(m, t.next, to, t.head);
    assert t.found + Between(m, t.next, to) + Between(m, to + 1, t.head)
           == t.found + (Between(m, t.next, to) + Between(m, to + 1, t.head));
  }

  lemma VerdictAtTheEnd(s: State, t: Task)
    requires t.RecScan? && t.next > t.head
    ensures Verdict(s, t) == Merged(t.snap.transfers + t.found)
  {
    NothingBetween(Matching(s.logs, t.snap.terms.watch), t.next, t.head);
    assert t.found + [] == t.found;
  }

  lemma MiningKeepsVerdict(s: State, block: seq<Log>, t: Task)
    requires t.RecScan? && t.head <= s.head && Appendable(s.logs, s.head, block)
    ensures Verdict(s.(logs := s.logs + block, head := s.head + 1), t) == Verdict(s, t)
  {
    PayInScan.OldRangesAreStable(s.logs, block, t.snap.terms.watch, t.next, t.head);
  }

  // ---- Firm confirmations --------------------------------------------------

  lemma ScanKeepsHarmless(cfg: Config, s: State, t: Task, i: Input)
    requires ChainOk(s.logs, s.head) && t.RecScan? && Harmless(cfg, s, t)
    ensures var f := ReconcileStep(cfg, s, t, i); f.row == s.row && Harmless(cfg, s, f.task)
  {
    if i.Go? && t.next <= t.head {
      PageKeepsVerdict(s, t);
    } else if i.Go? {
      VerdictAtTheEnd(s, t);
    }
  }

  lemma StepKeepsFirm(cfg: Config, s: State, t: Task, i: Input)
    requires s.row.status == Confirmed && ChainOk(s.logs, s.head) && SaneTask(s.head, t) && Harmless(cfg, s, t)
    ensures var f := TaskStep(cfg, s, t, i); f.row.status == Confirmed && Harmless(cfg, s, f.task)
  {
    if t.RecScan? {
      ScanKeepsHarmless(cfg, s, t, i);
    } else if t.RecWrite? {
      TimeDoesNotMatter(cfg, t.snap.terms, t.transfers, t.head, t.now);
    }
  }

  lemma SameChainSameHarm(cfg: Config, s: State, s': State, t: Task)
    requires s'.logs == s.logs
    ensures Harmless(cfg, s, t) <==> Harmless(cfg, s', t)
  {
  }

  lemma EventKeepsFirm(cfg: Config, s: State, e: Event)
    requires Sane(s) && Firm(cfg, s)
    ensures Firm(cfg, Apply(cfg, s, e))
  {
    var s' := Apply(cfg, s, e);
    if e.Step? && e.tid in s.tasks {
      StepKeepsFirm(cfg, s, s.tasks[e.tid], e.input);
    }
    forall t | t in s'.tasks
      ensures Harmless(cfg, s', s'.tasks[t])
    {
      if e.Mine? && Appendable(s.logs, s.head, e.block) {
        if s.tasks[t].RecScan? {
          MiningKeepsVerdict(s, e.block, s.tasks[t]);
        }
      } else {
        SameChainSameHarm(cfg, s, s', s'.tasks[t]);
      }
    }
  }

  /** From then on, in every interleaving of any requests, it stays confirmed. */
  lemma {:induction false} FirmConfirmationIsAbsorbing(cfg: Config, s: State, es: seq<Event>)
    requires Sane(s) && Firm(cfg, s)
    ensures Firm(cfg, Exec(cfg, s, es))
  {
    if |es| > 0 {
      FirmConfirmationIsAbsorbing(cfg, s, es[..|es| - 1]);
      RunsAreSane(cfg, s, es[..|es| - 1]);
      EventKeepsFirm(cfg, Exec(cfg, s, es[..|es| - 1]), es[|es| - 1]);
    }
  }

  // ---- And only those ------------------------------------------------------

  lemma Prepended(cfg: Config, s: State, e: Event, es: seq<Event>)
    ensures Exec(cfg, s, [e] + es) == Exec(cfg, Apply(cfg, s, e), es)
  {
    assert [e][..0] == [] && Exec(cfg, s, [e]) == Apply(cfg, s, e);
    ExecConcat(cfg, s, [e], es);
  }

  lemma ScanGoes(cfg: Config, s: State, tid: TaskId)
    requires tid in s.tasks && s.tasks[tid].RecScan?
    ensures var (t, to) := (s.tasks[tid], PageEnd(s.tasks[tid].next, s.tasks[tid].head));
            var next := if t.next <= t.head
                        then t.(next := to + 1, found := t.found + Between(Matching(s.logs, t.snap.terms.watch), t.next, to))
                        else RecWrite(t.snap, t.head, Merged(t.snap.transfers + t.found), 0);
            Apply(cfg, s, Step(tid, Go(Clean, 0))) == s.(tasks := s.tasks[tid := next])
  {
    assert s.outbox + [] == s.outbox;
  }

  /** The state a scan, left alone, leads to. */
  ghost predicate EndsScan(s: State, tid: TaskId, end: State)
    requires tid in s.tasks && s.tasks[tid].RecScan?
  {
    var t := s.tasks[tid];
    end == s.(tasks := s.tasks[tid := RecWrite(t.snap, t.head, Verdict(s, t), 0)])
  }

  lemma LastStepEndsScan(cfg: Config, s: State, tid: TaskId)
    requires tid in s.tasks && s.tasks[tid].RecScan? && s.tasks[tid].next > s.tasks[tid].head
    ensures EndsScan(s, tid, Apply(cfg, s, Step(tid, Go(Clean, 0))))
  {
    ScanGoes(cfg, s, tid);
    VerdictAtTheEnd(s, s.tasks[tid]);
  }

  lemma PageLeavesScan(cfg: Config, s: State, tid: TaskId, end: State)
    requires ChainOk(s.logs, s.head) && tid in s.tasks && s.tasks[tid].RecScan? && s.tasks[tid].next <= s.tasks[tid].head
    ensures var (t, s1) := (s.tasks[tid], Apply(cfg, s, Step(tid, Go(Clean, 0))));
            && s1.logs == s.logs && s1.head == s.head && tid in s1.tasks && s1.tasks[tid].RecScan?
            && s1.tasks[tid].head == t.head && s1.tasks[tid].next == PageEnd(t.next, t.head) + 1
            && (EndsScan(s1, tid, end) ==> EndsScan(s, tid, end))
  {
    ScanGoes(cfg, s, tid);
    PageKeepsVerdict(s, s.tasks[tid]);
    var s1 := Apply(cfg, s, Step(tid, Go(Clean, 0)));
    assert Verdict(s1, s1.tasks[tid]) == Verdict(s, s1.tasks[tid]);
    var w := RecWrite(s.tasks[tid].snap, s.tasks[tid].head, Verdict(s, s.tasks[tid]), 0);
    assert s1.tasks[tid := w] == s.tasks[tid := w];
  }

  /** Left alone, a scan ends in its verdict. */
  lemma {:induction false} FinishScan(cfg: Config, s: State, tid: TaskId) returns (es: seq<Event>)
    requires ChainOk(s.logs, s.head) && tid in s.tasks && s.tasks[tid].RecScan?
    ensures EndsScan(s, tid, Exec(cfg, s, es))
    decreases if s.tasks[tid].next <= s.tasks[tid].head then s.tasks[tid].head - s.tasks[tid].next + 1 else 0
  {
    var go := Step(tid, Go(Clean, 0));
    var more: seq<Event> := [];
    if s.tasks[tid].next > s.tasks[tid].head {
      LastStepEndsScan(cfg, s, tid);
    } else {
      PageLeavesScan(cfg, s, tid, s);
      more := FinishScan(cfg, Apply(cfg, s, go), tid);
      PageLeavesScan(cfg, s, tid, Exec(cfg, Apply(cfg, s, go), more));
    }
    Prepended(cfg, s, go, more);
    es := [go] + more;
  }

  lemma WriteUndoes(cfg: Config, s: State, tid: TaskId) returns (es: seq<Event>)
    requires tid in s.tasks && s.tasks[tid].RecWrite? && !Harmless(cfg, s, s.tasks[tid])
    ensures Exec(cfg, s, es).row.status != Confirmed
  {
    var t := s.tasks[tid];
    TimeDoesNotMatter(cfg, t.snap.terms, t.transfers, t.head, t.now);
    PendingReconcileDecides(cfg, s, tid, Clean, 0);
    Prepended(cfg, s, Step(tid, Go(Clean, 0)), []);
    es := [Step(tid, Go(Clean, 0))] + [];
  }

  lemma ScanUndoes(cfg: Config, s: State, tid: TaskId) returns (es: seq<Event>)
    requires ChainOk(s.logs, s.head) && tid in s.tasks && s.tasks[tid].RecScan? && !Harmless(cfg, s, s.tasks[tid])
    ensures Exec(cfg, s, es).row.status != Confirmed
  {
    var scan := FinishScan(cfg, s, tid);
    var write := WriteUndoes(cfg, Exec(cfg, s, scan), tid);
    ExecConcat(cfg, s, scan, write);
    es := scan + write;
  }

  /** Nothing is confirmed at block 0. */
  lemma HeadZeroNeverConfirms(cfg: Config, t: Terms, ts: seq<Transfer>)
    ensures !Confirms(cfg, t, ts, 0)
  {
    PayInSerial.EnoughMeansEveryTransferDeep(cfg, ts, 0);
    if ts != [] {
      assert ts[0] in ts;
    }
  }

  /** A confirmation that is not firm can be lost: a reconcile past its read is still to
      be given its head, which may lag, or its scan or write is bound to say otherwise. */
  lemma InfirmConfirmationCanBeUndone(cfg: Config, s: State) returns (es: seq<Event>)
    requires Sane(s) && s.row.status == Confirmed && !Firm(cfg, s)
    ensures Exec(cfg, s, es).row.status != Confirmed
  {
    var tid :| tid in s.tasks && !Harmless(cfg, s, s.tasks[tid]);
    if s.tasks[tid].RecHead? {
      var late := Step(tid, Head(0));
      var s1 := Apply(cfg, s, late);
      HeadZeroNeverConfirms(cfg, s1.tasks[tid].snap.terms, Verdict(s1, s1.tasks[tid]));
      var more := ScanUndoes(cfg, s1, tid);
      Prepended(cfg, s, late, more);
      es := [late] + more;
    } else if s.tasks[tid].RecScan? {
      es := ScanUndoes(cfg, s, tid);
    } else {
      es := WriteUndoes(cfg, s, tid);
    }
  }

  /** A reconcile waiting to write settles the status by its own classification alone,
      whatever the row says by then. */
  lemma PendingReconcileDecides(cfg: Config, s: State, tid: TaskId, fault: Fault, now: Time)
    requires tid in s.tasks && s.tasks[tid].RecWrite? && !fault.ErrorBefore?
    ensures var t := s.tasks[tid];
            Apply(cfg, s, Step(tid, Go(fault, now))).row.status == Classify(cfg, t.snap.terms, t.transfers, t.head, t.now)
  {
  }

  /** One step takes a confirmed pay-in out of confirmed exactly when it is the write of
      a reconcile that classified otherwise. */
  lemma StepUndoesIff(cfg: Config, s: State, t: Task, i: Input)
    requires s.row.status == Confirmed && (t.SweepWrite? ==> t.d.status.None?)
    ensures TaskStep(cfg, s, t, i).row.status != Confirmed <==>
            && t.RecWrite? && Classify(cfg, t.snap.terms, t.transfers, t.head, t.now) != Confirmed
            && i.Go? && !i.fault.ErrorBefore?
  {
  }

  // ---- Reachable states ----------------------------------------------------

  /** A reconcile has read the pay-in and has not written yet. */
  predicate UnderWay(t: Task) {
    t.RecHead? || t.RecScan? || t.RecWrite?
  }

  lemma {:induction false} ExecConcat(cfg: Config, s: State, es: seq<Event>, more: seq<Event>)
    ensures Exec(cfg, s, es + more) == Exec(cfg, Exec(cfg, s, es), more)
  {
    if |more| == 0 {
      assert es + more == es;
    } else {
      assert (es + more)[..|es + more| - 1] == es + more[..|more| - 1];
      ExecConcat(cfg, s, es, more[..|more| - 1]);
    }
  }

  /** Once a pay-in is confirmed at a moment when no reconcile of it is under way, it is
      confirmed for good: no serialisation, whoever it belongs to. */
  lemma ConfirmedWhileIdleIsAbsorbing(cfg: Config, s: State, es: seq<Event>, more: seq<Event>)
    requires Initial(s) && Exec(cfg, s, es).row.status == Confirmed
    requires forall t :: t in Exec(cfg, s, es).tasks ==> !UnderWay(Exec(cfg, s, es).tasks[t])
    ensures Exec(cfg, s, es + more).row.status == Confirmed
  {
    RunsAreSane(cfg, s, es);
    FirmConfirmationIsAbsorbing(cfg, Exec(cfg, s, es), more);
    ExecConcat(cfg, s, es, more);
  }

  ghost predicate OneAtATime(s: State) {
    && (forall t, u :: t in s.tasks && u in s.tasks && s.tasks[t] != Done && s.tasks[u] != Done ==> t == u)
    && (forall t :: t in s.tasks && UnderWay(s.tasks[t]) ==> s.row.status != Confirmed)
  }

  lemma StepIsSerial(cfg: Config, s: State, t: Task, i: Input)
    requires t != Done && (UnderWay(t) ==> s.row.status != Confirmed)
    ensures var f := TaskStep(cfg, s, t, i); UnderWay(f.task) ==> f.row.status != Confirmed
  {
  }

  lemma EventIsSerial(cfg: Config, s: State, e: Event)
    requires OneAtATime(s) && PayInSerial.SerialEvent(s, e)
    ensures OneAtATime(Apply(cfg, s, e))
  {
    if e.Step? && e.tid in s.tasks {
      var t := s.tasks[e.tid];
      if t == Done {
        assert Apply(cfg, s, e).tasks == s.tasks;
      } else {
        StepIsSerial(cfg, s, t, e.input);
        assert forall u :: u in s.tasks && u != e.tid ==> s.tasks[u] == Done;
      }
    }
  }

  lemma {:induction false} SerialRuns(cfg: Config, s: State, es: seq<Event>)
    requires Initial(s) && PayInSerial.Serial(cfg, s, es)
    ensures OneAtATime(Exec(cfg, s, es))
  {
    if |es| > 0 {
      SerialRuns(cfg, s, es[..|es| - 1]);
      EventIsSerial(cfg, Exec(cfg, s, es[..|es| - 1]), es[|es| - 1]);
    }
  }

  /** In particular, with serialised requests, confirmed is absorbing: whatever happens
      after the serialised part. */
  lemma SerialConfirmedIsAbsorbing(cfg: Config, s: State, es: seq<Event>, more: seq<Event>)
    requires Initial(s) && PayInSerial.Serial(cfg, s, es) && Exec(cfg, s, es).row.status == Confirmed
    ensures Exec(cfg, s, es + more).row.status == Confirmed
  {
    SerialRuns(cfg, s, es);
    ConfirmedWhileIdleIsAbsorbing(cfg, s, es, more);
  }
}
