/** Sweeps: once recorded, a sweep's record never changes, in any interleaving. */
module PayInSweeps {
  import opened Common
  import opened ChainScan
  import opened PayInLedger
  import opened PayInProtocol

  predicate IsSwept(p: PayIn) {
    p.sweepStatus in {SweepBroadcasted, SweepConfirmed}
  }

  /** Tasks carry only the sweep writes the code builds. */
  ghost predicate SweepTaskOk(p: PayIn, t: Task) {
    && (t.SweepWrite? ==>
          && t.d == NoPatch.(sweepStatus := t.d.sweepStatus, sweepHash := t.d.sweepHash, sweptAtomic := t.d.sweptAtomic,
                             sweptAt := t.d.sweptAt, sweepFailure := t.d.sweepFailure)
          && t.d.sweepStatus in {Some(SweepBroadcasted), Some(SweepConfirmed)}
          && t.d.sweepHash.Some? && t.d.sweepHash.value.Some?)
    && (t.SweepSend? || t.SweepWrite? || t.SweepAudit? || t.SweepFail? ==> p.terms.mode == DerivedAddress)
    && (t.SweepSkip? ==> p.terms.mode == PaymentRouterMode)
  }

  ghost predicate SweepInv(s: State) {
    && (forall t :: t in s.tasks ==> SweepTaskOk(s.row, s.tasks[t]))
    && (s.row.terms.mode == PaymentRouterMode ==> s.row.sweepStatus == NotRequired && s.row.sweepHash.None?)
    && (s.row.terms.mode == DerivedAddress ==> s.row.sweepStatus != NotRequired && (IsSwept(s.row) <==> s.row.sweepHash.Some?))
  }

  /** What a step may do to the sweep columns. */
  ghost predicate SweepKept(p: PayIn, p': PayIn) {
    && p'.terms == p.terms
    && (IsSwept(p) ==> p'.sweepStatus == p.sweepStatus && p'.sweepHash == p.sweepHash && p'.sweptAtomic == p.sweptAtomic && p'.sweptAt == p.sweptAt)
    && (p.terms.mode == PaymentRouterMode && p.sweepStatus == NotRequired && p.sweepHash.None? ==>
          p'.sweepStatus == NotRequired && p'.sweepHash.None?)
  }

  lemma StepKeepsSweep(cfg: Config, s: State, t: Task, i: Input)
    requires SweepInv(s) && SweepTaskOk(s.row, t)
    ensures var f := TaskStep(cfg, s, t, i);
            && SweepKept(s.row, f.row) && SweepTaskOk(f.row, f.task)
            && (s.row.terms.mode == DerivedAddress ==> f.row.sweepStatus != NotRequired && (IsSwept(f.row) <==> f.row.sweepHash.Some?))
  {
    if t.RecRead? || t.RecHead? || t.RecScan? || t.RecWrite? {
      ReconcileTouchesNoSweep(cfg, s, t, i);
    } else if t.AccRead? || t.AccWrite? || t.Notify? || t.Done? {
    } else {
      SweepMoves(s, t, i);
    }
  }

  lemma ReconcileTouchesNoSweep(cfg: Config, s: State, t: Task, i: Input)
    requires t.RecRead? || t.RecHead? || t.RecScan? || t.RecWrite?
    ensures var f := ReconcileStep(cfg, s, t, i);
            && f.row.terms == s.row.terms && f.row.sweepStatus == s.row.sweepStatus && f.row.sweepHash == s.row.sweepHash
            && f.row.sweptAtomic == s.row.sweptAtomic && f.row.sweptAt == s.row.sweptAt
            && !(f.task.SweepWrite? || f.task.SweepSend? || f.task.SweepAudit? || f.task.SweepFail? || f.task.SweepSkip?)
  {
  }

  lemma SweepMoves(s: State, t: Task, i: Input)
    requires SweepInv(s) && SweepTaskOk(s.row, t)
    requires t.SweepRead? || t.SweepSend? || t.SweepWrite? || t.SweepAudit? || t.SweepFail? || t.SweepSkip?
    ensures var f := SweepStep(s, t, i);
            && SweepKept(s.row, f.row) && SweepTaskOk(f.row, f.task)
            && (s.row.terms.mode == DerivedAddress ==> f.row.sweepStatus != NotRequired && (IsSwept(f.row) <==> f.row.sweepHash.Some?))
  {
  }

  lemma EventKeepsSweep(cfg: Config, s: State, e: Event)
    requires SweepInv(s)
    ensures SweepInv(Apply(cfg, s, e)) && SweepKept(s.row, Apply(cfg, s, e).row)
  {
    if e.Step? && e.tid in s.tasks {
      StepKeepsSweep(cfg, s, s.tasks[e.tid], e.input);
    }
  }

  lemma {:induction false} RunKeepsSweepInv(cfg: Config, s: State, es: seq<Event>)
    requires Initial(s)
    ensures SweepInv(Exec(cfg, s, es))
  {
    if |es| > 0 {
      RunKeepsSweepInv(cfg, s, es[..|es| - 1]);
      EventKeepsSweep(cfg, Exec(cfg, s, es[..|es| - 1]), es[|es| - 1]);
    }
  }

  /** In every interleaving of sweeps, failures, reconciles and acceptances: once the
      sweep is broadcasted or confirmed, its hash, amount and time never change. */
  lemma {:induction false} RecordedSweepIsFinal(cfg: Config, s: State, es: seq<Event>, n: nat)
    requires Initial(s) && n <= |es| && IsSwept(Exec(cfg, s, es[..n]).row)
    ensures var (p, p') := (Exec(cfg, s, es[..n]).row, Exec(cfg, s, es).row);
            && p'.sweepStatus == p.sweepStatus && p.sweepHash.Some? && p'.sweepHash == p.sweepHash
            && p'.sweptAtomic == p.sweptAtomic && p'.sweptAt == p.sweptAt
    decreases |es|
  {
    if n == |es| {
      assert es[..n] == es;
      RunKeepsSweepInv(cfg, s, es);
    } else {
      var m := |es| - 1;
      assert es[..m][..n] == es[..n];
      RecordedSweepIsFinal(cfg, s, es[..m], n);
      RunKeepsSweepInv(cfg, s, es[..m]);
      EventKeepsSweep(cfg, Exec(cfg, s, es[..m]), es[m]);
    }
  }

  /** Router pay-ins are never swept. */
  lemma RouterPayInsStayNotRequired(cfg: Config, s: State, es: seq<Event>)
    requires Initial(s) && s.row.terms.mode == PaymentRouterMode
    ensures var p := Exec(cfg, s, es).row; p.sweepStatus == NotRequired && p.sweepHash.None?
  {
    RunKeepsSweepInv(cfg, s, es);
    TermsStay(cfg, s, es);
  }

  lemma {:induction false} TermsStay(cfg: Config, s: State, es: seq<Event>)
    requires Initial(s)
    ensures Exec(cfg, s, es).row.terms == s.row.terms
  {
    if |es| > 0 {
      TermsStay(cfg, s, es[..|es| - 1]);
      RunKeepsSweepInv(cfg, s, es[..|es| - 1]);
      EventKeepsSweep(cfg, Exec(cfg, s, es[..|es| - 1]), es[|es| - 1]);
    }
  }
}
