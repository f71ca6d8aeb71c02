/** When a sweep that is not recorded was sent nevertheless. */
module PayInSweepFailures {
  import opened Common
  import opened PayInLedger
  import opened PayInProtocol
  import opened PayInSweeps

  /** The network takes a sweep transaction, whether or not its sender hears of it. */
  predicate Sends(t: Task, i: Input) {
    t.SweepSend? && (i.Swept? || i == SendError(true))
  }

  /** The record of a sent sweep is lost: the send errs after the network took it, or the
      write of its result errs before it takes effect. */
  predicate Slips(t: Task, i: Input) {
    (t.SweepSend? && i == SendError(true)) || (t.SweepWrite? && i.Go? && i.fault.ErrorBefore?)
  }

  ghost predicate SentAt(cfg: Config, s: State, es: seq<Event>, n: nat)
    requires n < |es|
  {
    var s1 := Exec(cfg, s, es[..n]);
    es[n].Step? && es[n].tid in s1.tasks && Sends(s1.tasks[es[n].tid], es[n].input)
  }

  ghost predicate SlippedAt(cfg: Config, s: State, es: seq<Event>, n: nat)
    requires n < |es|
  {
    var s1 := Exec(cfg, s, es[..n]);
    es[n].Step? && es[n].tid in s1.tasks && Slips(s1.tasks[es[n].tid], es[n].input)
  }

  ghost predicate WasSent(cfg: Config, s: State, es: seq<Event>) {
    exists n :: 0 <= n < |es| && SentAt(cfg, s, es, n)
  }

  ghost predicate HasSlipped(cfg: Config, s: State, es: seq<Event>) {
    exists n :: 0 <= n < |es| && SlippedAt(cfg, s, es, n)
  }

  lemma Split(cfg: Config, s: State, es: seq<Event>)
    requires |es| > 0
    ensures WasSent(cfg, s, es) <==> WasSent(cfg, s, es[..|es| - 1]) || SentAt(cfg, s, es, |es| - 1)
    ensures HasSlipped(cfg, s, es) <==> HasSlipped(cfg, s, es[..|es| - 1]) || SlippedAt(cfg, s, es, |es| - 1)
  {
    var b := es[..|es| - 1];
    forall n | 0 <= n < |b|
      ensures SentAt(cfg, s, b, n) <==> SentAt(cfg, s, es, n)
      ensures SlippedAt(cfg, s, b, n) <==> SlippedAt(cfg, s, es, n)
    {
      assert b[..n] == es[..n];
    }
  }

  /** A sweep's result waits to be written. */
  ghost predicate Recording(tasks: map<TaskId, Task>) {
    exists t :: t in tasks && tasks[t].SweepWrite?
  }

  /** One step: a sent sweep is recorded, waits to be, or has slipped; and only a task
      that sent one waits or slips. */
  lemma StepRecords(cfg: Config, s: State, t: Task, i: Input)
    requires SweepInv(s) && SweepTaskOk(s.row, t) && s.row.terms.mode == DerivedAddress
    ensures var f := TaskStep(cfg, s, t, i);
            && (Sends(t, i) ==> f.task.SweepWrite? || Slips(t, i))
            && (t.SweepWrite? ==> f.task.SweepWrite? || IsSwept(f.row) || Slips(t, i))
            && (f.task.SweepWrite? ==> t.SweepWrite? || Sends(t, i))
            && (Slips(t, i) ==> t.SweepWrite? || Sends(t, i))
  {
  }

  lemma EventRecords(cfg: Config, s: State, e: Event)
    requires SweepInv(s) && s.row.terms.mode == DerivedAddress
    ensures var s' := Apply(cfg, s, e);
            var (sent, slipped) := (e.Step? && e.tid in s.tasks && Sends(s.tasks[e.tid], e.input),
                                    e.Step? && e.tid in s.tasks && Slips(s.tasks[e.tid], e.input));
            && (sent || Recording(s.tasks) || IsSwept(s.row) ==> Recording(s'.tasks) || IsSwept(s'.row) || slipped)
            && (Recording(s'.tasks) || slipped ==> Recording(s.tasks) || sent)
  {
    var s' := Apply(cfg, s, e);
    EventKeepsSweep(cfg, s, e);
    if e.Step? && e.tid in s.tasks {
      StepRecords(cfg, s, s.tasks[e.tid], e.input);
      OthersRecord(s.tasks, e.tid, TaskStep(cfg, s, s.tasks[e.tid], e.input).task);
    } else if e.Start? && e.tid !in s.tasks {
      OthersRecord(s.tasks, e.tid, FirstTask(e.op));
    }
  }

  lemma OthersRecord(tasks: map<TaskId, Task>, tid: TaskId, t: Task)
    ensures Recording(tasks[tid := t]) <==> t.SweepWrite? || exists u :: u in tasks && u != tid && tasks[u].SweepWrite?
    ensures Recording(tasks) <==> (tid in tasks && tasks[tid].SweepWrite?) || exists u :: u in tasks && u != tid && tasks[u].SweepWrite?
  {
    var tasks' := tasks[tid := t];
    assert tasks'[tid] == t && forall u :: u in tasks && u != tid ==> u in tasks' && tasks'[u] == tasks[u];
  }

  lemma {:induction false} SentIsRecordedOrSlipped(cfg: Config, s: State, es: seq<Event>)
    requires Initial(s) && s.row.terms.mode == DerivedAddress
    ensures var s' := Exec(cfg, s, es);
            && (WasSent(cfg, s, es) ==> Recording(s'.tasks) || IsSwept(s'.row) || HasSlipped(cfg, s, es))
            && (Recording(s'.tasks) || HasSlipped(cfg, s, es) ==> WasSent(cfg, s, es))
  {
    if |es| > 0 {
      SentIsRecordedOrSlipped(cfg, s, es[..|es| - 1]);
      Split(cfg, s, es);
      RunKeepsSweepInv(cfg, s, es[..|es| - 1]);
      TermsStay(cfg, s, es[..|es| - 1]);
      EventRecords(cfg, Exec(cfg, s, es[..|es| - 1]), es[|es| - 1]);
    }
  }

  /** A pay-in whose sweep is pending or failed had nevertheless reached the network
      exactly when a result still waits to be written, the send erred after the network
      took the transaction, or the write of the result erred. */
  lemma UnsweptWasSentIff(cfg: Config, s: State, es: seq<Event>)
    requires Initial(s) && s.row.terms.mode == DerivedAddress && !IsSwept(Exec(cfg, s, es).row)
    ensures WasSent(cfg, s, es) <==> Recording(Exec(cfg, s, es).tasks) || HasSlipped(cfg, s, es)
  {
    SentIsRecordedOrSlipped(cfg, s, es);
  }
}
