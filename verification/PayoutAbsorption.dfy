/** When a confirmed payout stays confirmed. */
module PayoutAbsorption {
  import opened Common
  import opened PayoutLedger
  import opened PayoutProtocol
  import opened PayoutSafety
  import opened PayoutTheorems

  /** The task is no reconcile of this payout, or one that read it confirmed. */
  ghost predicate Agrees(t: Task, id: Id) {
    && (t.RecChain? && t.id == id ==> t.snap.status == Confirmed)
    && (t.RecWrite? && t.id == id ==> t.status == Confirmed)
  }

  /** Confirmed, and no reconcile under way holds an older status. */
  ghost predicate Firm(s: State, id: Id) {
    id in s.rows && s.rows[id].status == Confirmed && forall t :: t in s.tasks ==> Agrees(s.tasks[t], id)
  }

  /** The chain tells a reconcile of this payout that its transaction reverted. */
  ghost predicate ToldReverted(t: Task, i: Input, id: Id) {
    t.RecChain? && t.id == id && i.Chain? && i.tx == TxReverted
  }

  ghost predicate EventTells(s: State, e: Event, id: Id) {
    e.Step? && e.tid in s.tasks && ToldReverted(s.tasks[e.tid], e.input, id)
  }

  ghost predicate NeverTold(cfg: Config, s: State, es: seq<Event>, id: Id) {
    forall n :: 0 <= n < |es| ==> !EventTells(Exec(cfg, s, es[..n]), es[n], id)
  }

  /** The one write that undoes a confirmation. */
  ghost predicate Undoes(t: Task, i: Input, id: Id) {
    t.RecWrite? && t.id == id && t.status != Confirmed && i.Go? && !i.fault.ErrorBefore?
  }

  lemma AuthKeepsConfirmed(cfg: Config, tid: TaskId, rows: Rows, t: Task, i: Input, id: Id)
    requires id in rows && rows[id].status == Confirmed && t.Auth?
    ensures var f := AuthStep(cfg, tid, rows, t, i); id in f.rows && f.rows[id] == rows[id] && Agrees(f.task, id)
  {
  }

  /** A step undoes a confirmation exactly by that write, and a reconcile loses it
      exactly when told of a revert. */
  lemma StepUndoesIff(cfg: Config, tid: TaskId, rows: Rows, t: Task, i: Input, id: Id)
    requires id in rows && rows[id].status == Confirmed
    ensures var f := TaskStep(cfg, tid, rows, t, i);
            && id in f.rows && (f.rows[id].status != Confirmed <==> Undoes(t, i, id))
            && (Agrees(t, id) ==> (Agrees(f.task, id) <==> !ToldReverted(t, i, id)))
  {
    if t.Auth? {
      AuthKeepsConfirmed(cfg, tid, rows, t, i, id);
    }
  }

  lemma EventKeepsFirm(cfg: Config, s: State, e: Event, id: Id)
    requires Firm(s, id) && !EventTells(s, e, id)
    ensures Firm(Apply(cfg, s, e), id)
  {
    if e.Step? && e.tid in s.tasks {
      StepUndoesIff(cfg, e.tid, s.rows, s.tasks[e.tid], e.input, id);
    }
  }

  /** From a firm confirmation on, in every interleaving, the payout stays confirmed
      as long as no reconcile of it is told that its transaction reverted. */
  lemma {:induction false} FirmConfirmationIsAbsorbing(cfg: Config, s: State, es: seq<Event>, id: Id)
    requires Firm(s, id) && NeverTold(cfg, s, es, id)
    ensures Firm(Exec(cfg, s, es), id)
  {
    if |es| > 0 {
      var b := es[..|es| - 1];
      forall n | 0 <= n < |b|
        ensures !EventTells(Exec(cfg, s, b[..n]), b[n], id)
      {
        assert b[..n] == es[..n];
      }
      FirmConfirmationIsAbsorbing(cfg, s, b, id);
      EventKeepsFirm(cfg, Exec(cfg, s, b), es[|es| - 1], id);
    }
  }

  lemma Extended(cfg: Config, s: State, es: seq<Event>, e: Event, id: Id)
    requires NeverTold(cfg, s, es, id) && !EventTells(Exec(cfg, s, es), e, id)
    ensures Exec(cfg, s, es + [e]) == Apply(cfg, Exec(cfg, s, es), e) && NeverTold(cfg, s, es + [e], id)
  {
    var all := es + [e];
    assert all[..|es|] == es;
    forall n | 0 <= n < |all|
      ensures !EventTells(Exec(cfg, s, all[..n]), all[n], id)
    {
      if n < |es| {
        assert all[..n] == es[..n] && all[n] == es[n];
      }
    }
  }

  /** And only from there: a reconcile under way with an older status can take any
      confirmation that is not firm back, without any word of a revert. */
  lemma InfirmConfirmationCanBeUndone(cfg: Config, s: State, id: Id) returns (es: seq<Event>)
    requires id in s.rows && s.rows[id].status == Confirmed && !Firm(s, id)
    ensures NeverTold(cfg, s, es, id)
    ensures var s' := Exec(cfg, s, es); id in s'.rows && s'.rows[id].status != Confirmed
  {
    var tid :| tid in s.tasks && !Agrees(s.tasks[tid], id);
    var (ask, write) := (Step(tid, Chain(TxPending, 0)), Step(tid, Go(Clean, 0)));
    if s.tasks[tid].RecWrite? {
      es := [] + [write];
      Extended(cfg, s, [], write, id);
      StepUndoesIff(cfg, tid, s.rows, s.tasks[tid], write.input, id);
    } else {
      es := [] + [ask] + [write];
      var s1 := Apply(cfg, s, ask);
      Extended(cfg, s, [], ask, id);
      Extended(cfg, s, [] + [ask], write, id);
      assert s1.rows == s.rows && s1.tasks[tid].RecWrite? && !Agrees(s1.tasks[tid], id);
      StepUndoesIff(cfg, tid, s1.rows, s1.tasks[tid], write.input, id);
    }
  }

  /** Serialised reconciles: at a moment when no reconcile of the payout is under way a
      confirmation is firm. */
  lemma IdleConfirmationIsAbsorbing(cfg: Config, es: seq<Event>, more: seq<Event>, id: Id)
    requires var s := Reached(cfg, es);
             && id in s.rows && s.rows[id].status == Confirmed
             && (forall t :: t in s.tasks && (s.tasks[t].RecChain? || s.tasks[t].RecWrite?) ==> s.tasks[t].id != id)
             && NeverTold(cfg, s, more, id)
    ensures var s' := Reached(cfg, es + more); id in s'.rows && s'.rows[id].status == Confirmed
  {
    FirmConfirmationIsAbsorbing(cfg, Reached(cfg, es), more, id);
    ExecConcat(cfg, INITIAL, es, more);
  }
}
