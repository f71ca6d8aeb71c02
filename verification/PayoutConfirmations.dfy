/** A payout counts as confirmed only on the chain's word about it. */
module PayoutConfirmations {
  import opened Common
  import opened PayoutLedger
  import opened PayoutProtocol
  import opened PayoutSafety
  import opened PayoutTheorems

  /** The chain tells this task that the payout's transaction succeeded: the receipt
      of the transaction that pays it, or a finalized reconciliation of its hash. */
  ghost predicate Hears(t: Task, i: Input, id: Id) {
    || (t.Auth? && t.phase.Receipt? && i == Mined(true) && id in LegIds(t.legs))
    || (t.RecChain? && t.id == id && i.Chain? && i.tx == TxSuccess(true))
  }

  ghost predicate Vouched(cfg: Config, es: seq<Event>, id: Id) {
    exists k :: 0 <= k < |es| && VouchedAt(cfg, es, id, k)
  }

  ghost predicate VouchedAt(cfg: Config, es: seq<Event>, id: Id, k: nat)
    requires k < |es|
  {
    var s := Reached(cfg, es[..k]);
    es[k].Step? && es[k].tid in s.tasks && Hears(s.tasks[es[k].tid], es[k].input, id)
  }

  /** The task is about to record, or has read, a confirmation of the payout. */
  ghost predicate Carries(t: Task, id: Id) {
    || (t.Auth? && t.phase.Recording? && t.phase.confirmed && id in LegIds(t.legs))
    || (t.RecChain? && t.id == id && t.snap.status == Confirmed)
    || (t.RecWrite? && t.id == id && t.status == Confirmed)
  }

  predicate IsConfirmed(rows: Rows, id: Id) {
    id in rows && rows[id].status == Confirmed
  }

  lemma RecordCarries(rows: Rows, t: Task, i: Input, id: Id)
    requires t.Auth? && t.phase.Recording? && t.phase.rec + t.phase.fail <= Elems(LegIds(t.legs))
    ensures var f := RecordStep(rows, t, i); IsConfirmed(f.rows, id) || Carries(f.task, id) ==> IsConfirmed(rows, id) || Carries(t, id)
  {
  }

  lemma SendCarries(cfg: Config, tid: TaskId, rows: Rows, t: Task, i: Input, id: Id)
    requires t.Auth? && !t.phase.Recording?
    ensures var f := AuthStep(cfg, tid, rows, t, i);
            IsConfirmed(f.rows, id) || Carries(f.task, id) ==> IsConfirmed(rows, id) || Hears(t, i, id)
  {
  }

  lemma OtherCarries(cfg: Config, tid: TaskId, rows: Rows, t: Task, i: Input, id: Id)
    requires !t.Auth?
    ensures var f := TaskStep(cfg, tid, rows, t, i);
            IsConfirmed(f.rows, id) || Carries(f.task, id) ==> IsConfirmed(rows, id) || Carries(t, id) || Hears(t, i, id)
  {
  }

  lemma VouchedLater(cfg: Config, es: seq<Event>, id: Id)
    requires |es| > 0 && Vouched(cfg, es[..|es| - 1], id)
    ensures Vouched(cfg, es, id)
  {
    var before := es[..|es| - 1];
    var k :| 0 <= k < |before| && VouchedAt(cfg, before, id, k);
    assert before[..k] == es[..k] && VouchedAt(cfg, es, id, k);
  }

  lemma {:induction false} CarriedMeansVouched(cfg: Config, es: seq<Event>, id: Id)
    ensures var s := Reached(cfg, es);
            IsConfirmed(s.rows, id) || (exists u :: u in s.tasks && Carries(s.tasks[u], id)) ==> Vouched(cfg, es, id)
  {
    if |es| > 0 {
      var n := |es| - 1;
      var (s, e, s') := (Reached(cfg, es[..n]), es[n], Reached(cfg, es));
      CarriedMeansVouched(cfg, es[..n], id);
      if Vouched(cfg, es[..n], id) {
        VouchedLater(cfg, es, id);
      } else if e.Step? && e.tid in s.tasks {
        var t := s.tasks[e.tid];
        ReachedInv(cfg, es[..n]);
        assert LocalOk(s.rows, s.subs, t);
        if t.Auth? && t.phase.Recording? {
          RecordCarries(s.rows, t, e.input, id);
        } else if t.Auth? {
          SendCarries(cfg, e.tid, s.rows, t, e.input, id);
        } else {
          OtherCarries(cfg, e.tid, s.rows, t, e.input, id);
        }
        if Hears(t, e.input, id) {
          assert VouchedAt(cfg, es, id, n);
        }
      } else if !e.Step? && e.tid !in s.tasks && Started(cfg, e).Some? {
        assert !Carries(Started(cfg, e).value, id);
      }
    }
  }

  /** In every interleaving, a confirmed payout was vouched for: some request working
      on that very payout was told by the chain that its transaction succeeded. */
  lemma ConfirmedOnlyOnTheChainsWord(cfg: Config, es: seq<Event>, id: Id)
    requires IsConfirmed(Reached(cfg, es).rows, id)
    ensures Vouched(cfg, es, id)
  {
    CarriedMeansVouched(cfg, es, id);
  }
}
