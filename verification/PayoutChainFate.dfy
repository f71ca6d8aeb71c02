/** With a chain that answers one way per transaction, a confirmation needs no further
    word from it. */
module PayoutChainFate {
  import opened Common
  import opened PayoutLedger
  import opened PayoutProtocol
  import opened PayoutSafety
  import opened PayoutTheorems
  import opened PayoutConfirmations
  import opened PayoutAbsorption

  /** What becomes of each transaction, once mined. */
  type Fate = TxHash -> bool

  /** The chain's answers to a task agree with the fate of the transaction it asks about. */
  ghost predicate Truthful(fate: Fate, t: Task, i: Input) {
    && (t.Auth? && t.phase.Receipt? && i.Mined? ==> i.success == fate(t.phase.hash))
    && (t.RecChain? && i.Chain? && t.snap.transactionHash.Some? ==>
          && (i.tx == TxReverted ==> !fate(t.snap.transactionHash.value))
          && (i.tx.TxSuccess? ==> fate(t.snap.transactionHash.value)))
  }

  ghost predicate TruthfulAt(fate: Fate, s: State, e: Event) {
    e.Step? && e.tid in s.tasks ==> Truthful(fate, s.tasks[e.tid], e.input)
  }

  ghost predicate TruthfulRun(cfg: Config, fate: Fate, es: seq<Event>) {
    forall n :: 0 <= n < |es| ==> TruthfulAt(fate, Reached(cfg, es[..n]), es[n])
  }

  // ---- One transaction per payout ------------------------------------------

  lemma {:induction false} CountedOnce(subs: seq<Submission>, id: Id, j: nat)
    requires j < |subs| && id in subs[j].job.ids
    ensures Count(subs, id) >= 1
  {
    var n := |subs| - 1;
    if j < n {
      CountedOnce(subs[..n], id, j);
    } else {
      assert id in multiset(subs[n].job.ids);
    }
  }

  lemma {:induction false} CountedTwice(subs: seq<Submission>, id: Id, j: nat, k: nat)
    requires j < k < |subs| && id in subs[j].job.ids && id in subs[k].job.ids
    ensures Count(subs, id) >= 2
  {
    var n := |subs| - 1;
    if k < n {
      CountedTwice(subs[..n], id, j, k);
    } else {
      CountedOnce(subs[..n], id, j);
      assert id in multiset(subs[n].job.ids);
    }
  }

  lemma OneHash(subs: seq<Submission>, id: Id, a: TxHash, b: TxHash)
    requires Count(subs, id) <= 1 && SentWith(subs, id, a) && SentWith(subs, id, b)
    ensures a == b
  {
    var j :| 0 <= j < |subs| && id in subs[j].job.ids && subs[j].hash == a;
    var k :| 0 <= k < |subs| && id in subs[k].job.ids && subs[k].hash == b;
    if j < k {
      CountedTwice(subs, id, j, k);
    } else if k < j {
      CountedTwice(subs, id, k, j);
    }
  }

  // ---- The confirmed transaction succeeded ---------------------------------

  /** The transaction a task hears about is the one the payout ends up with. */
  lemma HeardHash(cfg: Config, es: seq<Event>, more: seq<Event>, tid: TaskId, i: Input, id: Id, fate: Fate)
    requires var s := Reached(cfg, es); tid in s.tasks && Hears(s.tasks[tid], i, id) && Truthful(fate, s.tasks[tid], i)
    requires var s' := Reached(cfg, es + more); id in s'.rows && s'.rows[id].transactionHash.Some?
    ensures fate(Reached(cfg, es + more).rows[id].transactionHash.value)
  {
    var (s, s') := (Reached(cfg, es), Reached(cfg, es + more));
    var t := s.tasks[tid];
    ReachedInv(cfg, es);
    assert LocalOk(s.rows, s.subs, t);
    if t.RecChain? {
      HashIsWriteOnce(cfg, es, more, id);
    } else {
      SentStays(cfg, es, more, id, t);
      EachPayoutIsSubmittedAtMostOnce(cfg, es + more, id);
      OneHash(s'.subs, id, t.phase.hash, s'.rows[id].transactionHash.value);
    }
  }

  lemma SentStays(cfg: Config, es: seq<Event>, more: seq<Event>, id: Id, t: Task)
    requires t.Auth? && t.phase.Receipt? && id in LegIds(t.legs) && LocalOk(Reached(cfg, es).rows, Reached(cfg, es).subs, t)
    ensures SentWith(Reached(cfg, es + more).subs, id, t.phase.hash)
  {
    var (s, s') := (Reached(cfg, es), Reached(cfg, es + more));
    LegIdsAreJobIds(s.rows, t.job, t.legs);
    assert SentWith(s.subs, id, t.phase.hash);
    ExecConcat(cfg, INITIAL, es, more);
    RunOnlySends(cfg, s, more);
    SentWithStable(s.subs, s'.subs[|s.subs|..], id, t.phase.hash);
    assert s'.subs == s.subs + s'.subs[|s.subs|..];
  }

  /** Under a truthful chain, the transaction of a confirmed payout succeeded. */
  lemma ConfirmedTransactionSucceeded(cfg: Config, fate: Fate, es: seq<Event>, id: Id)
    requires TruthfulRun(cfg, fate, es) && IsConfirmed(Reached(cfg, es).rows, id)
    ensures Reached(cfg, es).rows[id].transactionHash.Some? && fate(Reached(cfg, es).rows[id].transactionHash.value)
  {
    ConfirmedOnlyOnTheChainsWord(cfg, es, id);
    ConfirmedHasHash(cfg, es, id);
    var k :| 0 <= k < |es| && VouchedAt(cfg, es, id, k);
    HeardAt(cfg, fate, es, id, k);
  }

  lemma ConfirmedHasHash(cfg: Config, es: seq<Event>, id: Id)
    requires IsConfirmed(Reached(cfg, es).rows, id)
    ensures Reached(cfg, es).rows[id].transactionHash.Some?
  {
    EachPayoutIsSubmittedAtMostOnce(cfg, es, id);
  }

  lemma HeardAt(cfg: Config, fate: Fate, es: seq<Event>, id: Id, k: nat)
    requires k < |es| && VouchedAt(cfg, es, id, k) && TruthfulAt(fate, Reached(cfg, es[..k]), es[k])
    requires var rows := Reached(cfg, es).rows; id in rows && rows[id].transactionHash.Some?
    ensures fate(Reached(cfg, es).rows[id].transactionHash.value)
  {
    assert es == es[..k] + es[k..];
    HeardHash(cfg, es[..k], es[k..], es[k].tid, es[k].input, id, fate);
  }

  lemma NoRevertIsHeard(cfg: Config, fate: Fate, es: seq<Event>, e: Event, id: Id)
    requires var s := Reached(cfg, es);
             id in s.rows && s.rows[id].transactionHash.Some? && fate(s.rows[id].transactionHash.value) && TruthfulAt(fate, s, e)
    ensures !EventTells(Reached(cfg, es), e, id)
  {
    ReachedInv(cfg, es);
    var s := Reached(cfg, es);
    if e.Step? && e.tid in s.tasks {
      assert LocalOk(s.rows, s.subs, s.tasks[e.tid]);
    }
  }

  /** Under a truthful chain a firm confirmation is final: no reconcile of the payout is
      ever told of a revert, so it stays confirmed in every interleaving. */
  lemma TruthfulChainKeepsConfirmed(cfg: Config, fate: Fate, es: seq<Event>, more: seq<Event>, id: Id)
    requires Firm(Reached(cfg, es), id) && TruthfulRun(cfg, fate, es + more)
    ensures var s' := Reached(cfg, es + more); id in s'.rows && s'.rows[id].status == Confirmed
  {
    var (s, all) := (Reached(cfg, es), es + more);
    forall n | 0 <= n < |es|
      ensures TruthfulAt(fate, Reached(cfg, es[..n]), es[n])
    {
      assert all[..n] == es[..n] && all[n] == es[n];
    }
    ConfirmedTransactionSucceeded(cfg, fate, es, id);
    forall n | 0 <= n < |more|
      ensures !EventTells(Exec(cfg, s, more[..n]), more[n], id)
    {
      ExecConcat(cfg, INITIAL, es, more[..n]);
      HashIsWriteOnce(cfg, es, more[..n], id);
      assert all[..|es| + n] == es + more[..n] && all[|es| + n] == more[n];
      NoRevertIsHeard(cfg, fate, es + more[..n], more[n], id);
    }
    FirmConfirmationIsAbsorbing(cfg, s, more, id);
    ExecConcat(cfg, INITIAL, es, more);
  }
}
