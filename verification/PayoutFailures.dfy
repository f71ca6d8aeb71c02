/** What `failed` says about the money, and what `confirmed` survives. */
module PayoutFailures {
  import opened Common
  import opened PayoutLedger
  import opened PayoutProtocol
  import opened PayoutSafety
  import opened PayoutTheorems
  import opened PayoutOwnership

  // ---- Failed without a hash -----------------------------------------------

  /** The transaction of this leg may be out while its request goes on to fail it: the
      send errs after the network took it, the wait for the receipt throws, or a
      record write of the transaction errs. */
  ghost predicate Muddles(cfg: Config, t: Task, i: Input, id: Id) {
    && t.Auth? && id in LegIds(t.legs)
    && ((t.phase.Writing? && i.WriteError? && i.reached)
        || (t.phase.Receipt? && cfg.waitForReceipt && i.Throw?)
        || (t.phase.Recording? && i.LegWrite? && i.id in t.phase.rec && !i.fault.Clean?))
  }

  ghost predicate MuddledAt(cfg: Config, es: seq<Event>, id: Id, n: nat)
    requires n < |es|
  {
    var s := Reached(cfg, es[..n]);
    es[n].Step? && es[n].tid in s.tasks && Muddles(cfg, s.tasks[es[n].tid], es[n].input, id)
  }

  ghost predicate Muddled(cfg: Config, es: seq<Event>, id: Id) {
    exists n :: 0 <= n < |es| && MuddledAt(cfg, es, id, n)
  }

  lemma MuddledSplit(cfg: Config, es: seq<Event>, id: Id)
    requires |es| > 0
    ensures Muddled(cfg, es, id) <==> Muddled(cfg, es[..|es| - 1], id) || MuddledAt(cfg, es, id, |es| - 1)
  {
    var b := es[..|es| - 1];
    forall n | 0 <= n < |b|
      ensures MuddledAt(cfg, b, id, n) <==> MuddledAt(cfg, es, id, n)
    {
      assert b[..n] == es[..n];
    }
  }

  /** The task will still record this leg's transaction, nothing caught so far. */
  ghost predicate WillRecord(t: Task, id: Id) {
    t.Auth? && ((t.phase.Receipt? && id in LegIds(t.legs)) || (t.phase.Recording? && !t.phase.caught && id in t.phase.rec))
  }

  ghost predicate Clear(s: State, id: Id) {
    id in s.rows && (s.rows[id].transactionHash.Some? || exists t :: t in s.tasks && WillRecord(s.tasks[t], id))
  }

  lemma ReceiptKeepsRecording(cfg: Config, tid: TaskId, rows: Rows, t: Task, i: Input, id: Id)
    requires t.Auth? && t.phase.Receipt? && id in LegIds(t.legs) && !Muddles(cfg, t, i, id)
    ensures WillRecord(AuthStep(cfg, tid, rows, t, i).task, id)
  {
  }

  lemma RecordsAsPledged(rows: Rows, t: Task, i: Input, id: Id)
    requires t.Auth? && t.phase.Recording? && !t.phase.caught && id in t.phase.rec && t.phase.rec <= Elems(LegIds(t.legs))
    requires Pledged(rows, t) && !(i.LegWrite? && i.id in t.phase.rec && !i.fault.Clean?)
    ensures var f := RecordStep(rows, t, i); WillRecord(f.task, id) || (id in f.rows && f.rows[id].transactionHash.Some?)
  {
  }

  lemma SendStartsRecording(cfg: Config, tid: TaskId, rows: Rows, t: Task, i: Input, id: Id)
    requires t.Auth? && AuthStep(cfg, tid, rows, t, i).sent != [] && id in LegIds(t.legs) && !Muddles(cfg, t, i, id)
    ensures WillRecord(AuthStep(cfg, tid, rows, t, i).task, id)
  {
    OnlyWritingSends(cfg, tid, rows, t, i);
  }

  lemma SenderKeepsRecording(cfg: Config, tid: TaskId, rows: Rows, subs: seq<Submission>, t: Task, i: Input, id: Id)
    requires LocalOk(rows, subs, t) && Pledged(rows, t) && WillRecord(t, id) && !Muddles(cfg, t, i, id)
    ensures var f := AuthStep(cfg, tid, rows, t, i); WillRecord(f.task, id) || (id in f.rows && f.rows[id].transactionHash.Some?)
  {
    if t.phase.Receipt? {
      ReceiptKeepsRecording(cfg, tid, rows, t, i, id);
    } else {
      assert t.phase.rec <= Elems(LegIds(t.legs));
      RecordsAsPledged(rows, t, i, id);
    }
  }

  lemma HashStays(cfg: Config, s: State, tid: TaskId, i: Input, id: Id)
    requires Inv(s) && tid in s.tasks && id in s.rows
    ensures var rows := TaskStep(cfg, tid, s.rows, s.tasks[tid], i).rows;
            id in rows && (s.rows[id].transactionHash.Some? ==> rows[id].transactionHash.Some?)
  {
    StepKeepsInv(cfg, s, tid, i);
  }

  lemma RecorderStaysClear(cfg: Config, s: State, tid: TaskId, i: Input, id: Id)
    requires OwnInv(s) && tid in s.tasks && WillRecord(s.tasks[tid], id) && !Muddles(cfg, s.tasks[tid], i, id)
    ensures var f := TaskStep(cfg, tid, s.rows, s.tasks[tid], i);
            WillRecord(f.task, id) || (id in f.rows && f.rows[id].transactionHash.Some?)
  {
    var t := s.tasks[tid];
    assert LocalOk(s.rows, s.subs, t) && Pledged(s.rows, t);
    SenderKeepsRecording(cfg, tid, s.rows, s.subs, t, i, id);
  }

  lemma TakeStaysClear(s: State, tid: TaskId, f: Effect, id: Id)
    requires Clear(s, id) && tid in s.tasks && id in f.rows
    requires s.rows[id].transactionHash.Some? ==> f.rows[id].transactionHash.Some?
    requires WillRecord(s.tasks[tid], id) ==> WillRecord(f.task, id) || f.rows[id].transactionHash.Some?
    ensures Clear(Take(s, tid, f), id)
  {
    var s' := Take(s, tid, f);
    if f.rows[id].transactionHash.None? {
      var u :| u in s.tasks && WillRecord(s.tasks[u], id);
      assert WillRecord(s'.tasks[u], id);
    }
  }

  lemma StepStaysClear(cfg: Config, s: State, tid: TaskId, i: Input, id: Id)
    requires OwnInv(s) && tid in s.tasks && Clear(s, id) && !Muddles(cfg, s.tasks[tid], i, id)
    ensures Clear(Take(s, tid, TaskStep(cfg, tid, s.rows, s.tasks[tid], i)), id)
  {
    HashStays(cfg, s, tid, i, id);
    if WillRecord(s.tasks[tid], id) {
      RecorderStaysClear(cfg, s, tid, i, id);
    }
    TakeStaysClear(s, tid, TaskStep(cfg, tid, s.rows, s.tasks[tid], i), id);
  }

  /** Only a send raises a count, and only for the legs of its job. */
  lemma CountRisesBySending(cfg: Config, s: State, tid: TaskId, i: Input, id: Id)
    requires Inv(s) && tid in s.tasks
    requires Count((s.subs + TaskStep(cfg, tid, s.rows, s.tasks[tid], i).sent), id) != Count(s.subs, id)
    ensures var t := s.tasks[tid];
            t.Auth? && AuthStep(cfg, tid, s.rows, t, i).sent != [] && id in LegIds(t.legs) && id in s.rows
  {
    var t := s.tasks[tid];
    var f := TaskStep(cfg, tid, s.rows, t, i);
    assert s.subs + [] == s.subs;
    OnlyAuthSends(cfg, tid, s.rows, t, i);
    OnlyWritingSends(cfg, tid, s.rows, t, i);
    assert LocalOk(s.rows, s.subs, t);
    LegIdsAreJobIds(s.rows, t.job, t.legs);
    CountsAfterSubmit(s.subs, Sends(tid, t, i.hash), id);
  }

  lemma LostSendIsSent(cfg: Config, tid: TaskId, rows: Rows, subs: seq<Submission>, t: Task, i: Input, id: Id)
    requires t.Auth? && t.phase.Writing? && LocalOk(rows, subs, t) && id in LegIds(t.legs) && i.WriteError? && i.reached
    ensures Count(subs + TaskStep(cfg, tid, rows, t, i).sent, id) >= 1
  {
    LegIdsAreJobIds(rows, t.job, t.legs);
    CountsAfterSubmit(subs, Sends(tid, t, i.hash), id);
  }

  lemma MuddledIsSent(cfg: Config, s: State, tid: TaskId, i: Input, id: Id)
    requires Inv(s) && tid in s.tasks && Muddles(cfg, s.tasks[tid], i, id)
    ensures Count(s.subs + TaskStep(cfg, tid, s.rows, s.tasks[tid], i).sent, id) >= 1
  {
    var t := s.tasks[tid];
    assert LocalOk(s.rows, s.subs, t) && HoldsOk(s.rows, s.subs, t);
    if t.phase.Writing? {
      LostSendIsSent(cfg, tid, s.rows, s.subs, t, i, id);
    } else {
      assert id in Sent(t);
      CountGrows(s.subs, TaskStep(cfg, tid, s.rows, t, i).sent, id);
    }
  }

  lemma AtMostOnce(cfg: Config, es: seq<Event>, id: Id)
    ensures Count(Reached(cfg, es).subs, id) <= 1
  {
    EachPayoutIsSubmittedAtMostOnce(cfg, es, id);
  }

  /** A submitted payout has its hash, or a request about to record it, or its run
      contains one of those mishaps; and such a mishap only befalls submitted payouts. */
  lemma {:induction false} SentIsClearOrMuddled(cfg: Config, es: seq<Event>, id: Id)
    ensures var s := Reached(cfg, es);
            && (Count(s.subs, id) == 1 ==> Clear(s, id) || Muddled(cfg, es, id))
            && (Muddled(cfg, es, id) ==> Count(s.subs, id) == 1)
  {
    if |es| > 0 {
      var n := |es| - 1;
      SentIsClearOrMuddled(cfg, es[..n], id);
      MuddledSplit(cfg, es, id);
      AtMostOnce(cfg, es, id);
      LastEventClearOrMuddled(cfg, es, id);
    }
  }

  lemma LastEventClearOrMuddled(cfg: Config, es: seq<Event>, id: Id)
    requires |es| > 0
    ensures var (s, s') := (Reached(cfg, es[..|es| - 1]), Reached(cfg, es));
            && Count(s.subs, id) <= Count(s'.subs, id)
            && (MuddledAt(cfg, es, id, |es| - 1) ==> Count(s'.subs, id) >= 1)
            && (!MuddledAt(cfg, es, id, |es| - 1) && (Clear(s, id) || Count(s'.subs, id) != Count(s.subs, id)) ==> Clear(s', id))
  {
    var (s, e) := (Reached(cfg, es[..|es| - 1]), es[|es| - 1]);
    RunKeepsOwnInv(cfg, es[..|es| - 1]);
    if e.Step? && e.tid in s.tasks {
      StepIsClearOrMuddled(cfg, s, e.tid, e.input, id);
      CountGrows(s.subs, TaskStep(cfg, e.tid, s.rows, s.tasks[e.tid], e.input).sent, id);
    } else {
      OtherEventStaysClear(cfg, s, e, id);
    }
  }

  lemma OtherEventStaysClear(cfg: Config, s: State, e: Event, id: Id)
    requires !(e.Step? && e.tid in s.tasks)
    ensures Apply(cfg, s, e).subs == s.subs && (Clear(s, id) ==> Clear(Apply(cfg, s, e), id))
  {
    var s' := Apply(cfg, s, e);
    assert s'.rows == s.rows && forall t :: t in s.tasks ==> t in s'.tasks && s'.tasks[t] == s.tasks[t];
    if Clear(s, id) && s.rows[id].transactionHash.None? {
      var u :| u in s.tasks && WillRecord(s.tasks[u], id);
      assert WillRecord(s'.tasks[u], id);
    }
  }

  lemma StepIsClearOrMuddled(cfg: Config, s: State, tid: TaskId, i: Input, id: Id)
    requires OwnInv(s) && tid in s.tasks
    ensures var s' := Take(s, tid, TaskStep(cfg, tid, s.rows, s.tasks[tid], i));
            && (Muddles(cfg, s.tasks[tid], i, id) ==> Count(s'.subs, id) >= 1)
            && (!Muddles(cfg, s.tasks[tid], i, id) && Clear(s, id) ==> Clear(s', id))
            && (!Muddles(cfg, s.tasks[tid], i, id) && Count(s'.subs, id) != Count(s.subs, id) ==> Clear(s', id))
  {
    var t := s.tasks[tid];
    var s' := Take(s, tid, TaskStep(cfg, tid, s.rows, t, i));
    if Muddles(cfg, t, i, id) {
      MuddledIsSent(cfg, s, tid, i, id);
    } else {
      if Clear(s, id) {
        StepStaysClear(cfg, s, tid, i, id);
      }
      if Count(s'.subs, id) != Count(s.subs, id) {
        CountRisesBySending(cfg, s, tid, i, id);
        SendStartsRecording(cfg, tid, s.rows, t, i, id);
        HashStays(cfg, s, tid, i, id);
        assert s'.tasks[tid] == AuthStep(cfg, tid, s.rows, t, i).task;
      }
    }
  }

  /** A payout that is failed without a hash was nevertheless handed to the network
      exactly when its request met one of those mishaps; in every other run, failed
      without a hash means that nothing was sent. */
  lemma FailedWithoutHashWasSentIff(cfg: Config, es: seq<Event>, id: Id)
    requires var s := Reached(cfg, es); id in s.rows && s.rows[id].status == Failed && s.rows[id].transactionHash.None?
    ensures Count(Reached(cfg, es).subs, id) == (if Muddled(cfg, es, id) then 1 else 0)
  {
    var s := Reached(cfg, es);
    SentIsClearOrMuddled(cfg, es, id);
    EachPayoutIsSubmittedAtMostOnce(cfg, es, id);
    RunKeepsOwnInv(cfg, es);
    if t :| t in s.tasks && WillRecord(s.tasks[t], id) {
      assert Pledged(s.rows, s.tasks[t]) && LocalOk(s.rows, s.subs, s.tasks[t]);
      assert Authd(s.rows, id);
    }
  }
}
