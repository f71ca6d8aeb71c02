/** The payout guarantees, over every run. */
module PayoutTheorems {
  import opened Common
  import opened PayoutLedger
  import opened PayoutProtocol
  import opened PayoutSafety

  ghost function Reached(cfg: Config, es: seq<Event>): State {
    Exec(cfg, INITIAL, es)
  }

  lemma ReachedInv(cfg: Config, es: seq<Event>)
    ensures Inv(Reached(cfg, es))
  {
    RunKeepsInv(cfg, INITIAL, es);
  }

  // ---- At most one submission ----------------------------------------------

  /** In every interleaving of any number of creations, single and batch
      authorizations and reconciles, each payout is handed to the network at most
      once; a payout found prepared was never handed to it, and one with a hash
      was handed over with that hash and is broadcasted, confirmed or failed. */
  lemma EachPayoutIsSubmittedAtMostOnce(cfg: Config, es: seq<Event>, id: Id)
    ensures var s := Reached(cfg, es);
            && Count(s.subs, id) <= 1
            && (Count(s.subs, id) == 1 ==> id in s.rows && s.rows[id].status != Prepared)
            && (id in s.rows && s.rows[id].transactionHash.Some? ==>
                  && Count(s.subs, id) == 1
                  && s.rows[id].status in {Broadcasted, Confirmed, Failed}
                  && SentWith(s.subs, id, s.rows[id].transactionHash.value))
            && (id in s.rows && s.rows[id].status in {Broadcasted, Confirmed} ==> s.rows[id].transactionHash.Some?)
  {
    var s := Reached(cfg, es);
    ReachedInv(cfg, es);
    if id in s.rows {
      assert RowOk(s.rows, s.subs, id);
    }
  }

  lemma {:induction false} ExecConcat(cfg: Config, s: State, es: seq<Event>, more: seq<Event>)
    ensures Exec(cfg, s, es + more) == Exec(cfg, Exec(cfg, s, es), more)
  {
    if |more| == 0 {
      assert es + more == es;
    } else {
      var n := |more| - 1;
      assert (es + more)[..|es + more| - 1] == es + more[..n];
      ExecConcat(cfg, s, es, more[..n]);
    }
  }

  lemma {:induction false} RunEvolves(cfg: Config, s: State, es: seq<Event>)
    requires Inv(s)
    ensures Evolves(s.rows, Exec(cfg, s, es).rows)
  {
    if |es| > 0 {
      var n := |es| - 1;
      RunEvolves(cfg, s, es[..n]);
      RunKeepsInv(cfg, s, es[..n]);
      EventKeepsInv(cfg, Exec(cfg, s, es[..n]), es[n]);
      EvolvesTransitive(s.rows, Exec(cfg, s, es[..n]).rows, Exec(cfg, s, es).rows);
    }
  }

  lemma EvolvesTransitive(a: Rows, b: Rows, c: Rows)
    requires Evolves(a, b) && Evolves(b, c)
    ensures Evolves(a, c)
  {
  }

  lemma {:induction false} RunOnlySends(cfg: Config, s: State, es: seq<Event>)
    ensures var s' := Exec(cfg, s, es); |s.subs| <= |s'.subs| && s'.subs[..|s.subs|] == s.subs
  {
    if |es| > 0 {
      RunOnlySends(cfg, s, es[..|es| - 1]);
    }
  }

  lemma {:induction false} CountGrows(subs: seq<Submission>, more: seq<Submission>, id: Id)
    ensures Count(subs, id) <= Count(subs + more, id)
  {
    if |more| == 0 {
      assert subs + more == subs;
    } else {
      var n := |more| - 1;
      CountGrows(subs, more[..n], id);
      assert (subs + more)[..|subs + more| - 1] == subs + more[..n];
    }
  }

  /** Once recorded a hash never changes, and its payout never goes back to
      prepared or authorized, whatever stale write reconcile makes later. */
  lemma HashIsWriteOnce(cfg: Config, es: seq<Event>, more: seq<Event>, id: Id)
    requires var s := Reached(cfg, es); id in s.rows && s.rows[id].transactionHash.Some?
    ensures var (s, s') := (Reached(cfg, es), Reached(cfg, es + more));
            && id in s'.rows && s'.rows[id].transactionHash == s.rows[id].transactionHash
            && s'.rows[id].status !in {Prepared, Authorized}
            && s'.rows[id].fixed == s.rows[id].fixed
  {
    ReachedInv(cfg, es);
    ExecConcat(cfg, INITIAL, es, more);
    RunEvolves(cfg, Reached(cfg, es), more);
    EachPayoutIsSubmittedAtMostOnce(cfg, es + more, id);
  }

  /** A payout comes back to prepared only from a claim that sent nothing: once
      submitted, it is prepared in no later state. */
  lemma SubmittedNeverReturnsToPrepared(cfg: Config, es: seq<Event>, more: seq<Event>, id: Id)
    requires Count(Reached(cfg, es).subs, id) == 1
    ensures var s' := Reached(cfg, es + more);
            Count(s'.subs, id) == 1 && id in s'.rows && s'.rows[id].status != Prepared
  {
    CountNeverFalls(cfg, es, more, id);
    EachPayoutIsSubmittedAtMostOnce(cfg, es + more, id);
  }

  lemma CountNeverFalls(cfg: Config, es: seq<Event>, more: seq<Event>, id: Id)
    ensures Count(Reached(cfg, es).subs, id) <= Count(Reached(cfg, es + more).subs, id)
  {
    var s, s' := Reached(cfg, es), Reached(cfg, es + more);
    ExecConcat(cfg, INITIAL, es, more);
    RunOnlySends(cfg, s, more);
    assert s'.subs == s.subs + s'.subs[|s.subs|..];
    CountGrows(s.subs, s'.subs[|s.subs|..], id);
  }

  // ---- Batches -------------------------------------------------------------

  /** Whoever submits holds every leg of its job, alone, at that moment. */
  lemma SubmitterHoldsEveryLeg(cfg: Config, es: seq<Event>, tid: TaskId, i: Input)
    requires var s := Reached(cfg, es); tid in s.tasks && TaskStep(cfg, tid, s.rows, s.tasks[tid], i).sent != []
    ensures var s := Reached(cfg, es);
            var t := s.tasks[tid];
            && t.Auth? && t.job.ids == Dedup(t.job.requested) && Held(t) == Elems(t.job.requested)
            && (forall id :: id in t.job.requested ==>
                  && id in s.rows && s.rows[id].status == Authorized && Count(s.subs, id) == 0
                  && forall u :: u in s.tasks && u != tid ==> id !in Held(s.tasks[u]))
  {
    var s := Reached(cfg, es);
    var t := s.tasks[tid];
    ReachedInv(cfg, es);
    OnlyAuthSends(cfg, tid, s.rows, t, i);
    OnlyWritingSends(cfg, tid, s.rows, t, i);
    WriterHoldsEveryLeg(s.rows, s.subs, t);
    forall id | id in t.job.requested
      ensures forall u :: u in s.tasks && u != tid ==> id !in Held(s.tasks[u])
    {
      assert id in Held(t);
    }
  }

  lemma WriterHoldsEveryLeg(rows: Rows, subs: seq<Submission>, t: Task)
    requires t.Auth? && t.phase.Writing? && LocalOk(rows, subs, t) && HoldsOk(rows, subs, t)
    ensures t.job.ids == Dedup(t.job.requested) && Held(t) == Elems(t.job.requested)
    ensures forall id :: id in t.job.requested ==> id in Held(t) && id in rows && rows[id].status == Authorized && Count(subs, id) == 0
  {
    LegIdsAreJobIds(rows, t.job, t.legs);
    assert Held(t) == Elems(t.job.ids) == Elems(t.job.requested);
  }

  /** Every transaction pays the deduplicated request and nothing else: one leg
      per row, its recipient and amount at the same position, one asset, and
      amounts that add up to the total the request was checked for. */
  lemma SubmissionIsTheWholeRequest(cfg: Config, es: seq<Event>, k: nat)
    requires k < |Reached(cfg, es).subs|
    ensures var (rows, sub) := (Reached(cfg, es).rows, Reached(cfg, es).subs[k]);
            && sub.job.ids == Dedup(sub.job.requested) && |sub.job.ids| > 0
            && |sub.recipients| == |sub.amounts| == |sub.job.ids|
            && Sum(sub.amounts) == sub.job.total
            && forall j :: 0 <= j < |sub.job.ids| ==>
                 && sub.job.ids[j] in rows
                 && var fixed := rows[sub.job.ids[j]].fixed;
                    sub.recipients[j] == fixed.beneficiary && sub.amounts[j] == fixed.amountAtomic && fixed.asset == sub.job.asset
  {
    ReachedInv(cfg, es);
    var s := Reached(cfg, es);
    assert SubmissionOk(s.rows, s.subs[k]);
  }

  /** A batch that loses a claim gives back exactly the legs it has claimed. */
  lemma LostClaimReleasesItsLegs(cfg: Config, es: seq<Event>, tid: TaskId, now: Time)
    requires var s := Reached(cfg, es);
             && tid in s.tasks && s.tasks[tid].Auth? && s.tasks[tid].phase.Claiming? && s.tasks[tid].job.mode.Batch?
             && |s.tasks[tid].legs| < |s.tasks[tid].job.ids|
             && !Matches(s.rows, s.tasks[tid].job.ids[|s.tasks[tid].legs|], ONLY_PREPARED)
    ensures var s := Reached(cfg, es);
            var s' := Apply(cfg, s, Step(tid, Go(Clean, now)));
            && s'.rows == s.rows
            && s'.tasks[tid] == Releasing(Held(s.tasks[tid]), None)
            && (forall id :: id in Held(s.tasks[tid]) ==> id in s.rows && s.rows[id].status == Authorized)
  {
    ReachedInv(cfg, es);
    var s := Reached(cfg, es);
    assert HoldsOk(s.rows, s.subs, s.tasks[tid]);
  }

  /** Releasing a leg cannot be lost to a race: the write puts it back to prepared. */
  lemma ReleaseReturnsLegToPrepared(cfg: Config, es: seq<Event>, tid: TaskId, id: Id)
    requires var s := Reached(cfg, es); tid in s.tasks && s.tasks[tid].Releasing? && id in s.tasks[tid].pending
    ensures var s := Reached(cfg, es);
            var s' := Apply(cfg, s, Step(tid, LegWrite(id, Clean)));
            && id in s'.rows && s'.rows[id].status == Prepared
            && s'.tasks[tid] == Releasing(s.tasks[tid].pending - {id}, s.tasks[tid].reason)
  {
    ReachedInv(cfg, es);
    var s := Reached(cfg, es);
    assert HoldsOk(s.rows, s.subs, s.tasks[tid]);
  }

  lemma ClaimWritesOneRow(rows: Rows, t: Task, i: Input, id: Id)
    requires t.Auth? && t.phase.Claiming? && |t.legs| < |t.job.ids| && Changed(rows, ClaimStep(rows, t, i).rows, id)
    ensures id in t.job.ids && id in rows && rows[id].status == Prepared && ClaimStep(rows, t, i).rows[id].status == Authorized
  {
  }

  lemma RecordWritesOwnRow(rows: Rows, t: Task, i: Input, id: Id)
    requires t.Auth? && t.phase.Recording? && t.phase.rec + t.phase.fail <= Elems(LegIds(t.legs))
    requires Changed(rows, RecordStep(rows, t, i).rows, id)
    ensures id in Sent(t)
  {
  }

  lemma SettleWritesOwnRow(rows: Rows, t: Task, i: Input, id: Id)
    requires (t.Releasing? || t.Failing?) && Changed(rows, SettleStep(rows, t, i).rows, id)
    ensures id in t.pending
  {
  }

  /** An authorization writes only rows it has claimed, and a claim itself only
      ever moves one prepared row of the request to authorized. */
  lemma OnlyClaimedLegsAreWritten(cfg: Config, es: seq<Event>, tid: TaskId, i: Input, id: Id)
    requires var s := Reached(cfg, es);
             && tid in s.tasks && (s.tasks[tid].Auth? || s.tasks[tid].Releasing? || s.tasks[tid].Failing?)
             && Changed(s.rows, TaskStep(cfg, tid, s.rows, s.tasks[tid], i).rows, id)
    ensures var s := Reached(cfg, es);
            var (t, f) := (s.tasks[tid], TaskStep(cfg, tid, s.rows, s.tasks[tid], i));
            || id in Held(t) + Sent(t)
            || (t.Auth? && t.phase.Claiming? && id in t.job.ids && id in s.rows
                && s.rows[id].status == Prepared && f.rows[id].status == Authorized)
  {
    ReachedInv(cfg, es);
    var s := Reached(cfg, es);
    var t := s.tasks[tid];
    if t.Auth? && t.phase.Claiming? {
      ClaimWritesOneRow(s.rows, t, i, id);
    } else if t.Auth? && t.phase.Recording? {
      assert LocalOk(s.rows, s.subs, t);
      RecordWritesOwnRow(s.rows, t, i, id);
    } else if t.Auth? {
      SendWritesNoRow(cfg, tid, s.rows, t, i);
    } else {
      SettleWritesOwnRow(s.rows, t, i, id);
    }
  }

  lemma SendWritesNoRow(cfg: Config, tid: TaskId, rows: Rows, t: Task, i: Input)
    requires t.Auth? && !t.phase.Claiming? && !t.phase.Recording?
    ensures AuthStep(cfg, tid, rows, t, i).rows == rows
  {
  }

  // ---- Requests ------------------------------------------------------------

  ghost predicate AskedBatch(es: seq<Event>, tid: TaskId, ids: seq<Id>) {
    exists k :: 0 <= k < |es| && es[k].StartBatch? && es[k].tid == tid && es[k].ids == ids
  }

  ghost predicate AskedCreate(es: seq<Event>, tid: TaskId, fixed: Fixed, execute: bool) {
    exists k :: 0 <= k < |es| && es[k].StartCreate? && es[k].tid == tid && es[k].fixed == fixed && es[k].execute == execute
  }

  ghost predicate AskedAuthorize(es: seq<Event>, tid: TaskId, id: Id) {
    exists k :: 0 <= k < |es| && es[k].StartAuthorize? && es[k].tid == tid && es[k].id == id
  }

  /** One payout: an authorization of it, or its creation with immediate execution. */
  ghost predicate AskedSingle(es: seq<Event>, rows: Rows, tid: TaskId, id: Id) {
    AskedAuthorize(es, tid, id) || (id in rows && AskedCreate(es, tid, rows[id].fixed, true))
  }

  /** The job is what this task's own request asked for. */
  ghost predicate Answers(es: seq<Event>, rows: Rows, tid: TaskId, job: Job) {
    if job.mode.Batch? then AskedBatch(es, tid, job.requested)
    else |job.ids| == 1 && job.requested == job.ids && AskedSingle(es, rows, tid, job.ids[0])
  }

  ghost predicate WorksFor(es: seq<Event>, rows: Rows, tid: TaskId, t: Task) {
    && (t.CreateInsert? ==> AskedCreate(es, tid, t.fixed, t.execute))
    && (t.AuthRead? ==> AskedSingle(es, rows, tid, t.id))
    && (t.BatchRead? ==> AskedBatch(es, tid, t.requested))
    && (t.BatchBalance? || t.Auth? ==> Answers(es, rows, tid, t.job))
  }

  /** What a step's task works for, it had before. */
  lemma CreateKeepsRequest(es: seq<Event>, tid: TaskId, rows: Rows, t: Task, i: Input)
    requires (t.CreateInsert? || t.CreateFind?) && WorksFor(es, rows, tid, t)
    ensures var f := CreateStep(rows, t, i); WorksFor(es, f.rows, tid, f.task)
  {
  }

  lemma ReadKeepsRequest(es: seq<Event>, tid: TaskId, rows: Rows, t: Task, i: Input)
    requires (t.AuthRead? || t.AuthReread? || t.BatchRead? || t.BatchBalance?) && WorksFor(es, rows, tid, t)
    ensures var f := ReadStep(rows, t, i); WorksFor(es, rows, tid, f.task)
  {
  }

  lemma AuthKeepsJob(cfg: Config, tid: TaskId, rows: Rows, t: Task, i: Input)
    requires t.Auth?
    ensures var f := AuthStep(cfg, tid, rows, t, i);
            && (f.task.Auth? ==> f.task.job == t.job)
            && (f.task.Auth? || f.task.AuthReread? || f.task.Releasing? || f.task.Failing? || f.task.Done?)
            && (forall k :: 0 <= k < |f.sent| ==> f.sent[k].task == tid && f.sent[k].job == t.job)
  {
  }

  lemma OnlyAuthSends(cfg: Config, tid: TaskId, rows: Rows, t: Task, i: Input)
    requires TaskStep(cfg, tid, rows, t, i).sent != []
    ensures t.Auth?
  {
  }

  lemma SettleKeepsKind(rows: Rows, t: Task, i: Input)
    ensures t.Releasing? || t.Failing? ==> var f := SettleStep(rows, t, i); f.task.Releasing? || f.task.Failing?
    ensures t.RecRead? || t.RecChain? || t.RecWrite? ==>
              var f := ReconcileStep(rows, t, i); f.task.Done? || f.task.RecChain? || f.task.RecWrite?
  {
  }

  lemma StepKeepsRequest(cfg: Config, es: seq<Event>, tid: TaskId, rows: Rows, t: Task, i: Input)
    requires WorksFor(es, rows, tid, t) && Evolves(rows, TaskStep(cfg, tid, rows, t, i).rows)
    ensures var f := TaskStep(cfg, tid, rows, t, i); WorksFor(es, f.rows, tid, f.task)
  {
    var f := TaskStep(cfg, tid, rows, t, i);
    if t.CreateInsert? || t.CreateFind? {
      CreateKeepsRequest(es, tid, rows, t, i);
    } else if t.Auth? {
      AuthKeepsJob(cfg, tid, rows, t, i);
    } else if t.AuthRead? || t.AuthReread? || t.BatchRead? || t.BatchBalance? {
      ReadKeepsRequest(es, tid, rows, t, i);
    } else {
      SettleKeepsKind(rows, t, i);
    }
  }

  lemma AskedLater(es: seq<Event>, e: Event, tid: TaskId)
    ensures forall ids :: AskedBatch(es, tid, ids) ==> AskedBatch(es + [e], tid, ids)
    ensures forall id :: AskedAuthorize(es, tid, id) ==> AskedAuthorize(es + [e], tid, id)
    ensures forall fixed, x :: AskedCreate(es, tid, fixed, x) ==> AskedCreate(es + [e], tid, fixed, x)
  {
    assert forall k :: 0 <= k < |es| ==> (es + [e])[k] == es[k];
  }

  lemma AnswersLater(es: seq<Event>, e: Event, rows: Rows, rows': Rows, tid: TaskId, job: Job)
    requires Answers(es, rows, tid, job) && Evolves(rows, rows')
    ensures Answers(es + [e], rows', tid, job)
  {
    AskedLater(es, e, tid);
  }

  lemma WorksLater(es: seq<Event>, e: Event, rows: Rows, rows': Rows, tid: TaskId, t: Task)
    requires WorksFor(es, rows, tid, t) && Evolves(rows, rows')
    ensures WorksFor(es + [e], rows', tid, t)
  {
    AskedLater(es, e, tid);
  }

  lemma StartedWorks(cfg: Config, es: seq<Event>, rows: Rows, e: Event)
    requires !e.Step? && Started(cfg, e).Some?
    ensures WorksFor(es + [e], rows, e.tid, Started(cfg, e).value)
  {
    assert (es + [e])[|es|] == e;
  }

  /** Every task that is on its way to the network works for what its own request asked:
      the ids of a batch, the id of a single authorization, or the payout a creation
      with immediate execution has just stored. */
  lemma {:induction false} TaskWorksForItsRequest(cfg: Config, es: seq<Event>, tid: TaskId)
    requires tid in Reached(cfg, es).tasks
    ensures WorksFor(es, Reached(cfg, es).rows, tid, Reached(cfg, es).tasks[tid])
  {
    if |es| > 0 {
      var (b, e) := (es[..|es| - 1], es[|es| - 1]);
      var (s, s') := (Reached(cfg, b), Reached(cfg, es));
      assert es == b + [e];
      ReachedInv(cfg, b);
      EventKeepsInv(cfg, s, e);
      if tid in s.tasks {
        TaskWorksForItsRequest(cfg, b, tid);
        WorksLater(b, e, s.rows, s.rows, tid, s.tasks[tid]);
        if e.Step? && e.tid == tid {
          StepKeepsRequest(cfg, es, tid, s.rows, s.tasks[tid], e.input);
        } else {
          WorksLater(b, e, s.rows, s'.rows, tid, s.tasks[tid]);
        }
      } else {
        StartedWorks(cfg, b, s'.rows, e);
      }
    }
  }

  lemma SentAnswers(cfg: Config, es: seq<Event>, tid: TaskId, i: Input, k: nat)
    requires var s := Reached(cfg, es); tid in s.tasks && k < |TaskStep(cfg, tid, s.rows, s.tasks[tid], i).sent|
    ensures var s := Reached(cfg, es);
            var sub := TaskStep(cfg, tid, s.rows, s.tasks[tid], i).sent[k];
            sub.task == tid && Answers(es, s.rows, tid, sub.job)
  {
    var s := Reached(cfg, es);
    OnlyAuthSends(cfg, tid, s.rows, s.tasks[tid], i);
    AuthKeepsJob(cfg, tid, s.rows, s.tasks[tid], i);
    TaskWorksForItsRequest(cfg, es, tid);
  }

  lemma LastEventEvolves(cfg: Config, es: seq<Event>)
    requires |es| > 0
    ensures Evolves(Reached(cfg, es[..|es| - 1]).rows, Reached(cfg, es).rows)
  {
    ReachedInv(cfg, es[..|es| - 1]);
    EventKeepsInv(cfg, Reached(cfg, es[..|es| - 1]), es[|es| - 1]);
  }

  lemma NewSubmission(cfg: Config, s: State, e: Event, k: nat)
    requires k < |Apply(cfg, s, e).subs|
    ensures k < |s.subs| ==> Apply(cfg, s, e).subs[k] == s.subs[k]
    ensures k >= |s.subs| ==>
              && e.Step? && e.tid in s.tasks
              && var sent := TaskStep(cfg, e.tid, s.rows, s.tasks[e.tid], e.input).sent;
                 k - |s.subs| < |sent| && Apply(cfg, s, e).subs[k] == sent[k - |s.subs|]
  {
  }

  /** Every transaction, single or batch, answers an actual request by the same task
      for exactly what it pays. */
  lemma {:induction false} SubmissionWasRequested(cfg: Config, es: seq<Event>, k: nat)
    requires k < |Reached(cfg, es).subs|
    ensures var (s, sub) := (Reached(cfg, es), Reached(cfg, es).subs[k]); Answers(es, s.rows, sub.task, sub.job)
  {
    if |es| > 0 {
      var (b, e) := (es[..|es| - 1], es[|es| - 1]);
      var s := Reached(cfg, b);
      assert es == b + [e];
      var sub := Reached(cfg, es).subs[k];
      NewSubmission(cfg, s, e, k);
      if k < |s.subs| {
        SubmissionWasRequested(cfg, b, k);
      } else {
        SentAnswers(cfg, b, e.tid, e.input, k - |s.subs|);
      }
      LastEventEvolves(cfg, es);
      AnswersLater(b, e, s.rows, Reached(cfg, es).rows, sub.task, sub.job);
    }
  }

  // ---- Creation ------------------------------------------------------------

  ghost predicate OneEach(rows: Rows) {
    forall a, b :: a in rows && b in rows && a != b ==> !Clashes(rows[a], rows[b])
  }

  lemma OnlyCreateAddsRows(cfg: Config, tid: TaskId, rows: Rows, t: Task, i: Input)
    requires !t.CreateInsert?
    ensures TaskStep(cfg, tid, rows, t, i).rows.Keys == rows.Keys
  {
  }

  lemma CreateAddsNoClash(rows: Rows, t: Task, i: Input, a: Id, b: Id)
    requires t.CreateInsert? && a in CreateStep(rows, t, i).rows && b in CreateStep(rows, t, i).rows && a != b
    ensures (a in rows || b in rows)
    ensures var rows' := CreateStep(rows, t, i).rows;
            Clashes(rows'[a], rows'[b]) ==> a in rows && b in rows && Clashes(rows[a], rows[b])
  {
  }

  /** Each client has at most one payout per external id, in every interleaving. */
  lemma {:induction false} OnePayoutPerExternalId(cfg: Config, es: seq<Event>)
    ensures OneEach(Reached(cfg, es).rows)
  {
    if |es| > 0 {
      var n := |es| - 1;
      var (s, e) := (Reached(cfg, es[..n]), es[n]);
      OnePayoutPerExternalId(cfg, es[..n]);
      ReachedInv(cfg, es[..n]);
      EventKeepsInv(cfg, s, e);
      var rows := Reached(cfg, es).rows;
      forall a, b | a in rows && b in rows && a != b
        ensures !Clashes(rows[a], rows[b])
      {
        if e.Step? && e.tid in s.tasks {
          if s.tasks[e.tid].CreateInsert? {
            CreateAddsNoClash(s.rows, s.tasks[e.tid], e.input, a, b);
          } else {
            OnlyCreateAddsRows(cfg, e.tid, s.rows, s.tasks[e.tid], e.input);
          }
        }
        if a in s.rows && b in s.rows {
          assert !Clashes(s.rows[a], s.rows[b]);
        }
      }
    }
  }

  // ---- What does not hold --------------------------------------------------

  const DIRECT: Config := Config(false, false, map[])
  const BILL: Fixed := Fixed(None, "p", 0, 5, 9)
  const JOB: Job := Job(Single, None, [7], [7], 0, 5, 0)
  const CLAIMED: Payout := Payout(BILL, Authorized, None, None, Some(0), None, None)
  const PAID: Payout := Payout(BILL, Broadcasted, Some(33), None, Some(0), Some(0), None)
  const LEGS: seq<Leg> := [Leg(7, CLAIMED)]

  lemma Extend(es: seq<Event>, e: Event)
    ensures Reached(DIRECT, es + [e]) == Apply(DIRECT, Reached(DIRECT, es), e)
  {
    assert (es + [e])[..|es|] == es;
  }

  /** A run that brings one authorization of payout 7 to its claim. */
  lemma RunToClaim() returns (es: seq<Event>)
    ensures Reached(DIRECT, es) == State(map[7 := NewPayout(BILL)], map[0 := Done, 1 := Auth(JOB, [], Claiming)], [])
  {
    var (e1, e2, e3, e4) := (StartCreate(0, BILL, false), Step(0, NewId(7, Clean)), StartAuthorize(1, 7, None), Step(1, Go(Clean, 0)));
    Extend([], e1);
    Extend([] + [e1], e2);
    assert Reached(DIRECT, [] + [e1] + [e2]) == State(map[7 := NewPayout(BILL)], map[0 := Done], []);
    Extend([] + [e1] + [e2], e3);
    Extend([] + [e1] + [e2] + [e3], e4);
    es := [] + [e1] + [e2] + [e3] + [e4];
  }

  lemma RunToWriting() returns (es: seq<Event>)
    ensures Reached(DIRECT, es) == State(map[7 := CLAIMED], map[0 := Done, 1 := Auth(JOB, LEGS, Writing)], [])
  {
    var claim := RunToClaim();
    var go, enough := Step(1, Go(Clean, 0)), Step(1, Amount(5, 0));
    Extend(claim, go);
    assert Matches(map[7 := NewPayout(BILL)], 7, ONLY_PREPARED) && [] + [Leg(7, CLAIMED)] == LEGS;
    assert ClaimStep(map[7 := NewPayout(BILL)], Auth(JOB, [], Claiming), go.input) == Effect(map[7 := CLAIMED], Auth(JOB, LEGS, Auditing), []);
    assert Reached(DIRECT, claim + [go]) == State(map[7 := CLAIMED], map[0 := Done, 1 := Auth(JOB, LEGS, Auditing)], []);
    Extend(claim + [go], go);
    Extend(claim + [go] + [go], enough);
    es := claim + [go] + [go] + [enough];
  }

  const SENT: Submission := Sends(1, Auth(JOB, LEGS, Writing), 33)

  lemma SentOnce()
    ensures Count([] + [SENT], 7) == 1 && 7 in Elems(LegIds(LEGS))
  {
    CountAppend([], SENT, 7);
    assert multiset(JOB.ids)[7] == 1;
    assert LegIds(LEGS) == [7];
  }

  /** The network has taken the transaction, and the sender saw an error. */
  lemma RunToLostSend() returns (es: seq<Event>)
    ensures var s := Reached(DIRECT, es);
            s.rows == map[7 := CLAIMED] && 1 in s.tasks && s.tasks[1] == Failing(Elems(LegIds(LEGS)), true) && s.subs == [] + [SENT]
  {
    var run := RunToWriting();
    var lost := Step(1, WriteError(true, 33));
    Extend(run, lost);
    es := run + [lost];
  }

  /** A failed payout may have been sent: an error after the network took the
      transaction leaves the row failed, without a hash. */
  lemma FailedMayHaveBeenSubmitted() returns (es: seq<Event>)
    ensures var s := Reached(DIRECT, es);
            7 in s.rows && s.rows[7].status == Failed && s.rows[7].transactionHash.None? && Count(s.subs, 7) == 1
  {
    var run := RunToLostSend();
    var fail := Step(1, FailWrite(7, Clean));
    SentOnce();
    Extend(run, fail);
    es := run + [fail];
  }

  lemma RunToBroadcasted() returns (es: seq<Event>)
    ensures var s := Reached(DIRECT, es); s.rows == map[7 := PAID] && s.tasks.Keys == {0, 1}
  {
    var run := RunToWriting();
    var wrote, go, record := Step(1, Wrote(33)), Step(1, Go(Clean, 0)), Step(1, LegWrite(7, Clean));
    assert LegIds(LEGS) == [7] && 7 in Elems(LegIds(LEGS));
    Extend(run, wrote);
    Extend(run + [wrote], go);
    var s := Reached(DIRECT, run + [wrote] + [go]);
    assert s.rows == map[7 := CLAIMED] && s.tasks.Keys == {0, 1}
           && s.tasks[1] == Auth(JOB, LEGS, Recording(33, false, Elems(LegIds(LEGS)), {}, false));
    Extend(run + [wrote] + [go], record);
    es := run + [wrote] + [go] + [record];
  }

  lemma RunToTwoSnapshots() returns (es: seq<Event>)
    ensures var s := Reached(DIRECT, es);
            && s.rows == map[7 := PAID] && 2 in s.tasks && 3 in s.tasks
            && s.tasks[2] == s.tasks[3] == RecChain(7, PAID)
  {
    var run := RunToBroadcasted();
    var (a, b, ra, rb) := (StartReconcile(2, 7, None), StartReconcile(3, 7, None), Step(2, Throw), Step(3, Throw));
    Extend(run, a);
    Extend(run + [a], b);
    Extend(run + [a] + [b], ra);
    Extend(run + [a] + [b] + [ra], rb);
    es := run + [a] + [b] + [ra] + [rb];
  }

  /** Confirmed is not absorbing when reconciles race: the slower one writes its
      stale snapshot over the confirmation. */
  lemma StaleReconcileOverwritesConfirmed() returns (es: seq<Event>, more: seq<Event>)
    ensures var s := Reached(DIRECT, es); 7 in s.rows && s.rows[7].status == Confirmed
    ensures var s := Reached(DIRECT, es + more); 7 in s.rows && s.rows[7].status == Broadcasted
  {
    var run := RunToTwoSnapshots();
    var final, go3 := Step(3, Chain(TxSuccess(true), 4)), Step(3, Go(Clean, 4));
    var pending, go2 := Step(2, Chain(TxPending, 5)), Step(2, Go(Clean, 5));
    Extend(run, final);
    Extend(run + [final], go3);
    es := run + [final] + [go3];
    assert Reached(DIRECT, es).rows == map[7 := PAID.(status := Confirmed, confirmedAt := Some(4))];
    Extend(es, pending);
    Extend(es + [pending], go2);
    more := [pending] + [go2];
    assert es + more == es + [pending] + [go2];
  }
}
