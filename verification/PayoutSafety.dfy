/** What every interleaving of payout requests keeps. */
module PayoutSafety {
  import opened Common
  import opened PayoutLedger
  import opened PayoutProtocol

  // ---- Claims --------------------------------------------------------------

  /** Legs a task has claimed and not yet handed to the network or given back. */
  ghost function Held(t: Task): set<Id> {
    if t.Auth? then (if t.phase.Receipt? || t.phase.Recording? then {} else Elems(LegIds(t.legs)))
    else if t.Releasing? || (t.Failing? && !t.submitted) then t.pending
    else {}
  }

  /** Legs a task has handed to the network and may still write. */
  ghost function Sent(t: Task): set<Id> {
    if t.Auth? then (if t.phase.Receipt? || t.phase.Recording? then Elems(LegIds(t.legs)) else {})
    else if t.Failing? && t.submitted then t.pending
    else {}
  }

  // ---- Invariant -----------------------------------------------------------

  ghost predicate SentWith(subs: seq<Submission>, id: Id, hash: TxHash) {
    exists k :: 0 <= k < |subs| && id in subs[k].job.ids && subs[k].hash == hash
  }

  predicate Settled(status: Status) {
    status in {Broadcasted, Confirmed, Failed}
  }

  ghost predicate RowOk(rows: Rows, subs: seq<Submission>, id: Id)
    requires id in rows
  {
    var (p, n) := (rows[id], Count(subs, id));
    && n <= 1
    && (n == 1 ==> p.status != Prepared)
    && (p.transactionHash.Some? ==> Settled(p.status) && n == 1 && SentWith(subs, id, p.transactionHash.value))
    && (p.status in {Broadcasted, Confirmed} ==> p.transactionHash.Some?)
  }

  /** The job names existing rows once each, of one asset, and its total is theirs. */
  ghost predicate JobOk(rows: Rows, job: Job) {
    && job.ids == Dedup(job.requested) && NoDup(job.ids)
    && (forall i :: 0 <= i < |job.ids| ==> job.ids[i] in rows && rows[job.ids[i]].fixed.asset == job.asset)
    && job.total == Sum(AmountsOf(rows, job.ids))
  }

  ghost predicate LegsOk(rows: Rows, job: Job, legs: seq<Leg>) {
    && JobOk(rows, job) && |legs| <= |job.ids|
    && forall i :: 0 <= i < |legs| ==> legs[i].id == job.ids[i] && legs[i].rec.fixed == rows[job.ids[i]].fixed
  }

  ghost predicate AuthOk(rows: Rows, subs: seq<Submission>, job: Job, legs: seq<Leg>, phase: Phase) {
    && LegsOk(rows, job, legs)
    && (!phase.Claiming? ==> |legs| == |job.ids| && |legs| > 0)
    && (phase.Receipt? || phase.Recording? ==> SentAll(subs, job, phase.hash))
    && (phase.Recording? ==> phase.rec + phase.fail <= Elems(LegIds(legs)))
  }

  /** Each task's own facts: what it has read and what it is entitled to. */
  ghost predicate LocalOk(rows: Rows, subs: seq<Submission>, t: Task) {
    && (t.BatchRead? ==> t.ids == Dedup(t.requested) && ReadsOk(rows, t.got))
    && (t.BatchBalance? ==> JobOk(rows, t.job))
    && (t.Auth? ==> AuthOk(rows, subs, t.job, t.legs, t.phase))
    && (t.RecChain? ==>
          && t.id in rows && t.snap.transactionHash.Some?
          && t.snap.transactionHash == rows[t.id].transactionHash && Settled(t.snap.status))
    && (t.RecWrite? ==> t.id in rows && rows[t.id].transactionHash.Some? && Settled(t.status))
  }

  ghost predicate ReadsOk(rows: Rows, got: map<Id, Payout>) {
    forall id :: id in got ==> id in rows && got[id].fixed == rows[id].fixed
  }

  ghost predicate SentAll(subs: seq<Submission>, job: Job, hash: TxHash) {
    forall i :: 0 <= i < |job.ids| ==> SentWith(subs, job.ids[i], hash)
  }

  /** A held leg is authorized and unsent; a sent leg was sent once. */
  ghost predicate HoldsOk(rows: Rows, subs: seq<Submission>, t: Task) {
    && (forall id :: id in Held(t) ==> id in rows && rows[id].status == Authorized && Count(subs, id) == 0)
    && (forall id :: id in Sent(t) ==> id in rows && Count(subs, id) == 1)
  }

  ghost predicate Exclusive(tasks: map<TaskId, Task>) {
    forall t, u, id :: t in tasks && u in tasks && t != u && id in Held(tasks[t]) ==> id !in Held(tasks[u])
  }

  /** Every transaction pays the deduplicated request, leg by leg, from its rows. */
  ghost predicate SubmissionOk(rows: Rows, sub: Submission) {
    && JobOk(rows, sub.job) && |sub.job.ids| > 0
    && sub.recipients == RecipientsOf(rows, sub.job.ids)
    && sub.amounts == AmountsOf(rows, sub.job.ids)
    && Sum(sub.amounts) == sub.job.total
  }

  ghost predicate RowsOk(rows: Rows, subs: seq<Submission>) {
    && (forall id :: id in rows ==> RowOk(rows, subs, id))
    && (forall id :: id !in rows ==> Count(subs, id) == 0)
  }

  ghost predicate TasksOk(rows: Rows, subs: seq<Submission>, tasks: map<TaskId, Task>) {
    forall t :: t in tasks ==> LocalOk(rows, subs, tasks[t]) && HoldsOk(rows, subs, tasks[t])
  }

  ghost predicate SubmissionsOk(rows: Rows, subs: seq<Submission>) {
    forall k :: 0 <= k < |subs| ==> SubmissionOk(rows, subs[k])
  }

  ghost predicate Inv(s: State) {
    && RowsOk(s.rows, s.subs)
    && TasksOk(s.rows, s.subs, s.tasks)
    && Exclusive(s.tasks)
    && SubmissionsOk(s.rows, s.subs)
  }

  // ---- Frame ---------------------------------------------------------------

  /** Rows are never deleted, their fixed columns never move, hashes stay. */
  ghost predicate Evolves(a: Rows, b: Rows) {
    forall id :: id in a ==> id in b && b[id].fixed == a[id].fixed
                             && (a[id].transactionHash.Some? ==> b[id].transactionHash == a[id].transactionHash)
  }

  lemma JobStable(a: Rows, b: Rows, job: Job)
    requires Evolves(a, b) && JobOk(a, job)
    ensures JobOk(b, job) && AmountsOf(b, job.ids) == AmountsOf(a, job.ids)
    ensures RecipientsOf(b, job.ids) == RecipientsOf(a, job.ids)
  {
    assert AmountsOf(b, job.ids) == AmountsOf(a, job.ids);
    assert RecipientsOf(b, job.ids) == RecipientsOf(a, job.ids);
  }

  lemma SentWithStable(subs: seq<Submission>, more: seq<Submission>, id: Id, hash: TxHash)
    requires SentWith(subs, id, hash)
    ensures SentWith(subs + more, id, hash)
  {
    var k :| 0 <= k < |subs| && id in subs[k].job.ids && subs[k].hash == hash;
    assert (subs + more)[k] == subs[k];
  }

  lemma LocalStable(rows: Rows, rows': Rows, subs: seq<Submission>, more: seq<Submission>, t: Task)
    requires Evolves(rows, rows') && LocalOk(rows, subs, t)
    ensures LocalOk(rows', subs + more, t)
  {
    if t.BatchBalance? {
      JobStable(rows, rows', t.job);
    } else if t.Auth? {
      JobStable(rows, rows', t.job);
      if t.phase.Receipt? || t.phase.Recording? {
        SentAllStable(subs, more, t.job, t.phase.hash);
      }
    }
  }

  lemma SentAllStable(subs: seq<Submission>, more: seq<Submission>, job: Job, hash: TxHash)
    requires SentAll(subs, job, hash)
    ensures SentAll(subs + more, job, hash)
  {
    forall i | 0 <= i < |job.ids|
      ensures SentWith(subs + more, job.ids[i], hash)
    {
      SentWithStable(subs, more, job.ids[i], hash);
    }
  }

  lemma SubmissionsStable(rows: Rows, rows': Rows, subs: seq<Submission>)
    requires Evolves(rows, rows') && SubmissionsOk(rows, subs)
    ensures SubmissionsOk(rows', subs)
  {
    forall k | 0 <= k < |subs|
      ensures SubmissionOk(rows', subs[k])
    {
      JobStable(rows, rows', subs[k].job);
    }
  }

  lemma CountAppend(subs: seq<Submission>, sub: Submission, id: Id)
    ensures Count(subs + [sub], id) == Count(subs, id) + multiset(sub.job.ids)[id]
  {
    assert (subs + [sub])[..|subs|] == subs;
  }

  // ---- Quiet steps: those that send nothing --------------------------------

  predicate Changed(rows: Rows, rows': Rows, id: Id) {
    id in rows' && (id !in rows || rows'[id] != rows[id])
  }

  /** No other task can hold this row's claim. */
  ghost predicate Free(rows: Rows, subs: seq<Submission>, t: Task, id: Id) {
    id !in rows || id in Held(t) || rows[id].status != Authorized || Count(subs, id) == 1
  }

  /** What a quiet step must show about itself: it only changes rows that are its
      own or that nobody holds, and leaves them and itself in order. */
  ghost predicate Sound(rows: Rows, subs: seq<Submission>, t: Task, f: Effect) {
    && f.sent == []
    && Evolves(rows, f.rows)
    && LocalOk(f.rows, subs, f.task) && HoldsOk(f.rows, subs, f.task)
    && (forall id :: Changed(rows, f.rows, id) ==> RowOk(f.rows, subs, id) && Free(rows, subs, t, id))
    && (forall id :: id in Held(f.task) ==> id in Held(t) || (id in rows && rows[id].status == Prepared))
  }

  lemma SoundKeepsOthers(rows: Rows, subs: seq<Submission>, t: Task, f: Effect, u: Task)
    requires Sound(rows, subs, t, f) && LocalOk(rows, subs, u) && HoldsOk(rows, subs, u)
    requires forall id :: id in Held(t) ==> id !in Held(u)
    ensures LocalOk(f.rows, subs, u) && HoldsOk(f.rows, subs, u)
    ensures forall id :: id in Held(f.task) ==> id !in Held(u)
  {
    LocalStable(rows, f.rows, subs, [], u);
    assert subs + [] == subs;
    forall id | id in Held(u)
      ensures id in f.rows && f.rows[id].status == Authorized
    {
      assert !Free(rows, subs, t, id);
    }
  }

  lemma SoundStepKeepsInv(s: State, tid: TaskId, t: Task, f: Effect)
    requires Inv(s) && Sound(s.rows, s.subs, t, f)
    requires (tid in s.tasks && s.tasks[tid] == t) || (tid !in s.tasks && t == Done)
    ensures Inv(Take(s, tid, f))
    ensures Evolves(s.rows, f.rows)
  {
    assert s.subs + f.sent == s.subs;
    SoundStepKeepsTasks(s, tid, t, f);
    SoundStepKeepsRows(s.rows, s.subs, t, f);
    SubmissionsStable(s.rows, f.rows, s.subs);
  }

  lemma SoundStepKeepsRows(rows: Rows, subs: seq<Submission>, t: Task, f: Effect)
    requires RowsOk(rows, subs) && Sound(rows, subs, t, f)
    ensures RowsOk(f.rows, subs)
  {
    forall id | id in f.rows
      ensures RowOk(f.rows, subs, id)
    {
      if !Changed(rows, f.rows, id) {
        assert RowOk(rows, subs, id);
      }
    }
  }

  lemma SoundStepKeepsTasks(s: State, tid: TaskId, t: Task, f: Effect)
    requires TasksOk(s.rows, s.subs, s.tasks) && Exclusive(s.tasks) && Sound(s.rows, s.subs, t, f)
    requires (tid in s.tasks && s.tasks[tid] == t) || (tid !in s.tasks && t == Done)
    ensures TasksOk(f.rows, s.subs, s.tasks[tid := f.task]) && Exclusive(s.tasks[tid := f.task])
  {
    forall u | u in s.tasks && u != tid
      ensures LocalOk(f.rows, s.subs, s.tasks[u]) && HoldsOk(f.rows, s.subs, s.tasks[u])
      ensures forall id :: id in Held(f.task) ==> id !in Held(s.tasks[u])
    {
      SoundKeepsOthers(s.rows, s.subs, t, f, s.tasks[u]);
    }
  }

  lemma CreateIsSound(rows: Rows, subs: seq<Submission>, t: Task, i: Input)
    requires t.CreateInsert? || t.CreateFind?
    requires i.NewId? && i.id !in rows ==> Count(subs, i.id) == 0
    ensures Sound(rows, subs, t, CreateStep(rows, t, i))
  {
    var f := CreateStep(rows, t, i);
    if f.rows == rows {
      SameRowsIsSound(rows, subs, t, f.task);
    } else {
      NewRowIsSound(rows, subs, t, i.id, NewPayout(t.fixed), f.task);
    }
  }

  lemma NewRowIsSound(rows: Rows, subs: seq<Submission>, t: Task, id: Id, p: Payout, t': Task)
    requires id !in rows && Count(subs, id) == 0 && p.transactionHash.None? && p.status == Prepared && (t'.Done? || t'.AuthRead?)
    ensures Sound(rows, subs, t, Effect(rows[id := p], t', []))
  {
    MovedRowIsSound(rows, subs, t, id, p, t');
  }

  /** A step that writes one row and takes on no claim. */
  lemma MovedRowIsSound(rows: Rows, subs: seq<Submission>, t: Task, id: Id, p: Payout, t': Task)
    requires Evolves(rows, rows[id := p]) && RowOk(rows[id := p], subs, id) && Free(rows, subs, t, id)
    requires LocalOk(rows[id := p], subs, t') && Held(t') == Sent(t') == {}
    ensures Sound(rows, subs, t, Effect(rows[id := p], t', []))
  {
    var rows' := rows[id := p];
    forall k | Changed(rows, rows', k)
      ensures k == id
    {
    }
  }

  lemma SingletonJob(rows: Rows, id: Id, job: Job)
    requires id in rows && job.requested == [id] && job.ids == [id]
    requires job.asset == rows[id].fixed.asset && job.total == rows[id].fixed.amountAtomic
    ensures JobOk(rows, job)
  {
    assert [id][..0] == [] && Dedup([id]) == [id];
    var amounts := AmountsOf(rows, [id]);
    assert amounts[..0] == [] && Sum(amounts) == amounts[0];
  }

  lemma CheckedBatchIsOk(rows: Rows, got: map<Id, Payout>, requested: seq<Id>, ids: seq<Id>, ctx: Option<string>)
    requires ReadsOk(rows, got) && ids == Dedup(requested) && forall k :: 0 <= k < |ids| ==> ids[k] in got
    ensures var t := BatchChecked(requested, ids, ctx, got);
            t.Done? || (t.BatchBalance? && JobOk(rows, t.job))
  {
    assert forall k :: 0 <= k < |ids| ==> ids[k] in rows && got[ids[k]].fixed == rows[ids[k]].fixed;
    assert AmountsOf(rows, ids) == AmountsOf(got, ids);
  }

  lemma BatchReadIsSound(rows: Rows, subs: seq<Submission>, t: Task, i: Input)
    requires t.BatchRead? && LocalOk(rows, subs, t)
    ensures Sound(rows, subs, t, ReadStep(rows, t, i))
  {
    var f := ReadStep(rows, t, i);
    if f.task.BatchBalance? {
      CheckedBatchIsOk(rows, t.got[i.id := rows[i.id]], t.requested, t.ids, t.ctx);
    }
    SameRowsIsSound(rows, subs, t, f.task);
  }

  lemma ReadIsSound(rows: Rows, subs: seq<Submission>, t: Task, i: Input)
    requires (t.AuthRead? || t.AuthReread? || t.BatchRead? || t.BatchBalance?) && LocalOk(rows, subs, t)
    ensures Sound(rows, subs, t, ReadStep(rows, t, i))
  {
    if t.BatchRead? {
      BatchReadIsSound(rows, subs, t, i);
    } else {
      var f := ReadStep(rows, t, i);
      if t.AuthRead? && f.task.Auth? {
        SingletonJob(rows, t.id, f.task.job);
      }
      SameRowsIsSound(rows, subs, t, f.task);
    }
  }

  lemma ClaimedLegsOk(rows: Rows, subs: seq<Submission>, t: Task, now: Time)
    requires t.Auth? && t.phase.Claiming? && |t.legs| < |t.job.ids| && LocalOk(rows, subs, t) && HoldsOk(rows, subs, t)
    requires var id := t.job.ids[|t.legs|]; RowOk(rows, subs, id) && rows[id].status == Prepared
    ensures var id := t.job.ids[|t.legs|];
            var rows' := rows[id := Patched(rows[id], ClaimPatch(now))];
            var t' := Auth(t.job, t.legs + [Leg(id, rows'[id])], if |t.legs| + 1 == |t.job.ids| then Auditing else Claiming);
            Evolves(rows, rows') && LocalOk(rows', subs, t') && HoldsOk(rows', subs, t') && Held(t') == Held(t) + {id}
  {
    var id := t.job.ids[|t.legs|];
    var rows' := rows[id := Patched(rows[id], ClaimPatch(now))];
    var legs := t.legs + [Leg(id, rows'[id])];
    JobStable(rows, rows', t.job);
    assert LegIds(legs) == LegIds(t.legs) + [id];
    ElemsAppend(LegIds(t.legs), id);
  }

  /** A claim that finds the row prepared, whether or not the caller hears of it. */
  lemma WonClaimIsSound(rows: Rows, subs: seq<Submission>, t: Task, i: Input)
    requires t.Auth? && t.phase.Claiming? && |t.legs| < |t.job.ids| && LocalOk(rows, subs, t) && HoldsOk(rows, subs, t)
    requires var id := t.job.ids[|t.legs|]; RowOk(rows, subs, id) && rows[id].status == Prepared
    requires i.Go? && !i.fault.ErrorBefore?
    ensures Sound(rows, subs, t, ClaimStep(rows, t, i))
  {
    var (id, f) := (t.job.ids[|t.legs|], ClaimStep(rows, t, i));
    var p := Patched(rows[id], ClaimPatch(t.job.now));
    ClaimedLegsOk(rows, subs, t, t.job.now);
    assert f.rows == rows[id := p] && Updated(rows, id, ClaimPatch(t.job.now), ONLY_PREPARED) == rows[id := p];
    ClaimedRowIsSound(rows, subs, t, id, p, f.task);
  }

  /** A step that claims one prepared row, for its task or for nobody. */
  lemma ClaimedRowIsSound(rows: Rows, subs: seq<Submission>, t: Task, id: Id, p: Payout, t': Task)
    requires t.Auth? && id in rows && RowOk(rows, subs, id) && rows[id].status == Prepared && p == Patched(rows[id], ClaimPatch(t.job.now))
    requires Evolves(rows, rows[id := p]) && LocalOk(rows[id := p], subs, t') && HoldsOk(rows[id := p], subs, t') && Held(t') <= Held(t) + {id}
    ensures Sound(rows, subs, t, Effect(rows[id := p], t', []))
  {
    var rows' := rows[id := p];
    assert RowOk(rows', subs, id);
    forall k | Changed(rows, rows', k)
      ensures k == id
    {
    }
  }

  /** A claim that writes nothing. */
  lemma LostClaimIsSound(rows: Rows, subs: seq<Submission>, t: Task, i: Input)
    requires t.Auth? && t.phase.Claiming? && |t.legs| < |t.job.ids| && LocalOk(rows, subs, t) && HoldsOk(rows, subs, t)
    requires i.Go? && !i.fault.ErrorBefore? ==> rows[t.job.ids[|t.legs|]].status != Prepared
    ensures Sound(rows, subs, t, ClaimStep(rows, t, i))
  {
    SameRowsIsSound(rows, subs, t, ClaimStep(rows, t, i).task);
  }

  lemma ClaimIsSound(rows: Rows, subs: seq<Submission>, t: Task, i: Input)
    requires t.Auth? && t.phase.Claiming? && |t.legs| < |t.job.ids| && LocalOk(rows, subs, t) && HoldsOk(rows, subs, t)
    requires RowOk(rows, subs, t.job.ids[|t.legs|])
    ensures Sound(rows, subs, t, ClaimStep(rows, t, i))
  {
    if i.Go? && !i.fault.ErrorBefore? && rows[t.job.ids[|t.legs|]].status == Prepared {
      WonClaimIsSound(rows, subs, t, i);
    } else {
      LostClaimIsSound(rows, subs, t, i);
    }
  }

  lemma LegIdsAreJobIds(rows: Rows, job: Job, legs: seq<Leg>)
    requires LegsOk(rows, job, legs) && |legs| == |job.ids|
    ensures LegIds(legs) == job.ids && LegAmounts(legs) == AmountsOf(rows, job.ids)
    ensures LegRecipients(legs) == RecipientsOf(rows, job.ids)
  {
  }

  /** A step that writes no row only has to account for its task. */
  lemma SameRowsIsSound(rows: Rows, subs: seq<Submission>, t: Task, t': Task)
    requires LocalOk(rows, subs, t') && HoldsOk(rows, subs, t') && Held(t') <= Held(t)
    ensures Sound(rows, subs, t, Effect(rows, t', []))
  {
  }

  lemma PhaseOk(rows: Rows, subs: seq<Submission>, t: Task, phase: Phase)
    requires t.Auth? && !t.phase.Claiming? && LocalOk(rows, subs, t) && HoldsOk(rows, subs, t)
    requires t.phase.Receipt? ==> phase.Recording? && phase.hash == t.phase.hash
    requires !t.phase.Receipt? && !t.phase.Recording? ==> !phase.Receipt? && !phase.Recording?
    requires t.phase.Recording? ==> phase.Recording? && phase.hash == t.phase.hash
    requires phase.Recording? ==> phase.rec + phase.fail <= Elems(LegIds(t.legs))
    ensures LocalOk(rows, subs, t.(phase := phase)) && HoldsOk(rows, subs, t.(phase := phase))
    ensures Held(t.(phase := phase)) == Held(t)
  {
  }

  lemma GivenUpOk(rows: Rows, subs: seq<Submission>, t: Task, t': Task)
    requires t.Auth? && HoldsOk(rows, subs, t)
    requires t'.Releasing? || t'.Failing?
    requires t'.pending == Elems(LegIds(t.legs))
    requires (t'.Failing? && t'.submitted) <==> (t.phase.Receipt? || t.phase.Recording?)
    ensures LocalOk(rows, subs, t') && HoldsOk(rows, subs, t') && Held(t') == Held(t)
  {
  }

  lemma SendIsSound(cfg: Config, tid: TaskId, rows: Rows, subs: seq<Submission>, t: Task, i: Input)
    requires t.Auth? && !t.phase.Claiming? && !t.phase.Recording? && |t.legs| > 0
    requires LocalOk(rows, subs, t) && HoldsOk(rows, subs, t)
    requires SendStep(cfg, tid, rows, t, i).sent == []
    ensures Sound(rows, subs, t, SendStep(cfg, tid, rows, t, i))
  {
    SendShape(cfg, tid, rows, t, i);
    QuietSendIsSound(rows, subs, t, SendStep(cfg, tid, rows, t, i));
  }

  /** A step towards the network that sends nothing: it waits, moves on, gives up, or ends. */
  ghost predicate QuietSend(rows: Rows, t: Task, f: Effect)
    requires t.Auth?
  {
    var sent := t.phase.Receipt?;
    && f.rows == rows && f.sent == []
    && (|| f.task == t || f.task == Done
        || (f.task.Auth? && f.task == t.(phase := f.task.phase)
            && if sent then f.task.phase.Recording? && f.task.phase == Recording(t.phase.hash, f.task.phase.confirmed, Elems(LegIds(t.legs)), {}, false)
               else !f.task.phase.Claiming? && !f.task.phase.Receipt? && !f.task.phase.Recording?)
        || f.task == Failing(Elems(LegIds(t.legs)), sent)
        || (f.task == Conflict(t.legs) && !sent))
  }

  lemma SendShape(cfg: Config, tid: TaskId, rows: Rows, t: Task, i: Input)
    requires t.Auth? && !t.phase.Claiming? && !t.phase.Recording? && |t.legs| > 0
    requires SendStep(cfg, tid, rows, t, i).sent == []
    ensures QuietSend(rows, t, SendStep(cfg, tid, rows, t, i))
  {
  }

  lemma QuietSendIsSound(rows: Rows, subs: seq<Submission>, t: Task, f: Effect)
    requires t.Auth? && !t.phase.Claiming? && !t.phase.Recording? && LocalOk(rows, subs, t) && HoldsOk(rows, subs, t)
    requires QuietSend(rows, t, f)
    ensures Sound(rows, subs, t, f)
  {
    if f.task.Auth? {
      if f.task != t {
        PhaseOk(rows, subs, t, f.task.phase);
      }
    } else if !f.task.Done? {
      GivenUpOk(rows, subs, t, f.task);
    }
    SameRowsIsSound(rows, subs, t, f.task);
  }

  /** A guarded move out of `authorized`, which may record the hash it was sent with. */
  ghost predicate GuardedMove(subs: seq<Submission>, id: Id, d: PayoutPatch) {
    && d.status.Some? && (d.status.value == Prepared ==> Count(subs, id) == 0)
    && (d.transactionHash.Some? <==> d.status.value in {Broadcasted, Confirmed})
    && (d.transactionHash.Some? ==>
          d.transactionHash.value.Some? && Count(subs, id) == 1 && SentWith(subs, id, d.transactionHash.value.value))
  }

  lemma GuardedMoveRowOk(rows: Rows, subs: seq<Submission>, id: Id, d: PayoutPatch, fault: Fault)
    requires id in rows && RowOk(rows, subs, id) && GuardedMove(subs, id, d)
    ensures var rows' := Write(rows, id, d, ONLY_AUTHORIZED, fault);
            && Evolves(rows, rows') && RowOk(rows', subs, id)
            && (forall k :: Changed(rows, rows', k) ==> k == id)
  {
  }

  /** Moving a leg the task holds or has sent. */
  lemma OwnedWriteIsSound(rows: Rows, subs: seq<Submission>, t: Task, t': Task, id: Id, d: PayoutPatch, fault: Fault)
    requires id in Held(t) + Sent(t) && HoldsOk(rows, subs, t) && RowOk(rows, subs, id) && GuardedMove(subs, id, d)
    requires var rows' := Write(rows, id, d, ONLY_AUTHORIZED, fault);
             LocalOk(rows', subs, t') && Held(t') <= Held(t) - {id} && Sent(t') <= Sent(t)
    ensures Sound(rows, subs, t, Effect(Write(rows, id, d, ONLY_AUTHORIZED, fault), t', []))
  {
    GuardedMoveRowOk(rows, subs, id, d, fault);
    var rows' := Write(rows, id, d, ONLY_AUTHORIZED, fault);
    assert HoldsOk(rows', subs, t');
  }

  /** Writes guarded by `authorized`, on legs the task has sent. */
  lemma RecordIsSound(rows: Rows, subs: seq<Submission>, t: Task, i: Input)
    requires t.Auth? && t.phase.Recording? && LocalOk(rows, subs, t) && HoldsOk(rows, subs, t)
    requires (i.LegWrite? || i.FailWrite?) && i.id in rows ==> RowOk(rows, subs, i.id)
    ensures Sound(rows, subs, t, RecordStep(rows, t, i))
  {
    var f := RecordStep(rows, t, i);
    if f.task.Auth? {
      PhaseOk(rows, subs, t, f.task.phase);
      if (i.LegWrite? && i.id in t.phase.rec) || (i.FailWrite? && i.id in t.phase.fail) {
        var d := if i.LegWrite? then RecordPatch(t.phase.hash, t.phase.confirmed, t.job.now) else FailPatch();
        LegIdsAreJobIds(rows, t.job, t.legs);
        assert i.id in Elems(LegIds(t.legs)) && SentWith(subs, i.id, t.phase.hash);
        GuardedMoveRowOk(rows, subs, i.id, d, i.fault);
        LocalStable(rows, f.rows, subs, [], f.task);
        assert subs + [] == subs;
        OwnedWriteIsSound(rows, subs, t, f.task, i.id, d, i.fault);
        return;
      }
    }
    SameRowsIsSound(rows, subs, t, f.task);
  }

  lemma SettleIsSound(rows: Rows, subs: seq<Submission>, t: Task, i: Input)
    requires (t.Releasing? || t.Failing?) && HoldsOk(rows, subs, t)
    requires (i.LegWrite? || i.FailWrite?) && i.id in rows ==> RowOk(rows, subs, i.id)
    ensures Sound(rows, subs, t, SettleStep(rows, t, i))
  {
    var f := SettleStep(rows, t, i);
    if t.Releasing? && i.LegWrite? && i.id in t.pending {
      OwnedWriteIsSound(rows, subs, t, f.task, i.id, ReleasePatch(t.reason), i.fault);
    } else if t.Failing? && i.FailWrite? && i.id in t.pending {
      OwnedWriteIsSound(rows, subs, t, f.task, i.id, FailPatch(), i.fault);
    } else {
      SameRowsIsSound(rows, subs, t, t);
    }
  }

  /** The unguarded stale write: its row carries a hash, so nobody holds it. */
  lemma StaleWriteIsSound(rows: Rows, subs: seq<Submission>, t: Task, i: Input)
    requires t.RecWrite? && LocalOk(rows, subs, t) && RowOk(rows, subs, t.id) && i.Go?
    ensures Sound(rows, subs, t, ReconcileStep(rows, t, i))
  {
    var f := ReconcileStep(rows, t, i);
    assert Evolves(rows, f.rows) && forall id :: Changed(rows, f.rows, id) ==> id == t.id;
  }

  lemma ReconcileIsSound(rows: Rows, subs: seq<Submission>, t: Task, i: Input)
    requires (t.RecRead? || t.RecChain? || t.RecWrite?) && LocalOk(rows, subs, t)
    requires t.id in rows ==> RowOk(rows, subs, t.id)
    ensures Sound(rows, subs, t, ReconcileStep(rows, t, i))
  {
    if t.RecWrite? && i.Go? {
      StaleWriteIsSound(rows, subs, t, i);
    } else {
      SameRowsIsSound(rows, subs, t, ReconcileStep(rows, t, i).task);
    }
  }

  // ---- The one step that sends ---------------------------------------------

  lemma CountsAfterSubmit(subs: seq<Submission>, sub: Submission, id: Id)
    requires NoDup(sub.job.ids)
    ensures Count(subs + [sub], id) == Count(subs, id) + if id in sub.job.ids then 1 else 0
  {
    CountAppend(subs, sub, id);
    CountOfNoDup(sub.job.ids, id);
  }

  lemma RowsOkAfterSubmit(rows: Rows, subs: seq<Submission>, sub: Submission)
    requires RowsOk(rows, subs) && NoDup(sub.job.ids)
    requires forall id :: id in sub.job.ids ==> id in rows && rows[id].status == Authorized && Count(subs, id) == 0
    ensures RowsOk(rows, subs + [sub])
  {
    forall id | id in rows
      ensures RowOk(rows, subs + [sub], id)
    {
      assert RowOk(rows, subs, id);
      CountsAfterSubmit(subs, sub, id);
      if rows[id].transactionHash.Some? {
        SentWithStable(subs, [sub], id, rows[id].transactionHash.value);
      }
    }
    forall id | id !in rows
      ensures Count(subs + [sub], id) == 0
    {
      CountsAfterSubmit(subs, sub, id);
    }
  }

  lemma OtherOkAfterSubmit(rows: Rows, subs: seq<Submission>, sub: Submission, u: Task)
    requires LocalOk(rows, subs, u) && HoldsOk(rows, subs, u) && NoDup(sub.job.ids)
    requires forall id :: id in sub.job.ids ==> id !in Held(u) && Count(subs, id) == 0
    ensures LocalOk(rows, subs + [sub], u) && HoldsOk(rows, subs + [sub], u)
  {
    LocalStable(rows, rows, subs, [sub], u);
    forall id | id in Held(u) + Sent(u)
      ensures Count(subs + [sub], id) == Count(subs, id)
    {
      CountsAfterSubmit(subs, sub, id);
    }
  }

  lemma SenderOkAfterSubmit(rows: Rows, subs: seq<Submission>, sub: Submission, legs: seq<Leg>, t: Task)
    requires LegsOk(rows, sub.job, legs) && |legs| == |sub.job.ids| && |legs| > 0
    requires forall id :: id in sub.job.ids ==> Count(subs, id) == 0
    requires t == Auth(sub.job, legs, Receipt(sub.hash)) || t == Failing(Elems(LegIds(legs)), true)
    ensures LocalOk(rows, subs + [sub], t) && HoldsOk(rows, subs + [sub], t) && Held(t) == {}
  {
    LegIdsAreJobIds(rows, sub.job, legs);
    assert (subs + [sub])[|subs|] == sub;
    forall id | id in sub.job.ids
      ensures Count(subs + [sub], id) == 1 && SentWith(subs + [sub], id, sub.hash)
    {
      CountsAfterSubmit(subs, sub, id);
    }
  }

  lemma TasksOkAfterSubmit(s: State, tid: TaskId, sub: Submission, t': Task)
    requires TasksOk(s.rows, s.subs, s.tasks) && Exclusive(s.tasks) && NoDup(sub.job.ids)
    requires tid in s.tasks && Held(s.tasks[tid]) == Elems(sub.job.ids)
    requires LocalOk(s.rows, s.subs + [sub], t') && HoldsOk(s.rows, s.subs + [sub], t') && Held(t') == {}
    ensures TasksOk(s.rows, s.subs + [sub], s.tasks[tid := t']) && Exclusive(s.tasks[tid := t'])
  {
    forall u | u in s.tasks && u != tid
      ensures LocalOk(s.rows, s.subs + [sub], s.tasks[u]) && HoldsOk(s.rows, s.subs + [sub], s.tasks[u])
    {
      assert HoldsOk(s.rows, s.subs, s.tasks[tid]);
      OtherOkAfterSubmit(s.rows, s.subs, sub, s.tasks[u]);
    }
  }

  lemma SubmissionsOkAfterSubmit(rows: Rows, subs: seq<Submission>, sub: Submission, legs: seq<Leg>)
    requires SubmissionsOk(rows, subs) && LegsOk(rows, sub.job, legs) && |legs| == |sub.job.ids| && |legs| > 0
    requires sub.recipients == LegRecipients(legs) && sub.amounts == LegAmounts(legs)
    ensures SubmissionsOk(rows, subs + [sub])
  {
    LegIdsAreJobIds(rows, sub.job, legs);
    assert SubmissionOk(rows, sub);
  }

  lemma SubmitKeepsInv(s: State, tid: TaskId, hash: TxHash, t': Task)
    requires Inv(s) && tid in s.tasks && s.tasks[tid].Auth? && s.tasks[tid].phase.Writing?
    requires var t := s.tasks[tid]; t' == t.(phase := Receipt(hash)) || t' == Failing(Elems(LegIds(t.legs)), true)
    ensures Inv(Take(s, tid, Effect(s.rows, t', [Sends(tid, s.tasks[tid], hash)])))
  {
    var t := s.tasks[tid];
    var sub := Sends(tid, t, hash);
    assert LocalOk(s.rows, s.subs, t) && HoldsOk(s.rows, s.subs, t);
    LegIdsAreJobIds(s.rows, t.job, t.legs);
    RowsOkAfterSubmit(s.rows, s.subs, sub);
    SenderOkAfterSubmit(s.rows, s.subs, sub, t.legs, t');
    TasksOkAfterSubmit(s, tid, sub, t');
    SubmissionsOkAfterSubmit(s.rows, s.subs, sub, t.legs);
  }

  // ---- Every event, every run ----------------------------------------------

  lemma AuthIsSound(cfg: Config, tid: TaskId, rows: Rows, subs: seq<Submission>, t: Task, i: Input)
    requires RowsOk(rows, subs) && t.Auth? && LocalOk(rows, subs, t) && HoldsOk(rows, subs, t)
    requires AuthStep(cfg, tid, rows, t, i).sent == []
    ensures Sound(rows, subs, t, AuthStep(cfg, tid, rows, t, i))
  {
    if t.phase.Claiming? {
      if |t.legs| < |t.job.ids| {
        ClaimIsSound(rows, subs, t, i);
      } else {
        SameRowsIsSound(rows, subs, t, Done);
      }
    } else if t.phase.Recording? {
      RecordIsSound(rows, subs, t, i);
    } else {
      SendIsSound(cfg, tid, rows, subs, t, i);
    }
  }

  /** The network is reached from one point only, and never by a conflict. */
  lemma OnlyWritingSends(cfg: Config, tid: TaskId, rows: Rows, t: Task, i: Input)
    requires t.Auth? && AuthStep(cfg, tid, rows, t, i).sent != []
    ensures t.phase.Writing? && (i.Wrote? || i.WriteError?)
    ensures var f := AuthStep(cfg, tid, rows, t, i);
            && f == Effect(rows, f.task, [Sends(tid, t, i.hash)])
            && (f.task == t.(phase := Receipt(i.hash)) || f.task == Failing(Elems(LegIds(t.legs)), true))
  {
  }

  lemma AuthKeepsInv(cfg: Config, s: State, tid: TaskId, i: Input)
    requires Inv(s) && tid in s.tasks && s.tasks[tid].Auth?
    ensures Inv(Take(s, tid, AuthStep(cfg, tid, s.rows, s.tasks[tid], i)))
    ensures Evolves(s.rows, AuthStep(cfg, tid, s.rows, s.tasks[tid], i).rows)
  {
    var t := s.tasks[tid];
    var f := AuthStep(cfg, tid, s.rows, t, i);
    if f.sent == [] {
      AuthIsSound(cfg, tid, s.rows, s.subs, t, i);
      SoundStepKeepsInv(s, tid, t, f);
    } else {
      OnlyWritingSends(cfg, tid, s.rows, t, i);
      SubmitKeepsInv(s, tid, i.hash, f.task);
    }
  }

  lemma StepKeepsInv(cfg: Config, s: State, tid: TaskId, i: Input)
    requires Inv(s) && tid in s.tasks
    ensures Inv(Take(s, tid, TaskStep(cfg, tid, s.rows, s.tasks[tid], i)))
    ensures Evolves(s.rows, TaskStep(cfg, tid, s.rows, s.tasks[tid], i).rows)
  {
    var t := s.tasks[tid];
    if t.Auth? {
      AuthKeepsInv(cfg, s, tid, i);
    } else {
      assert LocalOk(s.rows, s.subs, t) && HoldsOk(s.rows, s.subs, t);
      if t.CreateInsert? || t.CreateFind? {
        CreateIsSound(s.rows, s.subs, t, i);
      } else if t.Releasing? || t.Failing? {
        SettleIsSound(s.rows, s.subs, t, i);
      } else if t.RecRead? || t.RecChain? || t.RecWrite? {
        ReconcileIsSound(s.rows, s.subs, t, i);
      } else if !t.Done? {
        ReadIsSound(s.rows, s.subs, t, i);
      }
      SoundStepKeepsInv(s, tid, t, TaskStep(cfg, tid, s.rows, t, i));
    }
  }

  lemma StartKeepsInv(s: State, tid: TaskId, t: Task)
    requires Inv(s) && tid !in s.tasks && LocalOk(s.rows, s.subs, t) && Held(t) == Sent(t) == {}
    ensures Inv(s.(tasks := s.tasks[tid := t]))
  {
    var f := Effect(s.rows, t, []);
    assert s.subs + [] == s.subs;
    assert Take(s, tid, f) == s.(tasks := s.tasks[tid := t]);
    SoundStepKeepsInv(s, tid, Done, f);
  }

  lemma StartedOk(cfg: Config, rows: Rows, subs: seq<Submission>, e: Event)
    requires !e.Step? && Started(cfg, e).Some?
    ensures var t := Started(cfg, e).value; LocalOk(rows, subs, t) && Held(t) == Sent(t) == {}
  {
  }

  lemma StartEventKeepsInv(cfg: Config, s: State, e: Event)
    requires Inv(s) && !e.Step?
    ensures Inv(Apply(cfg, s, e)) && Apply(cfg, s, e).rows == s.rows
  {
    if e.tid !in s.tasks && Started(cfg, e).Some? {
      var t := Started(cfg, e).value;
      StartedOk(cfg, s.rows, s.subs, e);
      StartKeepsInv(s, e.tid, t);
      assert Apply(cfg, s, e) == s.(tasks := s.tasks[e.tid := t]);
    } else {
      assert Apply(cfg, s, e) == s;
    }
  }

  lemma EventKeepsInv(cfg: Config, s: State, e: Event)
    requires Inv(s)
    ensures Inv(Apply(cfg, s, e))
    ensures Evolves(s.rows, Apply(cfg, s, e).rows)
  {
    if e.Step? {
      if e.tid in s.tasks {
        StepKeepsInv(cfg, s, e.tid, e.input);
      }
    } else {
      StartEventKeepsInv(cfg, s, e);
    }
  }

  lemma {:induction false} RunKeepsInv(cfg: Config, s: State, es: seq<Event>)
    requires Inv(s)
    ensures Inv(Exec(cfg, s, es))
  {
    if |es| > 0 {
      RunKeepsInv(cfg, s, es[..|es| - 1]);
      EventKeepsInv(cfg, Exec(cfg, s, es[..|es| - 1]), es[|es| - 1]);
    }
  }
}
